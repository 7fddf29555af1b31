/**
  Runs that leave a completed transfer without a notification.
 */
module LostNotifications {
  import opened Wrappers
  import WS = WalletStore
  import T = TransferStore
  import S = Saga
  import O = Outbox
  import R = OutboxRuns
  import N = Notification
  import opened Platform
  import opened PlatformInv
  import opened PlatformSteps
  import opened Delivery
  import opened Scene

  /******* A completed transfer that nobody hears of *******/

  function Row10(): T.Transfer {
    S.Complete(Made10("a"))
  }

  function Event10(): T.Event {
    T.CompletedEvent(Row10(), 0, 0)
  }

  function Completed10(): seq<Action> {
    Funding(10) + Asking(0, "a") + PayRun(0, "a", 1) + [InsertAnswers(0, 0, 0, WS.NoFault)]
  }

  lemma IsCompleted()
    ensures var s := Exec(Completed10());
            s.transfers.db == T.Db([Row10()], [T.OutboxRow(Event10(), None)]) && s.pipe == Empty.pipe
  {
    hide Exec, Hold, Asking, Funding, PayRun, Act;
    Funded(10);
    AskingRuns(Funding(10), 0, "a");
    Paid(Funding(10) + Asking(0, "a"), 0, "a", 10, 0, 1);
    var run := Funding(10) + Asking(0, "a") + PayRun(0, "a", 1);
    OneMore(run, InsertAnswers(0, 0, 0, WS.NoFault));
    FirstInsert(Exec(run));
  }

  function WorkerOf(s: Sys): R.Pc {
    if 0 in s.pipe.workers then s.pipe.workers[0] else R.Idle
  }

  // The worker, the line and nothing else.
  ghost predicate Working(s: Sys, l: R.Line, pc: R.Pc) {
    s.transfers.db.rows == [Row10()] && LineOf(s) == l && WorkerOf(s) == pc && s.pipe.inbox == N.Inbox({}, [])
    && s.pipe.consumers == map[]
  }

  lemma Works(run: seq<Action>, a: R.Action, l: R.Line, pc: R.Pc, l': R.Line, pc': R.Pc)
    requires Working(Exec(run), l, pc) && R.Step(l, pc, a) == (l', pc')
    ensures Working(Exec(run + [Work(0, a)]), l', pc')
  {
    OneMore(run, Work(0, a));
    hide Exec, R.Step;
  }

  function Line10(primary: seq<O.Message>, dlq: seq<O.Message>, published: Option<nat>): R.Line {
    R.Line([T.OutboxRow(Event10(), published)], primary, dlq)
  }

  function Fetched10(): seq<Action> {
    Completed10() + [Work(0, R.Fetch([0]))]
  }

  lemma IsFetched()
    ensures Working(Exec(Fetched10()), Line10([], [], None), R.Publishing([0], 0, 0))
  {
    hide Exec, Completed10, R.Step;
    IsCompleted();
    R.Fetched(Event10());
    Works(Completed10(), R.Fetch([0]), Line10([], [], None), R.Idle, Line10([], [], None), R.Publishing([0], 0, 0));
  }

  // The broker refuses the event three times, the dead-letter topic takes it, the row is marked.
  function DeadLettered(): seq<Action> {
    Fetched10() + [Work(0, R.TryPrimary(R.Refused, false))] + [Work(0, R.TryPrimary(R.Refused, false))]
    + [Work(0, R.TryPrimary(R.Refused, false))] + [Work(0, R.TryDlq(R.Acked))] + [Work(0, R.MarkRow(0, WS.NoFault))]
  }

  lemma IsDeadLettered()
    ensures Working(Exec(DeadLettered()), Line10([], [O.MessageOf(Event10())], Some(0)), R.Idle)
  {
    hide Exec, Fetched10, R.Step, Working;
    IsFetched();
    R.GaveUp(Event10(), 0);
    R.GaveUp(Event10(), 1);
    R.GaveUp(Event10(), 2);
    R.DeadLettered(Event10());
    R.Marked(Event10(), 0);
    var refuse := R.TryPrimary(R.Refused, false);
    var run := Fetched10();
    Works(run, refuse, Line10([], [], None), R.Publishing([0], 0, 0), Line10([], [], None), R.Publishing([0], 0, 1));
    run := run + [Work(0, refuse)];
    Works(run, refuse, Line10([], [], None), R.Publishing([0], 0, 1), Line10([], [], None), R.Publishing([0], 0, 2));
    run := run + [Work(0, refuse)];
    Works(run, refuse, Line10([], [], None), R.Publishing([0], 0, 2), Line10([], [], None), R.DeadLettering([0], 0));
    run := run + [Work(0, refuse)];
    Works(run, R.TryDlq(R.Acked), Line10([], [], None), R.DeadLettering([0], 0),
        Line10([], [O.MessageOf(Event10())], None), R.Marking([0], 0));
    run := run + [Work(0, R.TryDlq(R.Acked))];
    Works(run, R.MarkRow(0, WS.NoFault), Line10([], [O.MessageOf(Event10())], None), R.Marking([0], 0),
          Line10([], [O.MessageOf(Event10())], Some(0)), R.Idle);
  }

  // A run that ends with a completed transfer whose event is marked as published and is in the
  // dead-letter topic alone.
  lemma DeadLetteredIsUnheard()
    ensures OnlyDead(Exec(DeadLettered()), 0)
  {
    hide Exec;
    IsDeadLettered();
  }

  // The event is published and marked; a consumer claims it and dies before it saves.
  function Published(): seq<Action> {
    Fetched10() + [Work(0, R.TryPrimary(R.Acked, false))] + [Work(0, R.MarkRow(0, WS.NoFault))]
  }

  function ClaimedAndLost(): seq<Action> {
    Published() + [Consume(0, Poll(0))] + [Consume(0, Claim(WS.NoFault))] + [Consume(0, ConsumerDies)]
  }

  lemma MarkedInTopic()
    ensures var m := O.MessageOf(Event10());
            && R.Step(Line10([], [], None), R.Publishing([0], 0, 0), R.TryPrimary(R.Acked, false))
               == (Line10([m], [], None), R.Marking([0], 0))
            && R.Step(Line10([m], [], None), R.Marking([0], 0), R.MarkRow(0, WS.NoFault))
                == (Line10([m], [], Some(0)), R.Idle)
  {
    var rows := [T.OutboxRow(Event10(), None)];
    assert T.Mark(rows, rows[0].event.id, 0) == [T.OutboxRow(Event10(), Some(0))];
    assert [] + [O.MessageOf(Event10())] == [O.MessageOf(Event10())];
  }

  lemma IsPublished()
    ensures Working(Exec(Published()), Line10([O.MessageOf(Event10())], [], Some(0)), R.Idle)
  {
    hide Exec, Fetched10, Working;
    IsFetched();
    var m := O.MessageOf(Event10());
    MarkedInTopic();
    hide R.Step;
    Works(Fetched10(), R.TryPrimary(R.Acked, false), Line10([], [], None), R.Publishing([0], 0, 0),
        Line10([m], [], None), R.Marking([0], 0));
    Works(Fetched10() + [Work(0, R.TryPrimary(R.Acked, false))], R.MarkRow(0, WS.NoFault),
          Line10([m], [], None), R.Marking([0], 0), Line10([m], [], Some(0)), R.Idle);
  }

  lemma ClaimsAndDies(s: Sys)
    requires Working(s, Line10([O.MessageOf(Event10())], [], Some(0)), R.Idle)
    ensures var s' := Act(Act(Act(s, Consume(0, Poll(0))), Consume(0, Claim(WS.NoFault))), Consume(0, ConsumerDies));
            && s'.pipe.primary == [O.MessageOf(Event10())] && s'.pipe.inbox == N.Inbox({"a"}, [])
            && s'.transfers.db == s.transfers.db
  {
    assert {} + {"a"} == {"a"};
  }

  // A run that ends with a completed transfer whose event is in the topic and claimed for good,
  // and whose notification was never saved.
  lemma ClaimedIsUnheard()
    ensures var s := Exec(ClaimedAndLost());
            OnlyClaimed(s, 0) && !OnlyDead(s, 0) && O.MessageOf(Event10()) in s.pipe.primary
  {
    hide Exec, Act, Published;
    IsPublished();
    OneMore(Published(), Consume(0, Poll(0)));
    OneMore(Published() + [Consume(0, Poll(0))], Consume(0, Claim(WS.NoFault)));
    OneMore(Published() + [Consume(0, Poll(0))] + [Consume(0, Claim(WS.NoFault))], Consume(0, ConsumerDies));
    ClaimsAndDies(Exec(Published()));
    assert Exec(ClaimedAndLost()).pipe.primary[0] == O.MessageOf(Event10());
  }

  // From neither run does draining the outbox and reading the topic again bring a notification.
  lemma NeitherIsEverNotified(run: seq<Action>, name: string, partition: nat)
    requires run == DeadLettered() || run == ClaimedAndLost()
    ensures var s := Exec(run);
            && O.Pending(s.transfers.db.outbox) == {}
            && |s.transfers.db.rows| == 1
            && NotesFor(N.Consumed(s.pipe.inbox, name, partition, s.pipe.primary, 0, |s.pipe.primary|).notes,
                s.transfers.db.rows[0].id) == 0
  {
    hide Exec, DeadLettered, ClaimedAndLost, NotesFor, N.Consumed;
    LostRunsAreDrained(run);
    var s := Exec(run);
    O.DrainStart(s.transfers.db.outbox);
    EveryTransferIsNotified(run, s.transfers.db.outbox, [], 0, name, partition);
    assert s.pipe.primary + O.Messages(s.transfers.db.outbox, [], 0) == s.pipe.primary;
  }

  lemma LostRunsAreDrained(run: seq<Action>)
    requires run == DeadLettered() || run == ClaimedAndLost()
    ensures var s := Exec(run);
            && O.Pending(s.transfers.db.outbox) == {} && |s.transfers.db.rows| == 1
            && (OnlyDead(s, 0) || OnlyClaimed(s, 0))
  {
    hide Exec, DeadLettered, ClaimedAndLost;
    if run == DeadLettered() {
      IsDeadLettered();
      DeadLetteredIsUnheard();
    } else {
      ClaimedLine();
      ClaimedIsUnheard();
    }
  }

  lemma ClaimedLine()
    ensures var s := Exec(ClaimedAndLost());
            s.transfers.db.outbox == [T.OutboxRow(Event10(), Some(0))] && |s.transfers.db.rows| == 1
  {
    hide Exec, Act, Published;
    IsPublished();
    OneMore(Published(), Consume(0, Poll(0)));
    OneMore(Published() + [Consume(0, Poll(0))], Consume(0, Claim(WS.NoFault)));
    OneMore(Published() + [Consume(0, Poll(0))] + [Consume(0, Claim(WS.NoFault))], Consume(0, ConsumerDies));
    ClaimsAndDies(Exec(Published()));
  }
}
