/**
  The outbox worker as a machine, one store or broker access per step, so that workers can
  crash, be cancelled and overlap between any two of them.
 */
module OutboxRuns {
  import opened Wrappers
  import WalletStore
  import opened TransferStore
  import opened Outbox

  datatype Pc =
    | Idle
    | Publishing(sel: seq<nat>, at: nat, attempt: nat)
    | DeadLettering(sel: seq<nat>, at: nat)
    | Marking(sel: seq<nat>, at: nat)

  datatype Line = Line(rows: seq<OutboxRow>, primary: seq<Message>, dlq: seq<Message>)

  // A write may be acknowledged, refused, or carried out and reported as failed.
  datatype Delivery = Acked | Refused | Lost

  datatype Action =
    | Fetch(batch: seq<nat>)
    | TryPrimary(delivery: Delivery, cancelled: bool)
    | TryDlq(delivery: Delivery)
    | MarkRow(when: nat, fault: Fault)
    | Crash

  // The row a worker is dealing with.
  function Current(pc: Pc): Option<nat> {
    match pc
    case Idle => None
    case Publishing(sel, at, _) => if at < |sel| then Some(sel[at]) else None
    case DeadLettering(sel, at) => if at < |sel| then Some(sel[at]) else None
    case Marking(sel, at) => if at < |sel| then Some(sel[at]) else None
  }

  function Written(log: seq<Message>, m: Message, d: Delivery): seq<Message> {
    if d == Refused then log else log + [m]
  }

  function AfterPrimary(sel: seq<nat>, at: nat, attempt: nat, d: Delivery, cancelled: bool): Pc {
    if d == Acked then Marking(sel, at)
    else if cancelled then Idle
    else if attempt + 1 < Retries then Publishing(sel, at, attempt + 1)
    else DeadLettering(sel, at)
  }

  ghost function Step(l: Line, pc: Pc, a: Action): (Line, Pc) {
    if a.Crash? then (l, Idle)
    else if pc.Idle? then
      if a.Fetch? && IsOldest(l.rows, a.batch, BatchSize) && a.batch != [] then (l, Publishing(a.batch, 0, 0))
          else (l, pc)
    else if Current(pc).None? || Current(pc).value >= |l.rows| then (l, pc)
    else
      var e := l.rows[Current(pc).value].event;
      match (pc, a)
      case (Publishing(sel, at, attempt), TryPrimary(d, cancelled)) =>
        (l.(primary := Written(l.primary, MessageOf(e), d)), AfterPrimary(sel, at, attempt, d, cancelled))
      case (DeadLettering(sel, at), TryDlq(d)) =>
        (l.(dlq := Written(l.dlq, MessageOf(e), d)), if d == Acked then Marking(sel, at) else Idle)
      case (Marking(sel, at), MarkRow(when, fault)) =>
        if fault == WalletStore.Fails then (l, Idle)
        else (l.(rows := Mark(l.rows, e.id, when)),
              if fault == WalletStore.NoFault && at + 1 < |sel| then Publishing(sel, at + 1, 0) else Idle)
      case (_, _) => (l, pc)
  }

  /******* Any number of workers: no event is lost *******/

  ghost predicate Sent(l: Line, i: nat)
    requires i < |l.rows|
  {
    MessageOf(l.rows[i].event) in l.primary || MessageOf(l.rows[i].event) in l.dlq
  }

  predicate FromRow(rows: seq<OutboxRow>, m: Message) {
    exists i :: 0 <= i < |rows| && MessageOf(rows[i].event) == m
  }

  ghost predicate LineInv(l: Line) {
    && DistinctEvents(l.rows)
    && Recorded(l.rows, l.primary, l.dlq)
    && (forall m :: m in l.primary || m in l.dlq ==> FromRow(l.rows, m))
  }

  ghost predicate WorkerInv(l: Line, pc: Pc) {
    && (Current(pc).Some? ==> Current(pc).value < |l.rows|)
    && (pc.Marking? && Current(pc).Some? ==> Sent(l, Current(pc).value))
    && (match pc
        case Idle => true
        case Publishing(sel, at, attempt) => attempt < Retries && forall k :: 0 <= k < |sel| ==> sel[k] < |l.rows|
        case DeadLettering(sel, at) => forall k :: 0 <= k < |sel| ==> sel[k] < |l.rows|
        case Marking(sel, at) => forall k :: 0 <= k < |sel| ==> sel[k] < |l.rows|)
  }

  ghost predicate LineGrows(a: Line, b: Line) {
    OutboxGrows(a.rows, b.rows) && a.primary <= b.primary && a.dlq <= b.dlq
  }

  lemma WorkerInvIsStable(a: Line, b: Line, pc: Pc)
    requires LineGrows(a, b) && WorkerInv(a, pc)
    ensures WorkerInv(b, pc)
  {
  }

  lemma FromRowIsStable(a: seq<OutboxRow>, b: seq<OutboxRow>, m: Message)
    requires OutboxGrows(a, b) && FromRow(a, m)
    ensures FromRow(b, m)
  {
  }

  lemma PublishKeepsInv(l: Line, i: nat, d: Delivery, toDlq: bool)
    requires LineInv(l) && i < |l.rows|
    ensures var l' := if toDlq then l.(dlq := Written(l.dlq, MessageOf(l.rows[i].event), d))
                      else l.(primary := Written(l.primary, MessageOf(l.rows[i].event), d));
            LineInv(l') && LineGrows(l, l') && (d == Acked ==> Sent(l', i))
  {
  }

  lemma MarkKeepsInv(l: Line, i: nat, when: nat)
    requires LineInv(l) && i < |l.rows| && Sent(l, i)
    ensures var l' := l.(rows := Mark(l.rows, l.rows[i].event.id, when));
            LineInv(l') && LineGrows(l, l')
  {
  }

  // A step of any worker: published events are still recorded, nothing is taken back.
  lemma StepKeepsInv(l: Line, pc: Pc, a: Action)
    requires LineInv(l) && WorkerInv(l, pc)
    ensures var (l', pc') := Step(l, pc, a);
            LineInv(l') && WorkerInv(l', pc') && LineGrows(l, l')
  {
    if a.Crash? || pc.Idle? || Current(pc).None? {
    } else {
      var i := Current(pc).value;
      match (pc, a) {
        case (Publishing(_, _, _), TryPrimary(d, _)) => PublishKeepsInv(l, i, d, false);
        case (DeadLettering(_, _), TryDlq(d)) => PublishKeepsInv(l, i, d, true);
        case (Marking(_, _), MarkRow(when, _)) => MarkKeepsInv(l, i, when);
        case (_, _) =>
      }
    }
  }

  /******* One worker, definite outcomes: how often an event can be published *******/

  datatype Solo = Solo(line: Line, pc: Pc)

  datatype SoloAction = Insert(event: Event) | Work(action: Action)

  predicate IsNew(rows: seq<OutboxRow>, e: Event) {
    forall i :: 0 <= i < |rows| ==> rows[i].event.id != e.id && rows[i].event.aggregate != e.aggregate
  }

  ghost function SoloStep(s: Solo, a: SoloAction): Solo {
    match a
    case Insert(e) =>
      if IsNew(s.line.rows, e) then s.(line := s.line.(rows := s.line.rows + [OutboxRow(e, None)])) else s
    case Work(action) => var (l, pc) := Step(s.line, s.pc, action); Solo(l, pc)
  }

  ghost function Exec(run: seq<SoloAction>): Solo {
    if run == [] then Solo(Line([], [], []), Idle)
    else SoloStep(Exec(run[..|run| - 1]), run[|run| - 1])
  }

  // A failed write of this broker has had no effect.
  predicate Definite(a: SoloAction) {
    a.Work? ==>
      && (a.action.TryPrimary? ==> a.action.delivery != Lost)
      && (a.action.TryDlq? ==> a.action.delivery != Lost)
  }

  // The worker has published row x and fails, or dies, before it learns that x is marked.
  predicate EndsBadly(s: Solo, a: SoloAction, x: nat) {
    && a.Work? && s.pc.Marking? && Current(s.pc) == Some(x)
    && (a.action.Crash? || (a.action.MarkRow? && a.action.fault != WalletStore.NoFault))
  }

  ghost function BadEnds(run: seq<SoloAction>, x: nat): nat {
    if run == [] then 0
    else BadEnds(run[..|run| - 1], x) + if EndsBadly(Exec(run[..|run| - 1]), run[|run| - 1], x) then 1 else 0
  }

  function CopiesOf(l: Line, m: Message): nat {
    multiset(l.primary)[m] + multiset(l.dlq)[m]
  }

  ghost predicate DistinctAggregates(rows: seq<OutboxRow>) {
    forall i, j :: 0 <= i < |rows| && 0 <= j < |rows| && rows[i].event.aggregate == rows[j].event.aggregate ==> i == j
  }

  // What is left of the worker's batch is still unmarked: nobody else marks.
  ghost predicate RestUnmarked(rows: seq<OutboxRow>, sel: seq<nat>, at: nat) {
    Distinct(sel) && at < |sel| && forall k :: at <= k < |sel| ==> Unpublished(rows, sel[k])
  }

  ghost predicate SoloInv(s: Solo) {
    && DistinctEvents(s.line.rows)
    && DistinctAggregates(s.line.rows)
    && match s.pc
       case Idle => true
       case Publishing(sel, at, _) => RestUnmarked(s.line.rows, sel, at)
       case DeadLettering(sel, at) => RestUnmarked(s.line.rows, sel, at)
       case Marking(sel, at) => RestUnmarked(s.line.rows, sel, at)
  }

  // Of row x there may be one copy more than there were bad ends, once it is published.
  function Allowance(s: Solo, x: nat): nat {
    if x < |s.line.rows| && (s.line.rows[x].published.Some? || (s.pc.Marking? && Current(s.pc) == Some(x))) then 1
        else 0
  }

  lemma WorkKeepsSoloInv(s: Solo, a: Action)
    requires SoloInv(s)
    ensures SoloInv(SoloStep(s, Work(a)))
  {
  }

  lemma InsertKeepsSoloInv(s: Solo, e: Event)
    requires SoloInv(s)
    ensures SoloInv(SoloStep(s, Insert(e)))
  {
  }

  // One step: the copies grow by no more than the allowance and the bad ends together do.
  ghost predicate CopiesGrowFairly(s: Solo, a: Action, x: nat)
    requires x < |s.line.rows|
  {
    var s' := SoloStep(s, Work(a));
    var m := MessageOf(s.line.rows[x].event);
    && x < |s'.line.rows| && s'.line.rows[x].event == s.line.rows[x].event
    && CopiesOf(s'.line, m) - CopiesOf(s.line, m)
       <= Allowance(s', x) - Allowance(s, x) + if EndsBadly(s, Work(a), x) then 1 else 0
  }

  lemma PrimaryCopies(s: Solo, sel: seq<nat>, at: nat, attempt: nat, a: Action, x: nat)
    requires s.pc == Publishing(sel, at, attempt) && RestUnmarked(s.line.rows, sel, at)
        && DistinctAggregates(s.line.rows)
    requires Definite(Work(a)) && a.TryPrimary? && x < |s.line.rows|
    ensures CopiesGrowFairly(s, a, x)
  {
  }

  lemma DlqCopies(s: Solo, sel: seq<nat>, at: nat, a: Action, x: nat)
    requires s.pc == DeadLettering(sel, at) && RestUnmarked(s.line.rows, sel, at) && DistinctAggregates(s.line.rows)
    requires Definite(Work(a)) && a.TryDlq? && x < |s.line.rows|
    ensures CopiesGrowFairly(s, a, x)
  {
  }

  lemma CopiesStep(s: Solo, a: Action, x: nat)
    requires SoloInv(s) && Definite(Work(a)) && x < |s.line.rows|
    ensures CopiesGrowFairly(s, a, x)
  {
    hide IsOldest;
    match (s.pc, a) {
      case (Publishing(sel, at, attempt), TryPrimary(_, _)) => PrimaryCopies(s, sel, at, attempt, a, x);
      case (DeadLettering(sel, at), TryDlq(_)) => DlqCopies(s, sel, at, a, x);
      case (_, _) => hide DistinctAggregates, DistinctEvents;
    }
  }

  lemma {:induction false} SoloInvHolds(run: seq<SoloAction>)
    ensures SoloInv(Exec(run)) && LineInv(Exec(run).line) && WorkerInv(Exec(run).line, Exec(run).pc)
    decreases |run|
  {
    if run != [] {
      var s, a := Exec(run[..|run| - 1]), run[|run| - 1];
      SoloInvHolds(run[..|run| - 1]);
      match a {
        case Insert(e) => InsertKeepsSoloInv(s, e); InsertKeepsLine(s, e);
        case Work(action) => WorkKeepsSoloInv(s, action); StepKeepsInv(s.line, s.pc, action);
      }
    }
  }

  lemma InsertKeepsLine(s: Solo, e: Event)
    requires LineInv(s.line) && WorkerInv(s.line, s.pc)
    ensures var s' := SoloStep(s, Insert(e)); LineInv(s'.line) && WorkerInv(s'.line, s'.pc)
  {
    var s' := SoloStep(s, Insert(e));
    assert OutboxGrows(s.line.rows, s'.line.rows);
    forall m | m in s'.line.primary || m in s'.line.dlq
      ensures FromRow(s'.line.rows, m)
    {
      FromRowIsStable(s.line.rows, s'.line.rows, m);
    }
    WorkerInvIsStable(s.line, s'.line, s.pc);
  }

  // In no run does an event have more copies than one plus its bad ends; a marked one has one at least.
  lemma {:induction false} BoundedDuplication(run: seq<SoloAction>, x: nat)
    requires forall i :: 0 <= i < |run| ==> Definite(run[i])
    requires x < |Exec(run).line.rows|
    ensures var s := Exec(run);
            var copies := CopiesOf(s.line, MessageOf(s.line.rows[x].event));
            && copies <= Allowance(s, x) + BadEnds(run, x)
            && (s.line.rows[x].published.Some? ==> copies >= 1)
    decreases |run|
  {
    var s := Exec(run);
    SoloInvHolds(run);
    CopiesBound(run, x);
    if s.line.rows[x].published.Some? {
      assert MessageOf(s.line.rows[x].event) in s.line.primary || MessageOf(s.line.rows[x].event) in s.line.dlq;
    }
  }

  lemma {:induction false} CopiesBound(run: seq<SoloAction>, x: nat)
    requires forall i :: 0 <= i < |run| ==> Definite(run[i])
    requires x < |Exec(run).line.rows|
    ensures CopiesOf(Exec(run).line, MessageOf(Exec(run).line.rows[x].event)) <= Allowance(Exec(run), x) + BadEnds(run,
        x)
    decreases |run|
  {
    if run != [] {
      var init, a := run[..|run| - 1], run[|run| - 1];
      var s := Exec(init);
      SoloInvHolds(init);
      match a {
        case Work(action) =>
          SoloRowsKept(s, action);
          CopiesBound(init, x);
          CopiesStep(s, action, x);
        case Insert(e) =>
          if x < |s.line.rows| {
            CopiesBound(init, x);
          } else {
            NewRowHasNoCopies(s, e);
          }
      }
    }
  }

  lemma SoloRowsKept(s: Solo, a: Action)
    ensures |SoloStep(s, Work(a)).line.rows| == |s.line.rows|
  {
  }

  lemma NewRowHasNoCopies(s: Solo, e: Event)
    requires LineInv(s.line) && IsNew(s.line.rows, e)
    ensures CopiesOf(s.line, MessageOf(e)) == 0
  {
    forall m | m in s.line.primary || m in s.line.dlq
      ensures m != MessageOf(e)
    {
      var i :| 0 <= i < |s.line.rows| && MessageOf(s.line.rows[i].event) == m;
    }
    assert MessageOf(e) !in s.line.primary && MessageOf(e) !in s.line.dlq;
  }

  /******* A published event that the broker never had *******/

  // The broker refuses an event three times, the dead-letter topic takes it, the row is marked.
  function GivenUp(e: Event, when: nat): seq<SoloAction> {
    [Insert(e), Work(Fetch([0])), Work(TryPrimary(Refused, false)), Work(TryPrimary(Refused, false)),
     Work(TryPrimary(Refused, false)), Work(TryDlq(Acked)), Work(MarkRow(when, WalletStore.NoFault))]
  }

  function Stored(e: Event, dlq: seq<Message>, pc: Pc): Solo {
    Solo(Line([OutboxRow(e, None)], [], dlq), pc)
  }

  lemma Fetched(e: Event)
    ensures SoloStep(Stored(e, [], Idle), Work(Fetch([0]))) == Stored(e, [], Publishing([0], 0, 0))
  {
  }

  lemma GaveUp(e: Event, attempt: nat)
    requires attempt < Retries
    ensures SoloStep(Stored(e, [], Publishing([0], 0, attempt)), Work(TryPrimary(Refused, false)))
         == Stored(e, [], if attempt + 1 < Retries then Publishing([0], 0, attempt + 1) else DeadLettering([0], 0))
  {
  }

  lemma DeadLettered(e: Event)
    ensures SoloStep(Stored(e, [], DeadLettering([0], 0)), Work(TryDlq(Acked)))
        == Stored(e, [MessageOf(e)], Marking([0], 0))
  {
  }

  lemma Marked(e: Event, when: nat)
    ensures SoloStep(Stored(e, [MessageOf(e)], Marking([0], 0)), Work(MarkRow(when, WalletStore.NoFault)))
         == Solo(Line([OutboxRow(e, Some(when))], [], [MessageOf(e)]), Idle)
  {
  }

  lemma Executed(run: seq<SoloAction>, n: nat)
    requires n < |run|
    ensures Exec(run[..n + 1]) == SoloStep(Exec(run[..n]), run[n])
  {
    assert run[..n + 1][..n] == run[..n];
  }

  lemma Inserted(e: Event)
    ensures SoloStep(Exec([]), Insert(e)) == Stored(e, [], Idle)
  {
  }

  // So a mark does not mean that the topic has the event.
  lemma MarkedWithoutTopic(e: Event, when: nat)
    ensures forall n :: 0 <= n < 7 ==> Definite(GivenUp(e, when)[n])
    ensures Exec(GivenUp(e, when)) == Solo(Line([OutboxRow(e, Some(when))], [], [MessageOf(e)]), Idle)
  {
    hide SoloStep, Exec, Stored;
    var run := GivenUp(e, when);
    assert run[..0] == [] && run[..7] == run;
    Inserted(e);
    Executed(run, 0);
    Fetched(e);
    Executed(run, 1);
    GaveUp(e, 0);
    Executed(run, 2);
    GaveUp(e, 1);
    Executed(run, 3);
    GaveUp(e, 2);
    Executed(run, 4);
    DeadLettered(e);
    Executed(run, 5);
    Marked(e, when);
    Executed(run, 6);
  }
}
