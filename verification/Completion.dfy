/**
  What can always still be done: from any state that any run has led to, a new request, left
  alone, becomes a completed transfer; a worker that nothing disturbs takes the oldest events out
  and marks them; and a consumer that nothing disturbs saves a notification.
 */
module Completion {
  import opened Wrappers
  import opened Keys
  import L = Ledger
  import WS = WalletStore
  import W = WalletRuns
  import B = Breaker
  import opened WalletClient
  import T = TransferStore
  import S = Saga
  import O = Outbox
  import R = OutboxRuns
  import N = Notification
  import opened Platform
  import opened PlatformInv
  import opened PlatformSteps
  import opened PlatformTheorems
  import opened Undisturbed

  /******* A request becomes a transfer *******/

  // Up to the first leg: neither the cache nor the table knows the key.
  function LookedUp(i: nat, req: S.CreateRequest, proc: nat, id: TransferId): seq<Action> {
    [NewSaga(req, proc)] + [CacheAnswers(i, false)] + [RowAnswers(i, false, id)]
  }

  ghost predicate Unknown(t: Transfers, req: S.CreateRequest, id: TransferId) {
    req.key !in t.cache && T.ByKey(t.db.rows, req.key).None? && id != "" && id !in t.owner
  }

  lemma LookedUpActs(s: Sys, i: nat, req: S.CreateRequest, proc: nat, id: TransferId)
    requires |s.transfers.sagas| == i && WellFormed(req) && Unknown(s.transfers, req, id)
    ensures Act(Act(Act(s, NewSaga(req, proc)), CacheAnswers(i, false)), RowAnswers(i, false, id))
         == s.(transfers := s.transfers.(
                sagas := s.transfers.sagas
                  + [Running(S.Saga(req, Some(S.Requested(req, id)), S.Debiting, None), proc, false, 0, false)],
                owner := s.transfers.owner[id := i]))
  {
    hide T.ByKey;
    var s1 := Act(s, NewSaga(req, proc));
    assert s1.transfers.sagas == s.transfers.sagas + [Running(S.Saga(req, None, S.AskingCache, None), proc, false, 0,
        false)];
    var s2 := Act(s1, CacheAnswers(i, false));
    assert s2.transfers.sagas == s.transfers.sagas + [Running(S.Saga(req, None, S.AskingRow, None), proc, false, 0,
        false)];
  }

  lemma LookedUpRuns(run: seq<Action>, req: S.CreateRequest, proc: nat, id: TransferId)
    requires WellFormed(req) && Unknown(Exec(run).transfers, req, id)
    ensures var s, i := Exec(run), |Exec(run).transfers.sagas|;
            Exec(run + LookedUp(i, req, proc, id)) == s.(transfers := s.transfers.(
                sagas := s.transfers.sagas
                  + [Running(S.Saga(req, Some(S.Requested(req, id)), S.Debiting, None), proc, false, 0, false)],
                owner := s.transfers.owner[id := i]))
  {
    hide Exec, Act, T.ByKey;
    var s, i := Exec(run), |Exec(run).transfers.sagas|;
    Continued(run, LookedUp(i, req, proc, id));
    ContinueJoins(s, [NewSaga(req, proc)] + [CacheAnswers(i, false)], [RowAnswers(i, false, id)]);
    ContinueJoins(s, [NewSaga(req, proc)], [CacheAnswers(i, false)]);
    ContinueOne(s, NewSaga(req, proc));
    ContinueOne(Act(s, NewSaga(req, proc)), CacheAnswers(i, false));
    ContinueOne(Act(Act(s, NewSaga(req, proc)), CacheAnswers(i, false)), RowAnswers(i, false, id));
    hide Continue;
    LookedUpActs(s, i, req, proc, id);
  }

  predicate LeavesDb(more: seq<Action>) {
    forall k :: 0 <= k < |more| ==> !more[k].InsertAnswers? && !more[k].Work?
  }

  lemma {:induction false} DbIsLeft(s: Sys, more: seq<Action>)
    requires LeavesDb(more)
    ensures Continue(s, more).transfers.db == s.transfers.db
    decreases |more|
  {
    hide Act;
    if more != [] {
      DbIsLeft(s, more[..|more| - 1]);
      OthersLeaveTheDb(Continue(s, more[..|more| - 1]), more[|more| - 1]);
    }
  }

  lemma LegLeavesDb(i: nat, tr: T.Transfer, leg: Leg, now: nat, entry: L.EntryId)
    ensures LeavesDb(Alone(i, tr, leg, now, entry))
  {
  }

  // Both legs of the transfer, one after the other.
  function BothLegs(i: nat, tr: T.Transfer, now: nat, e1: L.EntryId, e2: L.EntryId): seq<Action> {
    Alone(i, tr, DebitLeg, now, e1) + Alone(i, tr, CreditLeg, now, e2)
  }

  lemma BothLegsLeaveDb(run: seq<Action>, i: nat, tr: T.Transfer, now: nat, e1: L.EntryId, e2: L.EntryId)
    ensures Exec(run + BothLegs(i, tr, now, e1, e2)).transfers.db == Exec(run).transfers.db
  {
    hide Exec, Continue, Alone;
    LegLeavesDb(i, tr, DebitLeg, now, e1);
    LegLeavesDb(i, tr, CreditLeg, now, e2);
    Continued(run, BothLegs(i, tr, now, e1, e2));
    DbIsLeft(Exec(run), BothLegs(i, tr, now, e1, e2));
  }

  // The row and its event, if nothing goes wrong,
  lemma InsertAct(s: Sys, i: nat, tr: T.Transfer, eventId: T.EventId, at: nat)
    requires Stands(s, i, tr) && s.transfers.sagas[i].saga.pc.Inserting? && tr.amount > 0
    requires T.ById(s.transfers.db.rows, tr.id).None? && T.ByKey(s.transfers.db.rows, tr.key).None?
    requires !T.HasEvent(s.transfers.db.outbox, eventId)
    ensures var s' := Act(s, InsertAnswers(i, eventId, at, WS.NoFault));
            && s'.wallet == s.wallet && s'.transfers.cache == s.transfers.cache
            && Inserted(s.transfers.db, s'.transfers.db, tr.(status := T.Completed), eventId, at)
            && Stands(s', i, tr) && s'.transfers.sagas[i].saga.pc.Filling?
            && s'.transfers.sagas[i].saga.req == s.transfers.sagas[i].saga.req
  {
    hide T.ById, T.ByKey, T.HasEvent;
  }

  // and then the cached id.
  lemma FillAct(s: Sys, i: nat, tr: T.Transfer, stores: bool)
    requires Stands(s, i, tr) && s.transfers.sagas[i].saga.pc.Filling?
    ensures var s' := Act(s, CacheFills(i, stores));
            && s'.wallet == s.wallet && s'.transfers.db == s.transfers.db && i < |s'.transfers.sagas|
            && s'.transfers.sagas[i].saga.pc == S.Finished(Ok(S.CreateResult(tr.(status := T.Completed), false)))
            && (stores ==> s'.transfers.cache == s.transfers.cache[s.transfers.sagas[i].saga.req.key := tr.id])
  {
  }

  // One row more, and one event that announces it and is still to be published.
  ghost predicate Inserted(db: T.Db, db': T.Db, tr: T.Transfer, eventId: T.EventId, at: nat) {
    && db'.rows == db.rows + [tr]
    && |db'.outbox| == |db.outbox| + 1 && db.outbox <= db'.outbox
    && var row := db'.outbox[|db.outbox|];
       row.published.None? && T.Announces(row.event, tr) && row.event.id == eventId && row.event.createdAt == at
  }

  lemma FreshIdHasNoRow(run: seq<Action>, id: TransferId)
    requires id !in Exec(run).transfers.owner
    ensures T.ById(Exec(run).transfers.db.rows, id).None?
  {
    var s := Exec(run);
    InvHolds(run);
    hide Exec, WalletOk, StoresOk, PipeOk, LegFacts, RowFacts, OwnersOk, LegsOk, SagaOk;
    forall row | row in s.transfers.db.rows ensures row.id in s.transfers.owner {
      assert RowOk(s.wallet, s.transfers.sagas, s.transfers.owner, row);
    }
  }

  function WholeCall(i: nat, req: S.CreateRequest, proc: nat, id: TransferId, now: nat, e1: L.EntryId, e2: L.EntryId,
      eventId: T.EventId, at: nat, stores: bool): seq<Action>
    requires WellFormed(req)
  {
    LookedUp(i, req, proc, id) + BothLegs(i, S.Requested(req, id), now, e1, e2)
    + [InsertAnswers(i, eventId, at, WS.NoFault)] + [CacheFills(i, stores)]
  }

  // Call i has returned the transfer req asked for, under this id; its amount has moved, once,
  // and it is stored and announced.
  ghost predicate CarriedThrough(s: Sys, s': Sys, i: nat, req: S.CreateRequest, id: TransferId, eventId: T.EventId,
      at: nat)
  {
    && i < |s'.transfers.sagas| && FinishedWell(s', i) && !s'.transfers.sagas[i].saga.pc.result.value.replay
    && var tr := ResultOf(s', i);
       && S.AsRequested(req, tr) && tr.id == id && tr.status == T.Completed
       && PaidOver(s.wallet.db, s'.wallet.db, tr)
       && Inserted(s.transfers.db, s'.transfers.db, tr, eventId, at)
  }

  // From any reachable state: a well-formed request under a key that has no row, whose sender has
  // the amount and whose receiver has room for it, is carried through if its breaker is closed and
  // it is left alone.
  lemma RequestIsCarriedOut(run: seq<Action>, req: S.CreateRequest, proc: nat, id: TransferId, now: nat,
      e1: L.EntryId, e2: L.EntryId, e3: L.EntryId, eventId: T.EventId, at: nat, stores: bool)
    requires WellFormed(req) && Unknown(Exec(run).transfers, req, id)
    requires !B.Refuses(TraceOf(Exec(run).transfers, proc), now, Threshold, Cooldown)
    requires var db := Exec(run).wallet.db;
             && req.from.value in db.balances && req.amount <= db.balances[req.from.value].minor
             && req.to.value in db.balances && db.balances[req.to.value].minor as int + req.amount as int <= L.MaxInt64
             && Room(db, S.Requested(req, id), e1, e2, e3)
    requires !T.HasEvent(Exec(run).transfers.db.outbox, eventId)
    ensures var s, i := Exec(run), |Exec(run).transfers.sagas|;
            var s' := Exec(run + WholeCall(i, req, proc, id, now, e1, e2, eventId, at, stores));
            && CarriedThrough(s, s', i, req, id, eventId, at)
            && (stores ==> req.key in s'.transfers.cache && s'.transfers.cache[req.key] == id)
  {
    hide Exec, Act, T.ByKey, B.Refuses, Alone, Room, PaidOver, Inserted, BothLegs, LookedUp, S.Requested, T.HasEvent,
        CarriedThrough;
    var i, tr := |Exec(run).transfers.sagas|, S.Requested(req, id);
    RequestedTransfer(req, id);
    LookedUpRuns(run, req, proc, id);
    var run1 := run + LookedUp(i, req, proc, id);
    var run2 := run1 + BothLegs(i, tr, now, e1, e2);
    LegsPay(run1, i, tr, now, e1, e2, e3);
    BothLegsLeaveDb(run1, i, tr, now, e1, e2);
    FreshIdHasNoRow(run, id);
    SettledAlone(Exec(run), run2, i, req, id, eventId, at, stores);
    assert run + WholeCall(i, req, proc, id, now, e1, e2, eventId, at, stores)
        == run2 + [InsertAnswers(i, eventId, at, WS.NoFault)] + [CacheFills(i, stores)];
  }

  // Both legs of the call have been paid since s.
  lemma SettledAlone(s: Sys, run: seq<Action>, i: nat, req: S.CreateRequest, id: TransferId, eventId: T.EventId,
      at: nat, stores: bool)
    requires WellFormed(req) && Stands(Exec(run), i, S.Requested(req, id))
        && Exec(run).transfers.sagas[i].saga.pc.Inserting?
    requires Exec(run).transfers.db == s.transfers.db
    requires PaidOver(s.wallet.db, Exec(run).wallet.db, S.Requested(req, id))
    requires T.ById(s.transfers.db.rows, id).None? && T.ByKey(s.transfers.db.rows, req.key).None?
    requires !T.HasEvent(s.transfers.db.outbox, eventId)
    ensures var s' := Exec(run + [InsertAnswers(i, eventId, at, WS.NoFault)] + [CacheFills(i, stores)]);
            && CarriedThrough(s, s', i, req, id, eventId, at)
            && (stores ==> req.key in s'.transfers.cache && s'.transfers.cache[req.key] == id)
  {
    hide Exec, Act, T.ById, T.ByKey, T.HasEvent, PaidOver, Inserted, S.Requested, S.AsRequested;
    var tr := S.Requested(req, id);
    RequestedTransfer(req, id);
    AttemptIsTheRequested(run, i);
    var run' := run + [InsertAnswers(i, eventId, at, WS.NoFault)];
    InsertAct(Exec(run), i, tr, eventId, at);
    OneMore(run, InsertAnswers(i, eventId, at, WS.NoFault));
    FillAct(Exec(run'), i, tr, stores);
    OneMore(run', CacheFills(i, stores));
    SamePayment(s.wallet.db, Exec(run).wallet.db, tr);
  }

  lemma SamePayment(a: WS.Db, b: WS.Db, tr: T.Transfer)
    requires PaidOver(a, b, tr)
    ensures PaidOver(a, b, tr.(status := T.Completed))
  {
  }

  lemma RequestedTransfer(req: S.CreateRequest, id: TransferId)
    requires WellFormed(req)
    ensures var tr := S.Requested(req, id);
            && tr.key == req.key && tr.amount == req.amount > 0 && req.from == Some(tr.from) && req.to == Some(tr.to)
            && S.AsRequested(req, tr) && S.AsRequested(req, tr.(status := T.Completed)) && tr.id == id
  {
  }

  lemma LegsPay(run: seq<Action>, i: nat, tr: T.Transfer, now: nat, e1: L.EntryId, e2: L.EntryId, e3: L.EntryId)
    requires Stands(Exec(run), i, tr) && Exec(run).transfers.sagas[i].saga.pc.Debiting? && Allowed(Exec(run), i, now)
    requires Room(Exec(run).wallet.db, tr, e1, e2, e3)
    requires Debitable(Exec(run).wallet.db, tr) && Creditable(Exec(run).wallet.db, tr)
    ensures var s' := Exec(run + BothLegs(i, tr, now, e1, e2));
            && Stands(s', i, tr) && s'.transfers.sagas[i].saga.pc.Inserting?
            && PaidOver(Exec(run).wallet.db, s'.wallet.db, tr)
  {
    hide Exec, Alone, Room, PaidOver, Debitable, Creditable, Allowed;
    AloneIsAllOrNothing(run, i, now, e1, e2, e3);
    assert run + Alone(i, tr, DebitLeg, now, e1) + Alone(i, tr, CreditLeg, now, e2)
        == run + BothLegs(i, tr, now, e1, e2);
  }

  // A call that finds its key in the cache asks nothing more than the row, and returns it.
  lemma CacheHitIsReplay(run: seq<Action>, i: nat)
    requires Live(Exec(run).transfers, i) && Exec(run).transfers.sagas[i].saga.pc.AskingCache?
    requires Exec(run).transfers.sagas[i].saga.req.key in Exec(run).transfers.cache
    ensures var s, s' := Exec(run), Exec(run + [CacheAnswers(i, false)] + [LoadAnswers(i, false)]);
            var row := T.ByKey(s.transfers.db.rows, s.transfers.sagas[i].saga.req.key);
            && row.Some? && i < |s'.transfers.sagas| && s'.wallet == s.wallet && s'.transfers.db == s.transfers.db
            && s'.transfers.sagas[i].saga.pc == S.Finished(Ok(S.CreateResult(row.value, true)))
  {
    hide Exec, T.ByKey;
    var run1 := run + [CacheAnswers(i, false)];
    OneMore(run, CacheAnswers(i, false));
    OneMore(run1, LoadAnswers(i, false));
    CachedReplayIsTheRow(run1, i);
  }

  /******* An event becomes a message *******/

  // A worker fetches the oldest events; the broker takes the first one; the row is marked.
  lemma OldestIsPublished(l: R.Line, sel: seq<nat>, at: nat)
    requires O.IsOldest(l.rows, sel, 50) && sel != []
    ensures var (l1, p1) := R.Step(l, R.Idle, R.Fetch(sel));
            var (l2, p2) := R.Step(l1, p1, R.TryPrimary(R.Acked, false));
            var (l3, p3) := R.Step(l2, p2, R.MarkRow(at, WS.NoFault));
            var e := l.rows[sel[0]].event;
            && l3.primary == l.primary + [O.Message(e.aggregate, e.payload)] && l3.dlq == l.dlq
            && |l3.rows| == |l.rows|
            && l3.rows[sel[0]] == T.OutboxRow(e, Some(at))
            && (T.DistinctEvents(l.rows) ==>
                  forall i :: 0 <= i < |l.rows| && i != sel[0] ==> l3.rows[i] == l.rows[i])
            && p3 == if |sel| == 1 then R.Idle else R.Publishing(sel, 1, 0)
  {
  }

  // The broker refuses three times and the dead-letter topic takes it: the row is marked all the same.
  lemma RefusedGoesToDeadLetters(l: R.Line, sel: seq<nat>, k: nat, at: nat)
    requires k < |sel| && sel[k] < |l.rows|
    ensures var no := R.TryPrimary(R.Refused, false);
            var (l1, p1) := R.Step(l, R.Publishing(sel, k, 0), no);
            var (l2, p2) := R.Step(l1, p1, no);
            var (l3, p3) := R.Step(l2, p2, no);
            var (l4, p4) := R.Step(l3, p3, R.TryDlq(R.Acked));
            var (l5, _) := R.Step(l4, p4, R.MarkRow(at, WS.NoFault));
            var e := l.rows[sel[k]].event;
            && l3 == l && p3 == R.DeadLettering(sel, k)
            && l5.primary == l.primary && l5.dlq == l.dlq + [O.Message(e.aggregate, e.payload)]
            && |l5.rows| == |l.rows| && l5.rows[sel[k]] == T.OutboxRow(e, Some(at))
  {
  }

  /******* A message becomes a notification *******/

  ghost predicate Awaits(p: Pipe, c: nat) {
    c in p.consumers ==> p.consumers[c] == Polling
  }

  // From any reachable state: a consumer reads any message of the topic, undisturbed. If nobody
  // has claimed its transfer, it is now claimed, and the message's event is saved as its
  // notification; if somebody has, nothing changes.
  lemma MessageIsNoted(run: seq<Action>, c: nat, offset: nat)
    requires Awaits(Exec(run).pipe, c) && offset < |Exec(run).pipe.primary|
    ensures var s, m := Exec(run), Exec(run).pipe.primary[offset];
            var s' := Exec(run + [Consume(c, Poll(offset))] + [Consume(c, Claim(WS.NoFault))]
                           + [Consume(c, Save(WS.NoFault))]);
            && s'.pipe.inbox == N.Handled(s.pipe.inbox, m.key, m.value)
            && (if m.key in s.pipe.inbox.claimed then s'.pipe.inbox == s.pipe.inbox
                else s'.pipe.inbox == N.Inbox(s.pipe.inbox.claimed + {m.key},
                                              s.pipe.inbox.notes + [N.Note(m.key, m.key, "log", m.value)]))
            && s'.wallet == s.wallet && s'.transfers == s.transfers && Awaits(s'.pipe, c)
  {
    hide Exec, Inv;
    var poll, claim, save := Consume(c, Poll(offset)), Consume(c, Claim(WS.NoFault)), Consume(c, Save(WS.NoFault));
    InvHolds(run);
    OneMore(run, poll);
    OneMore(run + [poll], claim);
    OneMore(run + [poll] + [claim], save);
    TopicIsOfTransfers(Exec(run), offset);
    ConsumerNotes(Exec(run), c, offset);
    hide Act;
  }

  lemma TopicIsOfTransfers(s: Sys, offset: nat)
    requires Inv(s) && offset < |s.pipe.primary|
    ensures var m := s.pipe.primary[offset]; m.value.Json? && m.value.event.transferId == m.key
    ensures N.NotesInv(s.pipe.inbox)
  {
    hide WalletOk, SagasOk, R.WorkerInv, T.Truthful;
    var m := s.pipe.primary[offset];
    assert R.FromRow(s.transfers.db.outbox, m);
    var r :| 0 <= r < |s.transfers.db.outbox| && O.MessageOf(s.transfers.db.outbox[r].event) == m;
    assert T.Paired(s.transfers.db.rows[r], s.transfers.db.outbox[r]);
  }

  lemma ConsumerNotes(s: Sys, c: nat, offset: nat)
    requires Awaits(s.pipe, c) && offset < |s.pipe.primary|
    requires var m := s.pipe.primary[offset]; m.value.Json? && m.value.event.transferId == m.key
    requires N.NotesInv(s.pipe.inbox)
    ensures var m := s.pipe.primary[offset];
            var s' := Act(Act(Act(s, Consume(c, Poll(offset))), Consume(c, Claim(WS.NoFault))),
                          Consume(c, Save(WS.NoFault)));
            && s'.pipe.inbox == N.Handled(s.pipe.inbox, m.key, m.value)
            && (if m.key in s.pipe.inbox.claimed then s'.pipe.inbox == s.pipe.inbox
                else s'.pipe.inbox == N.Inbox(s.pipe.inbox.claimed + {m.key},
                                              s.pipe.inbox.notes + [N.Note(m.key, m.key, "log", m.value)]))
            && s'.wallet == s.wallet && s'.transfers == s.transfers && Awaits(s'.pipe, c)
  {
  }

  /******* A dead call rests *******/

  lemma DeadCallRests(s: Sys, i: nat, a: Action)
    requires i < |s.transfers.sagas| && s.transfers.sagas[i].dead
    ensures var s' := Act(s, a); i < |s'.transfers.sagas| && s'.transfers.sagas[i] == s.transfers.sagas[i]
  {
    hide S.On, W.Act, S.LegRequest, Signals, MapErr, ConsumerStep, R.Step, T.Insert, T.ByKey, B.Refuses, TraceOf,
        LoadAnswer, S.Complete, T.CompletedEvent;
  }

  // A process that dies leaves its call, and the money it may have moved, as they are: whatever comes
  // after, the call does not go on, while a leg that has reached the wallet may.
  lemma {:induction false} DeadForGood(run: seq<Action>, i: nat, more: seq<Action>)
    requires Live(Exec(run).transfers, i)
    ensures var s, s', s'' := Exec(run), Exec(run + [Die(i)]), Exec(run + [Die(i)] + more);
            && s'.wallet == s.wallet && s'.pipe == s.pipe && s'.transfers.db == s.transfers.db
            && i < |s''.transfers.sagas| && s''.transfers.sagas[i] == s.transfers.sagas[i].(dead := true)
    decreases |more|
  {
    hide Exec, Act;
    if more == [] {
      OneMore(run, Die(i));
      assert run + [Die(i)] + more == run + [Die(i)];
      Dies(Exec(run), i);
    } else {
      var init, last := more[..|more| - 1], more[|more| - 1];
      DeadForGood(run, i, init);
      OneMore(run + [Die(i)] + init, last);
      assert run + [Die(i)] + more == run + [Die(i)] + init + [last];
      DeadCallRests(Exec(run + [Die(i)] + init), i, last);
    }
  }

  lemma Dies(s: Sys, i: nat)
    requires Live(s.transfers, i)
    ensures Act(s, Die(i)) == s.(transfers := s.transfers.(
                sagas := s.transfers.sagas[i := s.transfers.sagas[i].(dead := true)]))
  {
  }
}
