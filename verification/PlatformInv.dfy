/**
  What holds of the platform in every reachable state, and that every action keeps it.
 */
module PlatformInv {
  import opened Wrappers
  import opened Keys
  import L = Ledger
  import WS = WalletStore
  import C = WalletCalls
  import W = WalletRuns
  import opened WalletClient
  import T = TransferStore
  import S = Saga
  import O = Outbox
  import R = OutboxRuns
  import N = Notification
  import opened Platform

  /******* The wallet *******/

  // A call's id tells its key: legs are made by the transfer service alone, once each.
  ghost predicate IdsMatch(calls: map<W.CallId, C.Call>) {
    forall id :: id in calls ==>
      match id
      case External(_) => calls[id].req.key.Named?
      case LegCall(t, leg) => calls[id].req.key == LegKey(t, leg)
  }

  ghost predicate Stems(w: W.Sys, e: L.Entry) {
    e.key.LegKey? ==>
      var id := W.LegCall(e.key.transfer, e.key.leg);
      id in w.calls && C.Acceptable(w.calls[id].req) && e == C.NewEntry(w.calls[id].req, e.id)
  }

  // Every leg's entry is what its one call asked for.
  ghost predicate Origins(w: W.Sys) {
    forall i :: 0 <= i < |w.db.ledger| ==> Stems(w, w.db.ledger[i])
  }

  ghost predicate WalletOk(w: W.Sys) {
    W.Inv(w) && IdsMatch(w.calls) && Origins(w)
  }

  // The ledger extends, and the same legs are on record with the same requests.
  ghost predicate WalletGrows(w: W.Sys, w': W.Sys) {
    && w.db.ledger <= w'.db.ledger
    && forall t, leg :: (W.LegCall(t, leg) in w.calls <==> W.LegCall(t, leg) in w'.calls)
                        && (W.LegCall(t, leg) in w.calls ==>
                            w'.calls[W.LegCall(t, leg)].req == w.calls[W.LegCall(t, leg)].req)
  }

  lemma AppendedStems(w: W.Sys, id: W.CallId, choice: C.Choice)
    requires WalletOk(w) && id in w.calls
    ensures var (db', c') := C.Step(w.db, w.calls[id], choice);
            db' != w.db ==> db'.ledger == w.db.ledger + [w.calls[id].pc.entry]
                            && w.calls[id].pc.entry == C.NewEntry(w.calls[id].req, w.calls[id].pc.entry.id)
                            && C.Acceptable(w.calls[id].req)
  {
  }

  lemma AdvanceKeepsOrigins(w: W.Sys, id: W.CallId, choice: C.Choice)
    requires WalletOk(w) && id in w.calls
    ensures var w' := W.Act(w, W.Advance(id, choice));
            IdsMatch(w'.calls) && Origins(w') && WalletGrows(w, w')
  {
    hide W.Inv, C.Knows;
    var w' := W.Act(w, W.Advance(id, choice));
    C.StepKeepsRequest(w.db, w.calls[id], choice);
    AppendedStems(w, id, choice);
    AdvanceLedger(w, id, choice);
    hide C.Step;
    forall i | 0 <= i < |w'.db.ledger|
      ensures Stems(w', w'.db.ledger[i])
    {
      if i < |w.db.ledger| {
        assert Stems(w, w.db.ledger[i]);
      }
    }
  }

  lemma AdvanceLedger(w: W.Sys, id: W.CallId, choice: C.Choice)
    requires id in w.calls
    ensures C.Step(w.db, w.calls[id], choice).0 == w.db
         || w.db.ledger <= C.Step(w.db, w.calls[id], choice).0.ledger
  {
  }

  lemma ExternalArrivalOk(w: W.Sys, id: W.CallId, req: C.Request)
    requires IdsMatch(w.calls) && Origins(w) && External(W.Arrive(id, req))
    ensures var w' := W.Act(w, W.Arrive(id, req));
            IdsMatch(w'.calls) && Origins(w') && WalletGrows(w, w')
  {
  }

  lemma KillOk(w: W.Sys, id: W.CallId)
    requires IdsMatch(w.calls) && Origins(w)
    ensures var w' := W.Act(w, W.Kill(id));
            IdsMatch(w'.calls) && Origins(w') && WalletGrows(w, w')
  {
  }

  lemma OpenWalletOk(w: W.Sys, x: L.WalletId)
    requires IdsMatch(w.calls) && Origins(w)
    ensures var w' := W.Act(w, W.OpenWallet(x));
            IdsMatch(w'.calls) && Origins(w') && WalletGrows(w, w')
  {
  }

  // Any step of the wallet but a new leg's arrival.
  lemma WalletActOk(w: W.Sys, a: W.Action)
    requires WalletOk(w) && External(a)
    ensures WalletOk(W.Act(w, a)) && WalletGrows(w, W.Act(w, a))
  {
    hide W.Inv, W.Act, IdsMatch, Origins, WalletGrows;
    W.ActKeepsInv(w, a);
    match a {
      case OpenWallet(x) => OpenWalletOk(w, x);
      case Arrive(id, req) => ExternalArrivalOk(w, id, req);
      case Advance(id, choice) =>
        if id in w.calls {
          AdvanceKeepsOrigins(w, id, choice);
        } else {
          IdleAdvance(w, id, choice);
        }
      case Kill(id) => KillOk(w, id);
    }
  }

  lemma IdleAdvance(w: W.Sys, id: W.CallId, choice: C.Choice)
    requires IdsMatch(w.calls) && Origins(w) && id !in w.calls
    ensures var w' := W.Act(w, W.Advance(id, choice));
            IdsMatch(w'.calls) && Origins(w') && WalletGrows(w, w')
  {
  }

  lemma SameOrigins(w: W.Sys, w': W.Sys)
    requires Origins(w) && w'.db.ledger == w.db.ledger
    requires forall id :: id in w.calls ==> id in w'.calls && w'.calls[id].req == w.calls[id].req
    ensures Origins(w')
  {
  }

  lemma LegArrivesOk(w: W.Sys, t: TransferId, leg: Leg, req: C.Request)
    requires WalletOk(w) && W.LegCall(t, leg) !in w.calls && req.key == LegKey(t, leg)
    ensures var w' := W.Act(w, W.Arrive(W.LegCall(t, leg), req));
            && WalletOk(w')
            && w'.db == w.db
            && w'.calls == w.calls[W.LegCall(t, leg) := C.Begin(req)]
            && w'.calls[W.LegCall(t, leg)].req == req
  {
    hide W.Inv;
    W.ActKeepsInv(w, W.Arrive(W.LegCall(t, leg), req));
    SameOrigins(w, W.Act(w, W.Arrive(W.LegCall(t, leg), req)));
  }

  lemma SuccessMeansEntry(w: W.Sys, id: W.CallId)
    requires WalletOk(w) && id in w.calls
    requires w.calls[id].pc.Done? && w.calls[id].pc.outcome.Succeeded?
    ensures WS.HasKey(w.db.ledger, w.calls[id].req.key)
  {
  }

  /******* The Create calls *******/

  ghost predicate Called(w: W.Sys, t: TransferId, leg: Leg) {
    W.LegCall(t, leg) in w.calls
  }

  predicate Applied(calls: map<W.CallId, C.Call>, id: W.CallId) {
    id in calls && calls[id].pc.Done? && calls[id].pc.outcome.Succeeded?
  }

  ghost predicate Booked(w: W.Sys, t: TransferId, leg: Leg) {
    WS.HasKey(w.db.ledger, LegKey(t, leg))
  }

  // Which legs an attempt has called, and which of them it knows to be in the ledger.
  ghost predicate LegFacts(w: W.Sys, s: S.Saga, issued: bool)
    requires s.tr.Some?
  {
    var t := s.tr.value.id;
    && (!s.pc.Finished? ==> s.repaid.None?)
    && match s.pc
       case Debiting => (Called(w, t, DebitLeg) <==> issued) && !Called(w, t, CreditLeg) && !Called(w, t, CompensateLeg)
       case Crediting => Booked(w, t, DebitLeg) && (Called(w, t, CreditLeg) <==> issued) && !Called(w, t, CompensateLeg)
       case Compensating(e) =>
         && Booked(w, t, DebitLeg)
         && (e == CircuitOpen ==> !Called(w, t, CreditLeg))
         && (Called(w, t, CompensateLeg) <==> issued)
       case Inserting => Booked(w, t, DebitLeg) && Booked(w, t, CreditLeg) && !Called(w, t, CompensateLeg)
       case Filling => Booked(w, t, DebitLeg) && Booked(w, t, CreditLeg) && !Called(w, t, CompensateLeg)
       case Finished(Ok(_)) =>
         s.repaid.None? && Booked(w, t, DebitLeg) && Booked(w, t, CreditLeg) && !Called(w, t, CompensateLeg)
       case Finished(Err(_)) =>
         && (s.repaid.Some? ==> Booked(w, t, DebitLeg))
         && (s.repaid.None? ==> !Called(w, t, CompensateLeg))
         && (s.repaid == Some(true) ==> Booked(w, t, CompensateLeg))
       case _ => false
  }

  // What a call has learned from the transfer database stays true.
  ghost predicate RowFacts(rows: seq<T.Transfer>, s: S.Saga) {
    match s.pc
    case Loading(id) => T.ById(rows, id).Some? && T.ById(rows, id).value.key == s.req.key
    case FillingReplay(found) => found in rows && found.key == s.req.key
    case Filling => s.tr.Some? && S.Complete(s.tr.value) in rows
    case Finished(Ok(result)) =>
      && result.transfer in rows && result.transfer.key == s.req.key
      && (result.replay <==> s.tr.None?)
      && (s.tr.Some? ==> result.transfer == S.Complete(s.tr.value))
    case _ => true
  }

  ghost predicate Made(owner: map<TransferId, nat>, s: S.Saga, i: nat)
    requires s.tr.Some?
  {
    var tr := s.tr.value;
    && tr.id in owner && owner[tr.id] == i && tr.id != ""
    && S.AsRequested(s.req, tr) && tr.status == T.Pending
  }

  ghost predicate Unattempted(s: S.Saga) {
    s.repaid.None? && (s.pc.AskingCache? || s.pc.Loading? || s.pc.AskingRow? || s.pc.FillingReplay? || s.pc.Finished?)
  }

  ghost predicate SagaOk(w: W.Sys, rows: seq<T.Transfer>, owner: map<TransferId, nat>, r: Running, i: nat) {
    && RowFacts(rows, r.saga)
    && (r.saga.tr.None? ==> Unattempted(r.saga))
    && (r.saga.tr.Some? ==> Made(owner, r.saga, i) && LegFacts(w, r.saga, r.issued))
    && (r.issued ==> r.saga.tr.Some? && S.LegOf(r.saga.pc).Some?)
  }

  // An owner has made the transfer it owns.
  ghost predicate OwnersOk(sagas: seq<Running>, owner: map<TransferId, nat>) {
    forall t :: t in owner ==>
      owner[t] < |sagas| && sagas[owner[t]].saga.tr.Some? && sagas[owner[t]].saga.tr.value.id == t
  }

  // A leg is called by the owner of its transfer, with that transfer's request.
  ghost predicate LegsOk(calls: map<W.CallId, C.Call>, sagas: seq<Running>, owner: map<TransferId, nat>) {
    forall t, leg :: W.LegCall(t, leg) in calls ==>
      && t in owner && owner[t] < |sagas| && sagas[owner[t]].saga.tr.Some?
      && calls[W.LegCall(t, leg)].req == S.LegRequest(sagas[owner[t]].saga.tr.value, leg)
  }

  // A row is the completed transfer of its owner, with both legs in the ledger.
  ghost predicate RowOk(w: W.Sys, sagas: seq<Running>, owner: map<TransferId, nat>, row: T.Transfer) {
    && row.id in owner && owner[row.id] < |sagas|
    && sagas[owner[row.id]].saga.tr.Some?
    && row == S.Complete(sagas[owner[row.id]].saga.tr.value)
    && Booked(w, row.id, DebitLeg) && Booked(w, row.id, CreditLeg)
  }

  ghost predicate RowsOk(w: W.Sys, rows: seq<T.Transfer>, sagas: seq<Running>, owner: map<TransferId, nat>) {
    forall i :: 0 <= i < |rows| ==> RowOk(w, sagas, owner, rows[i])
  }

  ghost predicate SagasOk(w: W.Sys, t: Transfers) {
    && OwnersOk(t.sagas, t.owner)
    && LegsOk(w.calls, t.sagas, t.owner)
    && RowsOk(w, t.db.rows, t.sagas, t.owner)
    && (forall i :: 0 <= i < |t.sagas| ==> SagaOk(w, t.db.rows, t.owner, t.sagas[i], i))
  }

  ghost predicate StoresOk(t: Transfers) {
    T.Consistent(t.db) && T.Truthful(t.cache, t.db.rows)
  }

  lemma BookedIsStable(w: W.Sys, w': W.Sys, t: TransferId, leg: Leg)
    requires w.db.ledger <= w'.db.ledger && Booked(w, t, leg)
    ensures Booked(w', t, leg)
  {
  }

  // The same legs of this transfer are on record.
  ghost predicate SameCalled(w: W.Sys, w': W.Sys, t: TransferId) {
    && w.db.ledger <= w'.db.ledger
    && forall leg :: Called(w, t, leg) <==> Called(w', t, leg)
  }

  lemma LegFactsStable(w: W.Sys, w': W.Sys, s: S.Saga, issued: bool)
    requires s.tr.Some? && LegFacts(w, s, issued) && SameCalled(w, w', s.tr.value.id)
    ensures LegFacts(w', s, issued)
  {
  }

  lemma RowFactsStable(rows: seq<T.Transfer>, rows': seq<T.Transfer>, s: S.Saga)
    requires RowFacts(rows, s) && rows <= rows'
    ensures RowFacts(rows', s)
  {
    if s.pc.Loading? {
      T.ByIdIsStable(rows, rows', s.pc.id);
    }
    assert forall x :: x in rows ==> x in rows';
  }

  lemma SagaOkStable(w: W.Sys, w': W.Sys, rows: seq<T.Transfer>, rows': seq<T.Transfer>,
                     owner: map<TransferId, nat>, owner': map<TransferId, nat>, r: Running, i: nat)
    requires SagaOk(w, rows, owner, r, i) && rows <= rows'
    requires r.saga.tr.Some? ==> SameCalled(w, w', r.saga.tr.value.id)
    requires forall t :: t in owner ==> t in owner' && owner'[t] == owner[t]
    ensures SagaOk(w', rows', owner', r, i)
  {
    hide LegFacts, RowFacts, SameCalled;
    RowFactsStable(rows, rows', r.saga);
    if r.saga.tr.Some? {
      LegFactsStable(w, w', r.saga, r.issued);
    }
  }

  lemma RowOkStable(w: W.Sys, w': W.Sys, sagas: seq<Running>, sagas': seq<Running>,
                    owner: map<TransferId, nat>, owner': map<TransferId, nat>, row: T.Transfer)
    requires RowOk(w, sagas, owner, row) && w.db.ledger <= w'.db.ledger
    requires row.id in owner' && owner'[row.id] == owner[row.id]
    requires owner[row.id] < |sagas'| && sagas'[owner[row.id]].saga.tr == sagas[owner[row.id]].saga.tr
    ensures RowOk(w', sagas', owner', row)
  {
  }

  // The wallet moves on without a new leg.
  lemma WalletGrowthKeepsSagas(w: W.Sys, w': W.Sys, t: Transfers)
    requires SagasOk(w, t) && WalletGrows(w, w')
    ensures SagasOk(w', t)
  {
    hide LegFacts, RowFacts, RowOk, SagaOk, SameCalled, Called;
    forall i | 0 <= i < |t.sagas|
      ensures SagaOk(w', t.db.rows, t.owner, t.sagas[i], i)
    {
      forall id ensures SameCalled(w, w', id) { GrowthSameCalled(w, w', id); }
      SagaOkStable(w, w', t.db.rows, t.db.rows, t.owner, t.owner, t.sagas[i], i);
    }
    forall i | 0 <= i < |t.db.rows|
      ensures RowOk(w', t.sagas, t.owner, t.db.rows[i])
    {
      assert RowOk(w, t.sagas, t.owner, t.db.rows[i]);
      RowOkOwned(w, t.sagas, t.owner, t.db.rows[i]);
      RowOkStable(w, w', t.sagas, t.sagas, t.owner, t.owner, t.db.rows[i]);
    }
    GrowthKeepsLegs(w, w', t);
  }

  lemma GrowthSameCalled(w: W.Sys, w': W.Sys, t: TransferId)
    requires WalletGrows(w, w')
    ensures SameCalled(w, w', t)
  {
  }

  lemma RowOkOwned(w: W.Sys, sagas: seq<Running>, owner: map<TransferId, nat>, row: T.Transfer)
    requires RowOk(w, sagas, owner, row)
    ensures row.id in owner && owner[row.id] < |sagas|
  {
  }

  lemma GrowthKeepsLegs(w: W.Sys, w': W.Sys, t: Transfers)
    requires LegsOk(w.calls, t.sagas, t.owner) && WalletGrows(w, w')
    ensures LegsOk(w'.calls, t.sagas, t.owner)
  {
  }

  // One Create call moves, keeping the transfer it may have made; the wallet may have gained
  // one leg of that transfer, and the rows may have grown by sound ones.
  ghost predicate Moves(w: W.Sys, w': W.Sys, t: Transfers, t': Transfers, i: nat) {
    && i < |t.sagas| && |t'.sagas| == |t.sagas|
    && (forall j :: 0 <= j < |t.sagas| && j != i ==> t'.sagas[j] == t.sagas[j])
    && t'.sagas[i].saga.tr == t.sagas[i].saga.tr
    && t'.owner == t.owner
    && t.db.rows <= t'.db.rows
    && w.db.ledger <= w'.db.ledger
  }

  // No leg but those of transfer id has been added.
  ghost predicate OtherLegsSame(w: W.Sys, w': W.Sys, i: nat, owner: map<TransferId, nat>) {
    forall t :: !(t in owner && owner[t] == i) ==> SameCalled(w, w', t)
  }

  lemma MoveKeepsSagas(w: W.Sys, w': W.Sys, t: Transfers, t': Transfers, i: nat)
    requires SagasOk(w, t) && Moves(w, w', t, t', i)
    requires OtherLegsSame(w, w', i, t.owner)
    requires LegsOk(w'.calls, t'.sagas, t'.owner)
    requires SagaOk(w', t'.db.rows, t'.owner, t'.sagas[i], i)
    requires RowsOk(w', t'.db.rows, t'.sagas, t'.owner)
    ensures SagasOk(w', t')
  {
    hide LegFacts, RowFacts, RowOk, RowsOk, LegsOk, SameCalled;
    forall j | 0 <= j < |t'.sagas|
      ensures SagaOk(w', t'.db.rows, t'.owner, t'.sagas[j], j)
    {
      if j != i {
        assert SagaOk(w, t.db.rows, t.owner, t.sagas[j], j);
        if t.sagas[j].saga.tr.Some? {
          assert SameCalled(w, w', t.sagas[j].saga.tr.value.id);
        }
        SagaOkStable(w, w', t.db.rows, t'.db.rows, t.owner, t'.owner, t.sagas[j], j);
      }
    }
  }

  lemma MoveKeepsRows(w: W.Sys, w': W.Sys, t: Transfers, t': Transfers, i: nat)
    requires SagasOk(w, t) && Moves(w, w', t, t', i) && t'.db.rows == t.db.rows
    ensures RowsOk(w', t'.db.rows, t'.sagas, t'.owner)
  {
  }

  lemma MoveKeepsLegs(w: W.Sys, w': W.Sys, t: Transfers, t': Transfers, i: nat)
    requires LegsOk(w.calls, t.sagas, t.owner) && Moves(w, w', t, t', i) && WalletGrows(w, w')
    ensures LegsOk(w'.calls, t'.sagas, t'.owner)
    ensures OtherLegsSame(w, w', i, t.owner)
  {
  }

  // The common case: the wallet moves without a new leg, the rows stay.
  lemma QuietMoveKeepsSagas(w: W.Sys, w': W.Sys, t: Transfers, t': Transfers, i: nat)
    requires SagasOk(w, t) && Moves(w, w', t, t', i) && WalletGrows(w, w') && t'.db.rows == t.db.rows
    requires SagaOk(w', t'.db.rows, t'.owner, t'.sagas[i], i)
    ensures SagasOk(w', t')
  {
    hide SagaOk, RowOk, WalletGrows;
    MoveKeepsLegs(w, w', t, t', i);
    MoveKeepsRows(w, w', t, t', i);
    MoveKeepsSagas(w, w', t, t', i);
  }

  lemma WalletGrowsReflexive(w: W.Sys)
    ensures WalletGrows(w, w)
  {
  }

  /******* Outbox, topics and notifications *******/

  function LineOf(s: Sys): R.Line {
    R.Line(s.transfers.db.outbox, s.pipe.primary, s.pipe.dlq)
  }

  ghost predicate InTopic(log: seq<O.Message>, id: string) {
    exists i :: 0 <= i < |log| && log[i].key == id
  }

  // A notification carries the key and the payload of a message of the topic.
  ghost predicate NoteFrom(log: seq<O.Message>, note: N.Note) {
    exists i :: 0 <= i < |log| && log[i].value.Json? && note == N.NoteOf(log[i].key, log[i].value.event)
  }

  ghost predicate ConsumerOk(log: seq<O.Message>, inbox: N.Inbox, pc: ConsumerPc) {
    match pc
    case Polling => true
    case Claiming(m) => m in log
    case Saving(m) => m in log && m.key in inbox.claimed && m.value.Json?
  }

  ghost predicate InboxOk(log: seq<O.Message>, inbox: N.Inbox) {
    && N.NotesInv(inbox)
    && (forall id :: id in inbox.claimed ==> InTopic(log, id))
    && (forall n :: 0 <= n < |inbox.notes| ==> NoteFrom(log, inbox.notes[n]))
  }

  ghost predicate PipeOk(l: R.Line, p: Pipe) {
    && l.primary == p.primary && l.dlq == p.dlq
    && R.LineInv(l)
    && (forall w :: w in p.workers ==> R.WorkerInv(l, p.workers[w]))
    && InboxOk(p.primary, p.inbox)
    && (forall c :: c in p.consumers ==> ConsumerOk(p.primary, p.inbox, p.consumers[c]))
  }

  lemma InboxOkStable(log: seq<O.Message>, log': seq<O.Message>, inbox: N.Inbox)
    requires InboxOk(log, inbox) && log <= log'
    ensures InboxOk(log', inbox)
  {
  }

  // Workers, topics and outbox move on.
  lemma LineGrowthKeepsPipe(l: R.Line, l': R.Line, p: Pipe, p': Pipe)
    requires PipeOk(l, p) && R.LineGrows(l, l') && R.LineInv(l')
    requires l'.primary == p'.primary && l'.dlq == p'.dlq && p'.inbox == p.inbox && p'.consumers == p.consumers
    requires forall w :: w in p'.workers ==>
               (w in p.workers && p'.workers[w] == p.workers[w]) || R.WorkerInv(l', p'.workers[w])
    ensures PipeOk(l', p')
  {
    InboxOkStable(l.primary, l'.primary, p.inbox);
    forall w | w in p'.workers
      ensures R.WorkerInv(l', p'.workers[w])
    {
      if w in p.workers && p'.workers[w] == p.workers[w] {
        R.WorkerInvIsStable(l, l', p.workers[w]);
      }
    }
    assert forall m :: m in l.primary ==> m in l'.primary;
    hide R.LineInv, R.WorkerInv, InboxOk;
  }

  lemma ClaimKeepsInbox(log: seq<O.Message>, inbox: N.Inbox, m: O.Message, fault: T.Fault)
    requires InboxOk(log, inbox) && m in log
    ensures InboxOk(log, N.TryClaim(inbox, m.key, fault).0)
    ensures N.TryClaim(inbox, m.key, fault).1 == Some(true) ==> m.key in N.TryClaim(inbox, m.key, fault).0.claimed
    ensures inbox.claimed <= N.TryClaim(inbox, m.key, fault).0.claimed
  {
  }

  lemma SaveKeepsInbox(log: seq<O.Message>, inbox: N.Inbox, m: O.Message, fault: T.Fault)
    requires InboxOk(log, inbox) && m in log && m.key in inbox.claimed && m.value.Json?
    ensures InboxOk(log, N.Save(inbox, N.NoteOf(m.key, m.value.event), fault).0)
    ensures inbox.claimed == N.Save(inbox, N.NoteOf(m.key, m.value.event), fault).0.claimed
  {
  }

  lemma ConsumerStepKeeps(l: R.Line, p: Pipe, pc: ConsumerPc, a: ConsumerAction)
    requires PipeOk(l, p) && ConsumerOk(p.primary, p.inbox, pc)
    ensures var (inbox, pc') := ConsumerStep(p, pc, a);
            InboxOk(p.primary, inbox) && ConsumerOk(p.primary, inbox, pc') && p.inbox.claimed <= inbox.claimed
  {
    hide R.LineInv, R.WorkerInv, InboxOk, N.TryClaim, N.Save;
    match (pc, a) {
      case (Claiming(m), Claim(fault)) => ClaimKeepsInbox(p.primary, p.inbox, m, fault);
      case (Saving(m), Save(fault)) => SaveKeepsInbox(p.primary, p.inbox, m, fault);
      case (_, _) =>
    }
  }

  /******* All together *******/

  ghost predicate Inv(s: Sys) {
    && WalletOk(s.wallet)
    && SagasOk(s.wallet, s.transfers)
    && StoresOk(s.transfers)
    && PipeOk(LineOf(s), s.pipe)
  }
}
