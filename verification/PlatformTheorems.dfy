/**
  What holds in every run of the platform, whatever fails, dies, is lost, delivered twice or
  overtaken: identity per idempotency key, the cache, rows and events, and the cause of
  every notification.
 */
module PlatformTheorems {
  import opened Wrappers
  import opened Keys
  import L = Ledger
  import W = WalletRuns
  import opened WalletClient
  import T = TransferStore
  import S = Saga
  import O = Outbox
  import R = OutboxRuns
  import N = Notification
  import opened Platform
  import opened PlatformInv
  import opened PlatformSteps

  predicate FinishedWell(s: Sys, i: nat) {
    i < |s.transfers.sagas| && s.transfers.sagas[i].saga.pc.Finished? && s.transfers.sagas[i].saga.pc.result.Ok?
  }

  function ResultOf(s: Sys, i: nat): T.Transfer
    requires FinishedWell(s, i)
  {
    s.transfers.sagas[i].saga.pc.result.value.transfer
  }

  // A successful Create names the one row stored under its key.
  lemma SuccessNamesTheRow(run: seq<Action>, i: nat)
    requires FinishedWell(Exec(run), i)
    ensures var s := Exec(run);
            T.ByKey(s.transfers.db.rows, s.transfers.sagas[i].saga.req.key) == Some(ResultOf(s, i))
  {
    hide Exec, WalletOk, LegFacts, PipeOk;
    InvHolds(run);
    var s := Exec(run);
    OneSaga(s, i);
    S.RowIsFound(s.transfers.db.rows, ResultOf(s, i));
  }

  // Any two successful Create calls with one key return the same transfer.
  lemma OneTransferPerKey(run: seq<Action>, i: nat, j: nat)
    requires FinishedWell(Exec(run), i) && FinishedWell(Exec(run), j)
    requires Exec(run).transfers.sagas[i].saga.req.key == Exec(run).transfers.sagas[j].saga.req.key
    ensures ResultOf(Exec(run), i) == ResultOf(Exec(run), j)
  {
    hide Exec;
    SuccessNamesTheRow(run, i);
    SuccessNamesTheRow(run, j);
  }

  /******* A call that looks up late moves no money *******/

  lemma ActGrowsRows(s: Sys, a: Action)
    requires Inv(s)
    ensures s.transfers.db.rows <= Act(s, a).transfers.db.rows
    ensures T.OutboxGrows(s.transfers.db.outbox, Act(s, a).transfers.db.outbox)
  {
    match a {
      case InsertAnswers(i, eventId, at, fault) =>
        if Live(s.transfers, i) && s.transfers.sagas[i].saga.pc.Inserting? && s.transfers.sagas[i].saga.tr.Some? {
          hide WalletOk, SagasOk, PipeOk, InsertRow;
          InsertKeeps(s, i, eventId, at, fault);
        }
      case Work(w, work) =>
        hide WalletOk, SagasOk, StoresOk, R.LineInv, R.WorkerInv;
        WorkGrowsOutbox(s, w, work);
      case _ => hide Inv, IssueLeg, EndLeg, W.Act, S.On; OthersLeaveTheDb(s, a);
    }
  }

  lemma WorkGrowsOutbox(s: Sys, w: nat, a: R.Action)
    requires PipeOk(LineOf(s), s.pipe)
    ensures T.OutboxGrows(s.transfers.db.outbox, WorkerActs(s, w, a).transfers.db.outbox)
    ensures WorkerActs(s, w, a).transfers.db.rows == s.transfers.db.rows
  {
    var pc := if w in s.pipe.workers then s.pipe.workers[w] else R.Idle;
    assert R.LineInv(LineOf(s)) && R.WorkerInv(LineOf(s), pc);
    R.StepKeepsInv(LineOf(s), pc, a);
    hide R.Step, R.LineInv, R.WorkerInv;
  }

  lemma OthersLeaveTheDb(s: Sys, a: Action)
    requires !a.InsertAnswers? && !a.Work?
    ensures Act(s, a).transfers.db == s.transfers.db
  {
    hide S.On, W.Act, S.LegRequest, Signals, ConsumerStep;
  }

  // Call i has no transfer of its own and there is a row under its key.
  ghost predicate Late(s: Sys, i: nat, key: string) {
    && i < |s.transfers.sagas|
    && s.transfers.sagas[i].saga.tr.None? && s.transfers.sagas[i].saga.req.key == key
    && T.ByKey(s.transfers.db.rows, key).Some?
  }

  lemma HearStaysLate(s: Sys, i: nat, j: nat, a: S.Answer)
    requires i < |s.transfers.sagas| && j < |s.transfers.sagas|
    requires i == j ==> !(s.transfers.sagas[i].saga.pc.AskingRow? && a.RowSaid? && a.found == Ok(None))
    ensures StaysLate(s, Hear(s, j, a), i)
  {
  }

  lemma HearRowStaysLate(s: Sys, i: nat, j: nat, down: bool, id: TransferId, key: string)
    requires Late(s, i, key) && j < |s.transfers.sagas| && s.transfers.sagas[j].saga.pc.AskingRow?
    ensures StaysLate(s, HearRow(s, j, down, id), i)
  {
  }

  // Call i is as late in s' as it was in s, as far as the call itself goes.
  ghost predicate StaysLate(s: Sys, s': Sys, i: nat) {
    i < |s.transfers.sagas| <= |s'.transfers.sagas|
    && s'.transfers.sagas[i].saga.tr == s.transfers.sagas[i].saga.tr
    && s'.transfers.sagas[i].saga.req == s.transfers.sagas[i].saga.req
  }

  lemma LookupStaysLate(s: Sys, a: Action, i: nat, key: string)
    requires Late(s, i, key) && (a.CacheAnswers? || a.LoadAnswers? || a.RowAnswers? || a.CacheFills?)
    ensures StaysLate(s, Act(s, a), i)
  {
    hide S.On, T.ByKey;
    match a {
      case CacheAnswers(j, down) => if Live(s.transfers, j) { HearStaysLate(s, i, j, CacheAnswer(s, j, down)); }
      case LoadAnswers(j, down) =>
        if Live(s.transfers, j) && s.transfers.sagas[j].saga.pc.Loading? {
          HearStaysLate(s, i, j, LoadAnswer(s, s.transfers.sagas[j].saga.pc.id, down));
        }
      case RowAnswers(j, down, id) =>
        if Live(s.transfers, j) && s.transfers.sagas[j].saga.pc.AskingRow? { HearRowStaysLate(s, i, j, down, id, key); }
      case CacheFills(j, _) => if Live(s.transfers, j) { HearStaysLate(s, i, j, S.CacheFilled); }
    }
  }

  lemma IssueStaysLate(s: Sys, i: nat, j: nat, now: nat)
    requires AtLeg(s.transfers, j) && i < |s.transfers.sagas|
    ensures StaysLate(s, IssueLeg(s, j, now), i)
  {
    HearStaysLate(s, i, j, S.WalletSaid(Some(CircuitOpen)));
    hide S.On, W.Act, S.LegRequest;
  }

  lemma SagaStaysLate(s: Sys, a: Action, i: nat, key: string)
    requires Late(s, i, key)
    ensures StaysLate(s, Act(s, a), i)
  {
    hide IssueLeg, EndLeg, InsertRow, HearRow, Fill, W.Act, ConsumerStep, R.Step, T.ByKey, MayEnd;
    match a {
      case CacheAnswers(_, _) => LookupStaysLate(s, a, i, key);
      case LoadAnswers(_, _) => LookupStaysLate(s, a, i, key);
      case RowAnswers(_, _, _) => LookupStaysLate(s, a, i, key);
      case CacheFills(_, _) => LookupStaysLate(s, a, i, key);
      case Issue(j, now) => if AtLeg(s.transfers, j) { IssueStaysLate(s, i, j, now); }
      case End(j, ending, now) => if MayEnd(s, j, ending) { EndStaysLate(s, i, j, ending, now); }
      case InsertAnswers(j, eventId, at, fault) =>
        if Live(s.transfers, j) && s.transfers.sagas[j].saga.tr.Some? { InsertStaysLate(s, i, j, eventId, at, fault); }
      case _ =>
    }
  }

  lemma EndStaysLate(s: Sys, i: nat, j: nat, ending: Ending, now: nat)
    requires i < |s.transfers.sagas| && MayEnd(s, j, ending)
    ensures StaysLate(s, EndLeg(s, j, ending, now), i)
  {
  }

  lemma InsertStaysLate(s: Sys, i: nat, j: nat, eventId: T.EventId, at: nat, fault: T.Fault)
    requires i < |s.transfers.sagas| && j < |s.transfers.sagas| && s.transfers.sagas[j].saga.tr.Some?
    ensures StaysLate(s, InsertRow(s, j, eventId, at, fault), i)
  {
  }

  lemma LateStep(s: Sys, a: Action, i: nat, key: string)
    requires Inv(s) && Late(s, i, key)
    ensures Late(Act(s, a), i, key)
  {
    SagaStaysLate(s, a, i, key);
    hide Inv, Act;
    ActGrowsRows(s, a);
    T.ByKeyIsStable(s.transfers.db.rows, Act(s, a).transfers.db.rows, key);
  }

  lemma {:induction false} LateForever(run: seq<Action>, more: seq<Action>, i: nat, key: string)
    requires Late(Exec(run), i, key)
    ensures Late(Exec(run + more), i, key)
    decreases |more|
  {
    hide Act, Late, Inv;
    if more == [] {
      assert run + more == run;
    } else {
      var init := more[..|more| - 1];
      LateForever(run, init, i, key);
      assert (run + more)[..|run + more| - 1] == run + init;
      InvHolds(run + init);
      LateStep(Exec(run + init), more[|more| - 1], i, key);
    }
  }

  // If the row is there before a call has looked it up, the call never has a leg of its own,
  // however the run goes on.
  lemma LateCallsMoveNoMoney(run: seq<Action>, more: seq<Action>, i: nat)
    requires i < |Exec(run).transfers.sagas|
    requires var pc := Exec(run).transfers.sagas[i].saga.pc; pc.AskingCache? || pc.Loading? || pc.AskingRow?
    requires T.ByKey(Exec(run).transfers.db.rows, Exec(run).transfers.sagas[i].saga.req.key).Some?
    ensures var s := Exec(run + more);
            && i < |s.transfers.sagas|
            && s.transfers.sagas[i].saga.tr.None?
            && forall t, leg :: W.LegCall(t, leg) in s.wallet.calls ==>
                 t in s.transfers.owner && s.transfers.owner[t] != i
  {
    hide Exec, Act, WalletOk, StoresOk, PipeOk, RowFacts;
    var s := Exec(run);
    InvHolds(run);
    OneSaga(s, i);
    LateForever(run, more, i, s.transfers.sagas[i].saga.req.key);
    InvHolds(run + more);
  }

  // What Create asks of a request; the currency may be left out.
  predicate WellFormed(req: S.CreateRequest) {
    && req.key != ""
    && req.from.Some? && req.to.Some? && req.user.Some?
    && req.from != req.to
    && req.amount > 0
  }

  // Until there is a row, nothing protects a key: a call that asks for the row makes a transfer
  // of its own, unlike any other, if and only if its request is well formed and there is none.
  lemma OwnTransferIffNoRow(run: seq<Action>, j: nat, id: TransferId)
    requires Live(Exec(run).transfers, j) && Exec(run).transfers.sagas[j].saga.pc.AskingRow?
    requires id != "" && id !in Exec(run).transfers.owner
    ensures var s, s' := Exec(run), Exec(run + [RowAnswers(j, false, id)]);
            var req := s.transfers.sagas[j].saga.req;
            && j < |s'.transfers.sagas|
            && (s'.transfers.sagas[j].saga.tr.Some? <==> WellFormed(req) && T.ByKey(s.transfers.db.rows, req.key).None?)
            && (s'.transfers.sagas[j].saga.tr.Some? ==>
                  && s'.transfers.sagas[j].saga.pc.Debiting?
                  && s'.transfers.sagas[j].saga.tr.value.id == id
                  && s'.transfers.sagas[j].saga.tr.value.key == req.key
                  && forall i :: 0 <= i < |s.transfers.sagas| && s.transfers.sagas[i].saga.tr.Some? ==>
                       s.transfers.sagas[i].saga.tr.value.id != id)
  {
    hide Act, Inv, SagaOk, T.ByKey;
    InvHolds(run);
    var s := Exec(run);
    assert (run + [RowAnswers(j, false, id)])[..|run|] == run;
    RowAnswersHears(s, j, id);
    hide HearRow;
    forall i | 0 <= i < |s.transfers.sagas| && s.transfers.sagas[i].saga.tr.Some?
      ensures s.transfers.sagas[i].saga.tr.value.id != id
    {
      IdIsOwned(s, i);
    }
    StillNoTransfer(s, j);
    AttemptIsHeard(s, j, id);
  }

  lemma RowAnswersHears(s: Sys, j: nat, id: TransferId)
    requires Live(s.transfers, j) && s.transfers.sagas[j].saga.pc.AskingRow?
    ensures Act(s, RowAnswers(j, false, id)) == HearRow(s, j, false, id)
  {
    hide HearRow;
  }

  lemma StillNoTransfer(s: Sys, j: nat)
    requires Inv(s) && j < |s.transfers.sagas| && s.transfers.sagas[j].saga.pc.AskingRow?
    ensures s.transfers.sagas[j].saga.tr.None?
  {
    hide WalletOk, StoresOk, PipeOk, SagaOk;
    NotAttempted(s.wallet, s.transfers, j);
  }

  lemma IdIsOwned(s: Sys, i: nat)
    requires Inv(s) && i < |s.transfers.sagas| && s.transfers.sagas[i].saga.tr.Some?
    ensures s.transfers.sagas[i].saga.tr.value.id in s.transfers.owner
  {
    hide WalletOk, StoresOk, PipeOk, SagaOk;
    OneSaga(s, i);
    MadeIsOwned(s.wallet, s.transfers.db.rows, s.transfers.owner, s.transfers.sagas[i], i);
  }

  lemma AttemptIsHeard(s: Sys, j: nat, id: TransferId)
    requires j < |s.transfers.sagas| && s.transfers.sagas[j].saga.pc.AskingRow? && s.transfers.sagas[j].saga.tr.None?
    requires id != "" && id !in s.transfers.owner
    ensures var req, saga' := s.transfers.sagas[j].saga.req, HearRow(s, j, false, id).transfers.sagas[j].saga;
            && |HearRow(s, j, false, id).transfers.sagas| == |s.transfers.sagas|
            && (saga'.tr.Some? <==> WellFormed(req) && T.ByKey(s.transfers.db.rows, req.key).None?)
            && (saga'.tr.Some? ==> saga'.pc.Debiting? && saga'.tr.value.id == id && saga'.tr.value.key == req.key)
  {
  }

  lemma MadeIsOwned(w: W.Sys, rows: seq<T.Transfer>, owner: map<TransferId, nat>, r: Running, i: nat)
    requires SagaOk(w, rows, owner, r, i) && r.saga.tr.Some?
    ensures r.saga.tr.value.id in owner
  {
  }

  /******* The cache *******/

  // Whatever part of the cache has survived, the lookup answers as it would without a cache.
  lemma CacheIsTransparent(run: seq<Action>, left: map<string, TransferId>, key: string)
    requires left.Keys <= Exec(run).transfers.cache.Keys
    requires forall k :: k in left ==> left[k] == Exec(run).transfers.cache[k]
    ensures T.LookUp(left, Exec(run).transfers.db.rows, key) == T.LookUp(map[], Exec(run).transfers.db.rows, key)
    ensures key in left ==>
              T.ById(Exec(run).transfers.db.rows, left[key]).Some?
              && T.ById(Exec(run).transfers.db.rows, left[key]).value.key == key
  {
    hide Exec, WalletOk, SagasOk, PipeOk;
    InvHolds(run);
    var t := Exec(run).transfers;
    assert T.Truthful(left, t.db.rows);
    T.LookUpIgnoresTruthfulCache(left, t.db.rows, key);
  }

  // A call that found its key in the cache, however long ago, is answered with the one row that
  // is stored under the key,
  lemma CachedReplayIsTheRow(run: seq<Action>, i: nat)
    requires Live(Exec(run).transfers, i) && Exec(run).transfers.sagas[i].saga.pc.Loading?
    ensures var s, s' := Exec(run), Exec(run + [LoadAnswers(i, false)]);
            var row := T.ByKey(s.transfers.db.rows, s.transfers.sagas[i].saga.req.key);
            && row.Some? && i < |s'.transfers.sagas|
            && s'.transfers.sagas[i].saga.pc == S.Finished(Ok(S.CreateResult(row.value, true)))
  {
    hide Exec, WalletOk, PipeOk, LegFacts;
    InvHolds(run);
    var s := Exec(run);
    OneSaga(s, i);
    hide SagasOk, T.Truthful;
    S.RowIsFound(s.transfers.db.rows, T.ById(s.transfers.db.rows, s.transfers.sagas[i].saga.pc.id).value);
    OneMore(run, LoadAnswers(i, false));
    hide T.Consistent, T.ById, T.ByKey;
  }

  // which is how a call that goes past the cache to the table is answered.
  lemma UncachedReplayIsTheRow(run: seq<Action>, i: nat, id: TransferId, stores: bool)
    requires Live(Exec(run).transfers, i) && Exec(run).transfers.sagas[i].saga.pc.AskingRow?
    requires T.ByKey(Exec(run).transfers.db.rows, Exec(run).transfers.sagas[i].saga.req.key).Some?
    ensures var s, s' := Exec(run), Exec(run + [RowAnswers(i, false, id)] + [CacheFills(i, stores)]);
            var row := T.ByKey(s.transfers.db.rows, s.transfers.sagas[i].saga.req.key);
            && i < |s'.transfers.sagas|
            && s'.transfers.sagas[i].saga.pc == S.Finished(Ok(S.CreateResult(row.value, true)))
  {
    hide Exec, Inv, T.ByKey;
    InvHolds(run);
    StillNoTransfer(Exec(run), i);
    OneMore(run, RowAnswers(i, false, id));
    OneMore(run + [RowAnswers(i, false, id)], CacheFills(i, stores));
    RowReplays(Exec(run), i, id, stores);
    hide Act;
  }

  lemma RowReplays(s: Sys, i: nat, id: TransferId, stores: bool)
    requires Live(s.transfers, i) && s.transfers.sagas[i].saga.pc.AskingRow? && s.transfers.sagas[i].saga.tr.None?
    requires T.ByKey(s.transfers.db.rows, s.transfers.sagas[i].saga.req.key).Some?
    ensures var s' := Act(Act(s, RowAnswers(i, false, id)), CacheFills(i, stores));
            && i < |s'.transfers.sagas|
            && s'.transfers.sagas[i].saga.pc
               == S.Finished(Ok(S.CreateResult(T.ByKey(s.transfers.db.rows, s.transfers.sagas[i].saga.req.key).value,
                   true)))
  {
    hide T.ByKey;
  }

  /******* Rows and events *******/

  // Row i and event i speak of the same completed transfer; ids, keys and events are distinct;
  // an event that was marked is in one of the two topics.
  lemma RowsAndEvents(run: seq<Action>)
    ensures var s := Exec(run);
            && T.Consistent(s.transfers.db)
            && O.Recorded(s.transfers.db.outbox, s.pipe.primary, s.pipe.dlq)
            && (forall m :: m in s.pipe.primary || m in s.pipe.dlq ==> R.FromRow(s.transfers.db.outbox, m))
            && (forall i :: 0 <= i < |s.transfers.db.rows| ==>
                  T.Announces(s.transfers.db.outbox[i].event, s.transfers.db.rows[i]))
  {
    hide Exec, WalletOk, SagasOk, R.WorkerInv, InboxOk;
    InvHolds(run);
    var s := Exec(run);
    assert R.LineInv(LineOf(s));
    forall i | 0 <= i < |s.transfers.db.rows|
      ensures T.Announces(s.transfers.db.outbox[i].event, s.transfers.db.rows[i])
    {
      assert T.Paired(s.transfers.db.rows[i], s.transfers.db.outbox[i]);
    }
  }

  /******* What was asked for *******/

  // A call that attempts a transfer attempts the one it was asked for.
  lemma AttemptIsTheRequested(run: seq<Action>, i: nat)
    requires i < |Exec(run).transfers.sagas| && Exec(run).transfers.sagas[i].saga.tr.Some?
    ensures var saga := Exec(run).transfers.sagas[i].saga;
            var req, tr := saga.req, saga.tr.value;
            && req.from == Some(tr.from) && req.to == Some(tr.to) && req.amount == tr.amount
                && req.user == Some(tr.user)
            && tr.currency == (if req.currency == "" then "RUB" else req.currency) && req.key == tr.key
  {
    hide Exec, WalletOk, StoresOk, PipeOk, LegFacts, RowFacts;
    InvHolds(run);
    OneSaga(Exec(run), i);
    hide SagasOk;
  }

  // The ledger holds a debit of the wallet that was to be debited and a credit of the one that
  // was to be credited, of the amount asked for.
  ghost predicate CarriedOut(ledger: seq<L.Entry>, req: S.CreateRequest, id: TransferId, d: nat, c: nat) {
    && d < |ledger| && c < |ledger|
    && ledger[d].typ == L.Debit && ledger[c].typ == L.Credit
    && req.from == Some(ledger[d].wallet) && req.to == Some(ledger[c].wallet)
    && ledger[d].amount == ledger[c].amount == req.amount
    && ledger[d].transfer == ledger[c].transfer == id
  }

  // A new transfer that Create has returned is the one it was asked for, and has been carried out.
  lemma NewTransferIsTheRequested(run: seq<Action>, i: nat)
    requires FinishedWell(Exec(run), i) && !Exec(run).transfers.sagas[i].saga.pc.result.value.replay
    ensures var s, req := Exec(run), Exec(run).transfers.sagas[i].saga.req;
            && S.AsRequested(req, ResultOf(s, i)) && ResultOf(s, i).status == T.Completed
            && exists d: nat, c: nat :: CarriedOut(s.wallet.db.ledger, req, ResultOf(s, i).id, d, c)
  {
    hide Exec, WalletOk, PipeOk, StoresOk, LegBooked;
    InvHolds(run);
    var s := Exec(run);
    var r := ResultRow(s, i);
    RowIsBooked(s, r);
    var d := RowHasLeg(s, r, DebitLeg);
    var c := RowHasLeg(s, r, CreditLeg);
    LegsCarryOut(s.wallet.db.ledger, s.transfers.db.rows[r], s.transfers.sagas[i].saga.req, d, c);
  }

  lemma ResultRow(s: Sys, i: nat) returns (r: nat)
    requires SagasOk(s.wallet, s.transfers) && FinishedWell(s, i) && !s.transfers.sagas[i].saga.pc.result.value.replay
    ensures r < |s.transfers.db.rows| && s.transfers.db.rows[r] == ResultOf(s, i)
    ensures S.AsRequested(s.transfers.sagas[i].saga.req, ResultOf(s, i)) && ResultOf(s, i).status == T.Completed
  {
    hide LegFacts;
    OneSaga(s, i);
    r :| 0 <= r < |s.transfers.db.rows| && s.transfers.db.rows[r] == ResultOf(s, i);
    hide SagasOk;
  }

  lemma LegsCarryOut(ledger: seq<L.Entry>, row: T.Transfer, req: S.CreateRequest, d: nat, c: nat)
    requires LegBooked(ledger, d, row, DebitLeg) && LegBooked(ledger, c, row, CreditLeg) && S.AsRequested(req, row)
    ensures CarriedOut(ledger, req, row.id, d, c)
  {
  }

  // Neither is ever taken back: an unmarked event stays where FetchUnpublished looks for it.
  lemma {:induction false} NothingIsLost(run: seq<Action>, more: seq<Action>)
    ensures Exec(run).transfers.db.rows <= Exec(run + more).transfers.db.rows
    ensures T.OutboxGrows(Exec(run).transfers.db.outbox, Exec(run + more).transfers.db.outbox)
    decreases |more|
  {
    hide Act, Exec;
    if more == [] {
      assert run + more == run;
    } else {
      var init := more[..|more| - 1];
      NothingIsLost(run, init);
      assert run + more == run + init + [more[|more| - 1]];
      OneMore(run + init, more[|more| - 1]);
      InvHolds(run + init);
      hide Inv;
      ActGrowsRows(Exec(run + init), more[|more| - 1]);
    }
  }

  /******* The cause of a notification *******/

  ghost predicate LegBooked(ledger: seq<L.Entry>, d: int, row: T.Transfer, leg: Leg) {
    && 0 <= d < |ledger|
    && ledger[d].key == LegKey(row.id, leg) && ledger[d].transfer == row.id && ledger[d].amount == row.amount
    && ledger[d].typ == (if leg == DebitLeg then L.Debit else L.Credit)
    && ledger[d].wallet == (if leg == CreditLeg then row.to else row.from)
  }

  // The notification's event, field by field: whom the debit was taken from, whom the credit went
  // to, how much, in which currency, for whom.
  ghost predicate Tells(event: T.TransferCompleted, row: T.Transfer, debit: L.Entry, credit: L.Entry) {
    && event.transferId == row.id == debit.transfer == credit.transfer
    && event.from == debit.wallet && event.to == credit.wallet
    && event.amount == debit.amount == credit.amount
    && event.status == T.Completed && event.currency == row.currency && event.user == row.user
  }

  // The event was claimed; a message of the topic carries it; an outbox row holds that message;
  // the transfer row beside it is completed; and the ledger holds its debit of the sender and
  // its credit of the receiver, both of the row's amount, as the event tells.
  ghost predicate Caused(s: Sys, note: N.Note, m: nat, r: nat, d: nat, c: nat) {
    var rows, outbox, ledger := s.transfers.db.rows, s.transfers.db.outbox, s.wallet.db.ledger;
    && note.eventId in s.pipe.inbox.claimed && note.channel == "log"
    && m < |s.pipe.primary| && s.pipe.primary[m].key == note.eventId && s.pipe.primary[m].value == note.payload
    && r < |outbox| && outbox[r].event.aggregate == note.eventId && outbox[r].event.payload == note.payload
    && r < |rows| && rows[r].id == note.eventId == note.transferId && rows[r].status == T.Completed
    && LegBooked(ledger, d, rows[r], DebitLeg)
    && LegBooked(ledger, c, rows[r], CreditLeg)
    && note.payload.Json? && Tells(note.payload.event, rows[r], ledger[d], ledger[c])
  }

  lemma RowHasLeg(s: Sys, r: nat, leg: Leg) returns (d: nat)
    requires WalletOk(s.wallet) && SagasOk(s.wallet, s.transfers) && r < |s.transfers.db.rows|
    requires Booked(s.wallet, s.transfers.db.rows[r].id, leg)
    ensures LegBooked(s.wallet.db.ledger, d, s.transfers.db.rows[r], leg)
  {
    hide W.Inv, SagaOk;
    var row := s.transfers.db.rows[r];
    assert RowOk(s.wallet, s.transfers.sagas, s.transfers.owner, row);
    d :| 0 <= d < |s.wallet.db.ledger| && s.wallet.db.ledger[d].key == LegKey(row.id, leg);
    assert Stems(s.wallet, s.wallet.db.ledger[d]);
  }

  lemma NoteHasMessage(s: Sys, n: nat) returns (m: nat, r: nat)
    requires PipeOk(LineOf(s), s.pipe) && StoresOk(s.transfers) && n < |s.pipe.inbox.notes|
    ensures var note := s.pipe.inbox.notes[n];
            && note.eventId in s.pipe.inbox.claimed
            && m < |s.pipe.primary| && s.pipe.primary[m].key == note.eventId && s.pipe.primary[m].value == note.payload
            && r < |s.transfers.db.outbox| && s.transfers.db.outbox[r].event.aggregate == note.eventId
            && s.transfers.db.outbox[r].event.payload == note.payload && note.channel == "log"
            && r < |s.transfers.db.rows| && s.transfers.db.rows[r].id == note.eventId == note.transferId
            && T.Announces(s.transfers.db.outbox[r].event, s.transfers.db.rows[r])
  {
    hide R.WorkerInv, T.Truthful;
    var note := s.pipe.inbox.notes[n];
    assert NoteFrom(s.pipe.primary, note);
    m :| 0 <= m < |s.pipe.primary| && s.pipe.primary[m].value.Json?
         && note == N.NoteOf(s.pipe.primary[m].key, s.pipe.primary[m].value.event);
    assert R.FromRow(s.transfers.db.outbox, s.pipe.primary[m]);
    r :| 0 <= r < |s.transfers.db.outbox| && O.MessageOf(s.transfers.db.outbox[r].event) == s.pipe.primary[m];
    assert T.Paired(s.transfers.db.rows[r], s.transfers.db.outbox[r]);
  }

  lemma EveryNotificationIsCaused(run: seq<Action>, n: nat)
    requires n < |Exec(run).pipe.inbox.notes|
    ensures exists m: nat, r: nat, d: nat, c: nat :: Caused(Exec(run), Exec(run).pipe.inbox.notes[n], m, r, d, c)
  {
    hide Exec, WalletOk, PipeOk, StoresOk, LegBooked;
    InvHolds(run);
    var s := Exec(run);
    var m, r := NoteHasMessage(s, n);
    RowIsBooked(s, r);
    var d := RowHasLeg(s, r, DebitLeg);
    var c := RowHasLeg(s, r, CreditLeg);
    LegsTell(s.wallet.db.ledger, s.transfers.db.rows[r], s.transfers.db.outbox[r].event, d, c);
    assert Caused(s, s.pipe.inbox.notes[n], m, r, d, c);
  }

  lemma LegsTell(ledger: seq<L.Entry>, row: T.Transfer, event: T.Event, d: nat, c: nat)
    requires LegBooked(ledger, d, row, DebitLeg) && LegBooked(ledger, c, row, CreditLeg) && T.Announces(event, row)
    ensures d < |ledger| && c < |ledger| && Tells(event.payload.event, row, ledger[d], ledger[c])
  {
  }

  lemma RowIsBooked(s: Sys, r: nat)
    requires SagasOk(s.wallet, s.transfers) && r < |s.transfers.db.rows|
    ensures Booked(s.wallet, s.transfers.db.rows[r].id, DebitLeg)
    ensures Booked(s.wallet, s.transfers.db.rows[r].id, CreditLeg)
  {
  }

  lemma OneNotificationPerTransfer(run: seq<Action>, i: nat, j: nat)
    requires i < |Exec(run).pipe.inbox.notes| && j < |Exec(run).pipe.inbox.notes|
    requires Exec(run).pipe.inbox.notes[i].transferId == Exec(run).pipe.inbox.notes[j].transferId
    ensures i == j
  {
    hide Exec, WalletOk, SagasOk, PipeOk, StoresOk;
    InvHolds(run);
    var s := Exec(run);
    var _, _ := NoteHasMessage(s, i);
    var _, _ := NoteHasMessage(s, j);
    NotesAreDistinct(s, i, j);
  }

  lemma NotesAreDistinct(s: Sys, i: nat, j: nat)
    requires PipeOk(LineOf(s), s.pipe) && i < |s.pipe.inbox.notes| && j < |s.pipe.inbox.notes|
    requires s.pipe.inbox.notes[i].eventId == s.pipe.inbox.notes[j].eventId
    ensures i == j
  {
  }
}
