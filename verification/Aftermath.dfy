/**
  What can still happen to an attempt: once a leg's call has ended at the wallet, or the leg
  can no longer be sent, the ledger has its entry for good or never will.
 */
module Aftermath {
  import opened Wrappers
  import opened Keys
  import WS = WalletStore
  import C = WalletCalls
  import W = WalletRuns
  import B = Breaker
  import opened WalletClient
  import T = TransferStore
  import S = Saga
  import R = OutboxRuns
  import opened Platform
  import opened PlatformInv
  import opened PlatformSteps
  import opened Undisturbed
  import opened Accounting

  // From here the saga may still come to send this leg.
  predicate MaySend(pc: S.Pc, leg: Leg) {
    match leg
    case DebitLeg => pc.Debiting?
    case CreditLeg => pc.Debiting? || pc.Crediting?
    case CompensateLeg => pc.Debiting? || pc.Crediting? || pc.Compensating?
  }

  // The leg was sent and its call has ended at the wallet, or it will not be sent any more.
  ghost predicate Closed(s: Sys, i: nat, leg: Leg) {
    && i < |s.transfers.sagas| && s.transfers.sagas[i].saga.tr.Some?
    && var id := W.LegCall(s.transfers.sagas[i].saga.tr.value.id, leg);
       if id in s.wallet.calls then s.wallet.calls[id].pc.Done?
       else !MaySend(s.transfers.sagas[i].saga.pc, leg) || s.transfers.sagas[i].dead
  }

  // The leg's call and its entry are left as they are.
  ghost predicate Leaves(w: W.Sys, w': W.Sys, t: TransferId, leg: Leg) {
    && (Called(w', t, leg) <==> Called(w, t, leg))
    && (Called(w, t, leg) ==> w'.calls[W.LegCall(t, leg)] == w.calls[W.LegCall(t, leg)])
    && (Booked(w', t, leg) <==> Booked(w, t, leg))
  }

  lemma AdvanceLeaves(w: W.Sys, id: W.CallId, choice: C.Choice, t: TransferId, leg: Leg)
    requires WalletOk(w) && id in w.calls
    requires Called(w, t, leg) ==> w.calls[W.LegCall(t, leg)].pc.Done?
    ensures Leaves(w, W.Act(w, W.Advance(id, choice)), t, leg)
  {
    var w' := W.Act(w, W.Advance(id, choice));
    CommitAppends(w, id, choice);
    AdvanceOthers(w, id, choice);
    if Called(w, t, leg) {
      DoneStaysDone(w, W.Advance(id, choice), W.LegCall(t, leg));
    }
    hide WalletOk, W.Act;
    if w'.db != w.db {
      AppendedKey(w.db.ledger, w'.db.ledger[|w.db.ledger|], LegKey(t, leg));
      assert w'.db.ledger == w.db.ledger + [w'.db.ledger[|w.db.ledger|]];
    }
    hide WS.HasKey;
  }

  lemma WalletLeaves(w: W.Sys, a: W.Action, t: TransferId, leg: Leg)
    requires WalletOk(w) && External(a)
    requires Called(w, t, leg) ==> w.calls[W.LegCall(t, leg)].pc.Done?
    ensures Leaves(w, W.Act(w, a), t, leg)
  {
    match a {
      case Advance(id, choice) =>
        if id in w.calls {
          AdvanceLeaves(w, id, choice, t, leg);
        }
      case _ =>
    }
  }

  lemma EndLeaves(s: Sys, i: nat, ending: Ending, now: nat, t: TransferId, leg: Leg)
    requires WalletOk(s.wallet) && MayEnd(s, i, ending)
    requires Called(s.wallet, t, leg) ==> s.wallet.calls[W.LegCall(t, leg)].pc.Done?
    ensures Leaves(s.wallet, EndLeg(s, i, ending, now).wallet, t, leg)
  {
    WalletLeaves(s.wallet, W.Kill(LegCallOf(s.transfers.sagas[i])), t, leg);
    hide WalletOk, W.Act, OutcomeOf, S.On;
  }

  lemma IssueLeaves(s: Sys, i: nat, now: nat, j: nat, leg: Leg)
    requires Inv(s) && Ready(s, i) && Closed(s, j, leg)
    ensures Leaves(s.wallet, IssueLeg(s, i, now).wallet, s.transfers.sagas[j].saga.tr.value.id, leg)
  {
    var r := s.transfers.sagas[i];
    LegIsFresh(s, i);
    if i != j {
      hide SagaOk, LegFacts, WS.Sound;
      IdsDiffer(s, i, j);
    }
    OtherCall(s, i, j, leg);
    hide Inv, WS.Sound, B.Refuses, C.Begin, S.On, WS.HasKey, Closed, S.LegRequest, S.LegOf;
    LeavesSame(s.wallet, s.transfers.sagas[j].saga.tr.value.id, leg);
    ArrivalLeaves(s.wallet, LegCallOf(r), RequestOf(r), s.transfers.sagas[j].saga.tr.value.id, leg);
  }

  lemma OtherCall(s: Sys, i: nat, j: nat, leg: Leg)
    requires Ready(s, i) && Closed(s, j, leg) && LegCallOf(s.transfers.sagas[i]) !in s.wallet.calls
    requires i != j ==> s.transfers.sagas[i].saga.tr.value.id != s.transfers.sagas[j].saga.tr.value.id
    ensures LegCallOf(s.transfers.sagas[i]) != W.LegCall(s.transfers.sagas[j].saga.tr.value.id, leg)
  {
  }

  lemma LeavesSame(w: W.Sys, t: TransferId, leg: Leg)
    ensures Leaves(w, w, t, leg)
  {
  }

  lemma ArrivalLeaves(w: W.Sys, id: W.CallId, req: C.Request, t: TransferId, leg: Leg)
    requires id != W.LegCall(t, leg)
    ensures Leaves(w, W.Act(w, W.Arrive(id, req)), t, leg)
  {
  }

  /******* The saga goes forward only *******/

  ghost predicate Forward(s: Sys, s': Sys, i: nat) {
    && i < |s.transfers.sagas| <= |s'.transfers.sagas|
    && var r, r' := s.transfers.sagas[i], s'.transfers.sagas[i];
       && (r.dead ==> r'.dead)
       && (r'.saga == r.saga || exists a :: r'.saga == S.On(r.saga, a))
  }

  lemma HearForward(s: Sys, i: nat, j: nat, a: S.Answer)
    requires i < |s.transfers.sagas| && j < |s.transfers.sagas|
    ensures Forward(s, Hear(s, j, a), i)
  {
  }

  lemma LookupForward(s: Sys, a: Action, i: nat)
    requires i < |s.transfers.sagas| && (a.CacheAnswers? || a.LoadAnswers? || a.RowAnswers? || a.CacheFills?)
    ensures Forward(s, Act(s, a), i)
  {
    hide S.On, T.ByKey;
    match a {
      case CacheAnswers(j, down) => if Live(s.transfers, j) { HearForward(s, i, j, CacheAnswer(s, j, down)); }
      case LoadAnswers(j, down) =>
        if Live(s.transfers, j) && s.transfers.sagas[j].saga.pc.Loading? {
          HearForward(s, i, j, LoadAnswer(s, s.transfers.sagas[j].saga.pc.id, down));
        }
      case RowAnswers(j, down, id) =>
        if Live(s.transfers, j) {
          HearForward(s, i, j, S.RowSaid(if down then Err(T.StoreDown)
              else Ok(T.ByKey(s.transfers.db.rows, s.transfers.sagas[j].saga.req.key)), id));
        }
      case CacheFills(j, _) => if Live(s.transfers, j) { HearForward(s, i, j, S.CacheFilled); }
    }
  }

  lemma IssueForward(s: Sys, i: nat, j: nat, now: nat)
    requires AtLeg(s.transfers, j) && i < |s.transfers.sagas|
    ensures Forward(s, IssueLeg(s, j, now), i)
  {
    HearForward(s, i, j, S.WalletSaid(Some(CircuitOpen)));
    hide S.On, W.Act, S.LegRequest, B.Refuses;
  }

  lemma EndForward(s: Sys, i: nat, j: nat, ending: Ending, now: nat)
    requires MayEnd(s, j, ending) && i < |s.transfers.sagas|
    ensures Forward(s, EndLeg(s, j, ending, now), i)
  {
    EndMoves(s, j, ending, now);
    hide S.On, EndLeg, OutcomeOf;
  }

  lemma InsertForward(s: Sys, i: nat, j: nat, eventId: T.EventId, at: nat, fault: T.Fault)
    requires i < |s.transfers.sagas| && j < |s.transfers.sagas| && s.transfers.sagas[j].saga.tr.Some?
    ensures Forward(s, InsertRow(s, j, eventId, at, fault), i)
  {
  }

  lemma ActForward(s: Sys, a: Action, i: nat)
    requires i < |s.transfers.sagas|
    ensures Forward(s, Act(s, a), i)
  {
    hide IssueLeg, EndLeg, InsertRow, HearRow, Fill, W.Act, ConsumerStep, R.Step, MayEnd, S.On;
    match a {
      case CacheAnswers(_, _) => LookupForward(s, a, i);
      case LoadAnswers(_, _) => LookupForward(s, a, i);
      case RowAnswers(_, _, _) => LookupForward(s, a, i);
      case CacheFills(_, _) => LookupForward(s, a, i);
      case Issue(j, now) => if AtLeg(s.transfers, j) { IssueForward(s, i, j, now); }
      case End(j, ending, now) => if MayEnd(s, j, ending) { EndForward(s, i, j, ending, now); }
      case InsertAnswers(j, eventId, at, fault) =>
        if Live(s.transfers, j) && s.transfers.sagas[j].saga.tr.Some? { InsertForward(s, i, j, eventId, at, fault); }
      case _ =>
    }
  }

  // An attempt keeps its transfer, and a leg it cannot send any more stays unsent.
  lemma ForwardKeeps(s: S.Saga, a: S.Answer, leg: Leg)
    requires s.tr.Some? && !s.pc.AskingRow?
    ensures S.On(s, a).tr == s.tr && S.On(s, a).req == s.req
    ensures !MaySend(s.pc, leg) ==> !MaySend(S.On(s, a).pc, leg)
  {
  }

  /******* Every action *******/

  lemma WalletIsOk(s: Sys)
    requires Inv(s)
    ensures WalletOk(s.wallet)
  {
    hide WalletOk, SagasOk, PipeOk, StoresOk;
  }

  lemma ClosedIsDone(s: Sys, i: nat, leg: Leg)
    requires Closed(s, i, leg)
    ensures var t := s.transfers.sagas[i].saga.tr.value.id;
            Called(s.wallet, t, leg) ==> s.wallet.calls[W.LegCall(t, leg)].pc.Done?
  {
  }

  // What an action does to the wallet.
  lemma ActsOnWallet(s: Sys, a: Action)
    ensures Act(s, a).wallet
         == if a.Wallet? && External(a.act) then W.Act(s.wallet, a.act)
            else if a.Issue? && Ready(s, a.saga) then IssueLeg(s, a.saga, a.now).wallet
            else if a.End? && MayEnd(s, a.saga, a.ending) then EndLeg(s, a.saga, a.ending, a.now).wallet
            else s.wallet
  {
    hide S.On, W.Act, ConsumerStep, R.Step, T.Insert, IssueLeg, EndLeg, MayEnd;
  }

  lemma ActLeaves(s: Sys, a: Action, i: nat, leg: Leg)
    requires Inv(s) && Closed(s, i, leg)
    ensures Leaves(s.wallet, Act(s, a).wallet, s.transfers.sagas[i].saga.tr.value.id, leg)
  {
    var t := s.transfers.sagas[i].saga.tr.value.id;
    hide Act, IssueLeg, EndLeg, W.Act, MayEnd, Inv, Leaves, Closed;
    LeavesSame(s.wallet, t, leg);
    WalletIsOk(s);
    ClosedIsDone(s, i, leg);
    ActsOnWallet(s, a);
    if a.Wallet? {
      if External(a.act) { WalletLeaves(s.wallet, a.act, t, leg); }
    } else if a.Issue? {
      if Ready(s, a.saga) { IssueLeaves(s, a.saga, a.now, i, leg); }
    } else if a.End? {
      if MayEnd(s, a.saga, a.ending) { EndLeaves(s, a.saga, a.ending, a.now, t, leg); }
    }
  }

  ghost predicate SameAttempt(s: Sys, s': Sys, i: nat) {
    && i < |s.transfers.sagas| && i < |s'.transfers.sagas|
    && s'.transfers.sagas[i].saga.tr == s.transfers.sagas[i].saga.tr
    && s'.transfers.sagas[i].saga.req == s.transfers.sagas[i].saga.req
  }

  lemma NotAsking(s: Sys, i: nat)
    requires Inv(s) && i < |s.transfers.sagas| && s.transfers.sagas[i].saga.tr.Some?
    ensures !s.transfers.sagas[i].saga.pc.AskingRow?
  {
    hide WalletOk, StoresOk, PipeOk, RowFacts;
    OneSaga(s, i);
    hide SagasOk;
  }

  lemma ActKeepsClosed(s: Sys, a: Action, i: nat, leg: Leg)
    requires Inv(s) && Closed(s, i, leg)
    ensures Closed(Act(s, a), i, leg) && SameAttempt(s, Act(s, a), i)
    ensures var t := s.transfers.sagas[i].saga.tr.value.id;
            Booked(Act(s, a).wallet, t, leg) <==> Booked(s.wallet, t, leg)
  {
    hide Act, Inv, S.On, WS.HasKey;
    NotAsking(s, i);
    ActForward(s, a, i);
    ActLeaves(s, a, i, leg);
    var r, r' := s.transfers.sagas[i], Act(s, a).transfers.sagas[i];
    if r'.saga != r.saga {
      var x :| r'.saga == S.On(r.saga, x);
      ForwardKeeps(r.saga, x, leg);
    }
    hide MaySend;
  }

  // However a run goes on, a closed leg stays as it is: in the ledger, or out of it.
  lemma {:induction false} ClosedForGood(run: seq<Action>, more: seq<Action>, i: nat, leg: Leg)
    requires Closed(Exec(run), i, leg)
    ensures Closed(Exec(run + more), i, leg) && SameAttempt(Exec(run), Exec(run + more), i)
    ensures var t := Exec(run).transfers.sagas[i].saga.tr.value.id;
            Booked(Exec(run + more).wallet, t, leg) <==> Booked(Exec(run).wallet, t, leg)
    decreases |more|
  {
    hide Act, Closed, Booked, Inv;
    if more == [] {
      assert run + more == run;
      ClosedAttempts(Exec(run), i, leg);
    } else {
      var init := more[..|more| - 1];
      ClosedForGood(run, init, i, leg);
      assert (run + more)[..|run + more| - 1] == run + init;
      InvHolds(run + init);
      ActKeepsClosed(Exec(run + init), more[|more| - 1], i, leg);
    }
  }

  lemma ClosedAttempts(s: Sys, i: nat, leg: Leg)
    requires Closed(s, i, leg)
    ensures i < |s.transfers.sagas| && s.transfers.sagas[i].saga.tr.Some?
  {
  }

  /******* What that means for an attempt *******/

  // A new transfer that Create has returned was debited once, credited once and never repaid.
  lemma NewTransferIsPaidOnce(run: seq<Action>, i: nat)
    requires i < |Exec(run).transfers.sagas|
    requires var pc := Exec(run).transfers.sagas[i].saga.pc; pc.Finished? && pc.result.Ok? && !pc.result.value.replay
    ensures var s := Exec(run);
            var id := s.transfers.sagas[i].saga.pc.result.value.transfer.id;
            && Booked(s.wallet, id, DebitLeg) && Booked(s.wallet, id, CreditLeg) && !Booked(s.wallet, id, CompensateLeg)
            && Effect(s.wallet.db.ledger, s.transfers.sagas[i]) == 0
  {
    hide Exec, WS.HasKey, StoresOk, PipeOk;
    InvHolds(run);
    var s := Exec(run);
    OneSaga(s, i);
    hide SagasOk;
    UncalledIsNotBooked(s.wallet, s.transfers.sagas[i].saga.pc.result.value.transfer.id, CompensateLeg);
  }

  function InsertFailure(t: Transfers, i: nat, eventId: T.EventId, at: nat, fault: T.Fault): Option<T.StoreError>
    requires i < |t.sagas| && t.sagas[i].saga.tr.Some?
  {
    var tr := S.Complete(t.sagas[i].saga.tr.value);
    T.Insert(t.db, tr, T.CompletedEvent(tr, eventId, at), fault).1
  }

  lemma InsertEnds(s: Sys, i: nat, eventId: T.EventId, at: nat, fault: T.Fault)
    requires Inv(s) && Live(s.transfers, i) && s.transfers.sagas[i].saga.pc.Inserting?
        && s.transfers.sagas[i].saga.tr.Some?
    requires InsertFailure(s.transfers, i, eventId, at, fault).Some?
    ensures var s', id := Act(s, InsertAnswers(i, eventId, at, fault)), s.transfers.sagas[i].saga.tr.value.id;
            && i < |s'.transfers.sagas|
            && s'.transfers.sagas[i].saga.pc
                == S.Finished(Err(S.Store(InsertFailure(s.transfers, i, eventId, at, fault).value)))
            && s'.transfers.sagas[i].saga.tr == s.transfers.sagas[i].saga.tr
            && (fault != WS.AckLost ==> s'.transfers.db == s.transfers.db)
            && Booked(s'.wallet, id, DebitLeg) && Booked(s'.wallet, id, CreditLeg)
            && !Booked(s'.wallet, id, CompensateLeg) && !Called(s'.wallet, id, CompensateLeg)
  {
    hide Inv, WS.HasKey, T.Insert;
    InsertingLegs(s, i);
    InsertAct(s, i, eventId, at, fault);
    hide Act;
  }

  lemma InsertingLegs(s: Sys, i: nat)
    requires Inv(s) && i < |s.transfers.sagas|
    requires s.transfers.sagas[i].saga.pc.Inserting? && s.transfers.sagas[i].saga.tr.Some?
    ensures var id := s.transfers.sagas[i].saga.tr.value.id;
            && Booked(s.wallet, id, DebitLeg) && Booked(s.wallet, id, CreditLeg)
            && !Booked(s.wallet, id, CompensateLeg) && !Called(s.wallet, id, CompensateLeg)
  {
    hide StoresOk, PipeOk, WS.HasKey, RowFacts, WalletOk;
    OneSaga(s, i);
    hide SagasOk;
    UncalledIsNotBooked(s.wallet, s.transfers.sagas[i].saga.tr.value.id, CompensateLeg);
  }

  lemma InsertAct(s: Sys, i: nat, eventId: T.EventId, at: nat, fault: T.Fault)
    requires Live(s.transfers, i) && s.transfers.sagas[i].saga.pc.Inserting? && s.transfers.sagas[i].saga.tr.Some?
    requires InsertFailure(s.transfers, i, eventId, at, fault).Some?
    ensures var s' := Act(s, InsertAnswers(i, eventId, at, fault));
            && |s'.transfers.sagas| == |s.transfers.sagas| && s'.wallet == s.wallet
            && s'.transfers.sagas[i].saga.pc
                == S.Finished(Err(S.Store(InsertFailure(s.transfers, i, eventId, at, fault).value)))
            && s'.transfers.sagas[i].saga.tr == s.transfers.sagas[i].saga.tr
            && (fault != WS.AckLost ==> s'.transfers.db == s.transfers.db)
  {
    hide T.Refusal;
  }

  // Whatever makes the insert fail, a lost connection, a row that another call with the same key
  // has put there first, a taken id: the money has moved, it stays moved, and however the run goes
  // on nothing gives it back.
  lemma FailedInsertIsNeverUndone(run: seq<Action>, i: nat, eventId: T.EventId, at: nat, fault: T.Fault,
      more: seq<Action>)
    requires Live(Exec(run).transfers, i)
    requires Exec(run).transfers.sagas[i].saga.pc.Inserting? && Exec(run).transfers.sagas[i].saga.tr.Some?
    requires InsertFailure(Exec(run).transfers, i, eventId, at, fault).Some?
    ensures var s, s1 := Exec(run), Exec(run + [InsertAnswers(i, eventId, at, fault)]);
            && i < |s1.transfers.sagas| && s1.transfers.sagas[i].saga.pc.Finished?
                && s1.transfers.sagas[i].saga.pc.result.Err?
            && (fault != WS.AckLost ==> s1.transfers.db == s.transfers.db)
    ensures var s2 := Exec(run + [InsertAnswers(i, eventId, at, fault)] + more);
            var id := Exec(run).transfers.sagas[i].saga.tr.value.id;
            && Booked(s2.wallet, id, DebitLeg) && Booked(s2.wallet, id, CreditLeg)
                && !Booked(s2.wallet, id, CompensateLeg)
  {
    var a := InsertAnswers(i, eventId, at, fault);
    hide Act, Inv, WS.HasKey, InsertFailure;
    InvHolds(run);
    InsertEnds(Exec(run), i, eventId, at, fault);
    assert (run + [a])[..|run|] == run;
    ClosedForGood(run + [a], more, i, CompensateLeg);
    StaysBooked(run + [a], more, Exec(run).transfers.sagas[i].saga.tr.value.id, DebitLeg);
    StaysBooked(run + [a], more, Exec(run).transfers.sagas[i].saga.tr.value.id, CreditLeg);
  }

  lemma ActGrowsLedger(s: Sys, a: Action)
    requires Inv(s)
    ensures s.wallet.db.ledger <= Act(s, a).wallet.db.ledger
  {
    hide Act, IssueLeg, EndLeg, W.Act, MayEnd, WalletOk, SagasOk, PipeOk, StoresOk;
    ActsOnWallet(s, a);
    if a.Wallet? {
      if External(a.act) { WalletActOk(s.wallet, a.act); }
    } else if a.Issue? {
      if Ready(s, a.saga) { IssueGrowsLedger(s, a.saga, a.now); }
    } else if a.End? {
      if MayEnd(s, a.saga, a.ending) { EndWallet(s, a.saga, a.ending, a.now); }
    }
  }

  lemma IssueGrowsLedger(s: Sys, i: nat, now: nat)
    requires Ready(s, i)
    ensures IssueLeg(s, i, now).wallet.db == s.wallet.db
  {
    hide B.Refuses, C.Begin, S.LegRequest, S.On;
  }

  // An entry stays in the ledger however a run goes on.
  lemma {:induction false} StaysBooked(run: seq<Action>, more: seq<Action>, t: TransferId, leg: Leg)
    requires Booked(Exec(run).wallet, t, leg)
    ensures Booked(Exec(run + more).wallet, t, leg)
    decreases |more|
  {
    hide Act, Booked, Inv;
    if more == [] {
      assert run + more == run;
    } else {
      var init := more[..|more| - 1];
      StaysBooked(run, init, t, leg);
      assert (run + more)[..|run + more| - 1] == run + init;
      InvHolds(run + init);
      ActGrowsLedger(Exec(run + init), more[|more| - 1]);
      BookedIsStable(Exec(run + init).wallet, Exec(run + more).wallet, t, leg);
    }
  }

  // An attempt that compensates, and whose credit's call has ended at the wallet if it was ever
  // sent: however the run goes on, its effect is its amount twice, once for the credit if that
  // is in the ledger now and once for the compensation if that ever commits, less once for the
  // debit. So it pays twice if and only if the credit is in the ledger and the compensation commits.
  lemma PaidTwiceIff(run: seq<Action>, more: seq<Action>, i: nat)
    requires i < |Exec(run).transfers.sagas| && Exec(run).transfers.sagas[i].saga.tr.Some?
    requires Exec(run).transfers.sagas[i].saga.pc.Compensating?
    requires var w, id := Exec(run).wallet, Exec(run).transfers.sagas[i].saga.tr.value.id;
             Called(w, id, CreditLeg) ==> w.calls[W.LegCall(id, CreditLeg)].pc.Done?
    ensures var s, s' := Exec(run), Exec(run + more);
            var tr := s.transfers.sagas[i].saga.tr.value;
            && i < |s'.transfers.sagas| && s'.transfers.sagas[i].saga.tr == Some(tr)
            && (Booked(s'.wallet, tr.id, CreditLeg) <==> Booked(s.wallet, tr.id, CreditLeg))
            && Effect(s'.wallet.db.ledger, s'.transfers.sagas[i])
               == (if Booked(s.wallet, tr.id, CreditLeg) then tr.amount as int else 0)
                  + (if Booked(s'.wallet, tr.id, CompensateLeg) then tr.amount as int else 0)
                  - tr.amount as int
            && (Applied(s.wallet.calls, W.LegCall(tr.id, CreditLeg)) ==> Booked(s.wallet, tr.id, CreditLeg))
  {
    hide Exec, WS.HasKey, Inv;
    var s := Exec(run);
    InvHolds(run);
    assert Closed(s, i, CreditLeg);
    ClosedForGood(run, more, i, CreditLeg);
    CompensatingIsDebited(s, i);
    StaysBooked(run, more, s.transfers.sagas[i].saga.tr.value.id, DebitLeg);
    if Applied(s.wallet.calls, W.LegCall(s.transfers.sagas[i].saga.tr.value.id, CreditLeg)) {
      AppliedIsBooked(s, s.transfers.sagas[i].saga.tr.value.id, CreditLeg);
    }
    hide Closed;
  }

  lemma AppliedIsBooked(s: Sys, t: TransferId, leg: Leg)
    requires Inv(s) && Applied(s.wallet.calls, W.LegCall(t, leg))
    ensures Booked(s.wallet, t, leg)
  {
    hide SagasOk, StoresOk, PipeOk, WalletOk, WS.HasKey;
    SuccessMeansEntry(s.wallet, W.LegCall(t, leg));
    CalledKey(s.wallet, W.LegCall(t, leg));
  }
}
