/**
  The saga when a failed remote call means that the leg was not applied and never will be:
  then an attempt either balances or is short by its amount, and says which.
 */
module DefiniteRuns {
  import opened Wrappers
  import opened Keys
  import WS = WalletStore
  import C = WalletCalls
  import W = WalletRuns
  import opened WalletClient
  import T = TransferStore
  import S = Saga
  import opened Platform
  import opened PlatformInv
  import opened PlatformSteps
  import opened Accounting

  // No commit of a leg of transfer t loses its acknowledgement, no applied leg of it loses its
  // reply, and a leg of it whose call breaks is stopped.
  predicate Definite(s: Sys, a: Action, t: TransferId) {
    && (a.Wallet? && a.act.Advance? && a.act.id.LegCall? && a.act.id.transfer == t ==> a.act.choice.fault != WS.AckLost)
    && (a.End? && a.ending.Broken? && AtLeg(s.transfers, a.saga) && s.transfers.sagas[a.saga].saga.tr.value.id == t ==>
          a.ending.stops && !Applied(s.wallet.calls, LegCallOf(s.transfers.sagas[a.saga])))
  }

  ghost predicate AllDefinite(run: seq<Action>, t: TransferId) {
    run == [] || (AllDefinite(run[..|run| - 1], t) && Definite(Exec(run[..|run| - 1]), run[|run| - 1], t))
  }

  // A leg in the ledger has a call that knows it succeeded.
  ghost predicate Known(w: W.Sys, t: TransferId) {
    forall leg :: Called(w, t, leg) && Booked(w, t, leg) ==> Applied(w.calls, W.LegCall(t, leg))
  }

  // A leg that was never called, or whose call has failed for good.
  ghost predicate Gone(w: W.Sys, t: TransferId, leg: Leg) {
    Called(w, t, leg) ==> w.calls[W.LegCall(t, leg)].pc.Done? && w.calls[W.LegCall(t, leg)].pc.outcome.Failed?
  }

  ghost predicate KnowsLegs(w: W.Sys, s: S.Saga)
    requires s.tr.Some?
  {
    var t := s.tr.value.id;
    match s.pc
    case Compensating(_) => Gone(w, t, CreditLeg)
    case Finished(Err(Wallet(_))) =>
      if s.repaid.None? then Gone(w, t, DebitLeg) && !Called(w, t, CreditLeg) && !Called(w, t, CompensateLeg)
      else Gone(w, t, CreditLeg) && (s.repaid == Some(false) ==> Gone(w, t, CompensateLeg))
    case Finished(Err(Store(_))) =>
      s.repaid.None? && Booked(w, t, DebitLeg) && Booked(w, t, CreditLeg) && !Called(w, t, CompensateLeg)
    case Finished(Err(_)) => false
    case _ => true
  }

  predicate Attempts(r: Running, t: TransferId) {
    r.saga.tr.Some? && r.saga.tr.value.id == t
  }

  ghost predicate DefiniteInv(s: Sys, t: TransferId) {
    && Known(s.wallet, t)
    && forall i :: 0 <= i < |s.transfers.sagas| && Attempts(s.transfers.sagas[i], t) ==>
         KnowsLegs(s.wallet, s.transfers.sagas[i].saga)
  }

  // Nothing that is gone or applied comes back or is undone.
  ghost predicate Settles(w: W.Sys, w': W.Sys, t: TransferId) {
    && w.db.ledger <= w'.db.ledger
    && forall leg :: (Called(w, t, leg) <==> Called(w', t, leg)) && (Gone(w, t, leg) ==> Gone(w', t, leg))
  }

  lemma KnowsLegsStable(w: W.Sys, w': W.Sys, s: S.Saga)
    requires s.tr.Some? && KnowsLegs(w, s) && Settles(w, w', s.tr.value.id)
    ensures KnowsLegs(w', s)
  {
  }

  lemma WalletSettles(w: W.Sys, a: W.Action, t: TransferId)
    requires WalletGrows(w, W.Act(w, a))
    ensures Settles(w, W.Act(w, a), t)
  {
  }

  // The only entry a step adds is that of the call that takes it, which then knows it.
  lemma AdvanceKeepsKnown(w: W.Sys, id: W.CallId, choice: C.Choice, t: TransferId)
    requires WalletOk(w) && Known(w, t) && id in w.calls
    requires id.LegCall? && id.transfer == t ==> choice.fault != WS.AckLost
    ensures Known(W.Act(w, W.Advance(id, choice)), t)
  {
    var w' := W.Act(w, W.Advance(id, choice));
    AppendedStems(w, id, choice);
    CommitAppends(w, id, choice);
    hide W.Inv, C.Step, W.Act;
    AdvanceOthers(w, id, choice);
    forall leg | Called(w', t, leg) && Booked(w', t, leg)
      ensures Applied(w'.calls, W.LegCall(t, leg))
    {
      if w'.db != w.db {
        AppendedKey(w.db.ledger, w'.db.ledger[|w.db.ledger|], LegKey(t, leg));
      }
      if Booked(w, t, leg) {
        assert Called(w, t, leg);
        DoneStaysDone(w, W.Advance(id, choice), W.LegCall(t, leg));
      }
    }
  }

  lemma KillKeepsKnown(w: W.Sys, id: W.CallId, t: TransferId)
    requires Known(w, t)
    ensures Known(W.Act(w, W.Kill(id)), t)
  {
  }

  lemma WalletKeepsKnown(w: W.Sys, a: W.Action, t: TransferId)
    requires WalletOk(w) && Known(w, t) && External(a)
    requires a.Advance? && a.id.LegCall? && a.id.transfer == t ==> a.choice.fault != WS.AckLost
    ensures Known(W.Act(w, a), t)
  {
    match a {
      case OpenWallet(_) => SameLegsKnown(w, W.Act(w, a), t);
      case Arrive(_, _) => SameLegsKnown(w, W.Act(w, a), t);
      case Advance(id, choice) => if id in w.calls { AdvanceKeepsKnown(w, id, choice, t); }
      case Kill(id) => KillKeepsKnown(w, id, t);
    }
  }

  lemma SameLegsKnown(w: W.Sys, w': W.Sys, t: TransferId)
    requires Known(w, t) && w'.db.ledger == w.db.ledger
    requires forall leg :: Called(w', t, leg) ==>
               Called(w, t, leg) && w'.calls[W.LegCall(t, leg)] == w.calls[W.LegCall(t, leg)]
    ensures Known(w', t)
  {
  }

  /******* The Create calls *******/

  // Every attempt but i's is where it was, and nothing of theirs has been undone.
  lemma OneKnows(s: Sys, s': Sys, i: nat, t: TransferId)
    requires DefiniteInv(s, t) && Known(s'.wallet, t)
    requires |s'.transfers.sagas| == |s.transfers.sagas|
    requires forall j :: 0 <= j < |s.transfers.sagas| && j != i ==>
        s'.transfers.sagas[j].saga == s.transfers.sagas[j].saga
    requires forall j :: 0 <= j < |s.transfers.sagas| && j != i && Attempts(s.transfers.sagas[j], t) ==>
               Settles(s.wallet, s'.wallet, t)
    requires i < |s.transfers.sagas| && Attempts(s'.transfers.sagas[i], t) ==>
        KnowsLegs(s'.wallet, s'.transfers.sagas[i].saga)
    ensures DefiniteInv(s', t)
  {
  }

  lemma SettledSame(w: W.Sys, t: TransferId)
    ensures Settles(w, w, t)
  {
  }

  // The wallet is left alone, and so is every attempt but i's.
  lemma QuietKnows(s: Sys, s': Sys, i: nat, t: TransferId)
    requires DefiniteInv(s, t) && s'.wallet == s.wallet
    requires |s'.transfers.sagas| == |s.transfers.sagas|
    requires forall j :: 0 <= j < |s.transfers.sagas| && j != i ==>
        s'.transfers.sagas[j].saga == s.transfers.sagas[j].saga
    requires i < |s.transfers.sagas| && Attempts(s'.transfers.sagas[i], t) ==>
        KnowsLegs(s'.wallet, s'.transfers.sagas[i].saga)
    ensures DefiniteInv(s', t)
  {
  }

  lemma WalletKeepsTransfer(s: S.Saga, err: Option<ClientError>)
    ensures S.On(s, S.WalletSaid(err)).tr == s.tr
  {
  }

  lemma RefusalKnows(w: W.Sys, rows: seq<T.Transfer>, owner: map<TransferId, nat>, r: Running, i: nat)
    requires SagaOk(w, rows, owner, r, i) && r.saga.tr.Some? && S.LegOf(r.saga.pc).Some? && !r.issued
    requires KnowsLegs(w, r.saga)
    ensures var a := S.WalletSaid(Some(CircuitOpen)); S.On(r.saga, a).tr.Some? && KnowsLegs(w, S.On(r.saga, a))
  {
  }

  lemma EndKnows(w: W.Sys, rows: seq<T.Transfer>, owner: map<TransferId, nat>, r: Running, i: nat,
      err: Option<ClientError>)
    requires SagaOk(w, rows, owner, r, i) && r.saga.tr.Some? && S.LegOf(r.saga.pc).Some?
    requires KnowsLegs(w, r.saga)
    requires err.Some? ==> Gone(w, r.saga.tr.value.id, S.LegOf(r.saga.pc).value)
    ensures S.On(r.saga, S.WalletSaid(err)).tr == r.saga.tr
    ensures KnowsLegs(w, S.On(r.saga, S.WalletSaid(err)))
  {
  }

  // A leg whose call fails its caller, one way or the other, is gone.
  lemma FailedLegIsGone(s: Sys, i: nat, ending: Ending, now: nat)
    requires MayEnd(s, i, ending) && Definite(s, End(i, ending, now), s.transfers.sagas[i].saga.tr.value.id)
    requires MapErr(OutcomeOf(s, i, ending)).Some?
    ensures var r := s.transfers.sagas[i];
            Gone(EndLeg(s, i, ending, now).wallet, r.saga.tr.value.id, S.LegOf(r.saga.pc).value)
  {
  }

  lemma EndKeepsKnown(s: Sys, i: nat, ending: Ending, now: nat, t: TransferId)
    requires MayEnd(s, i, ending) && Known(s.wallet, t)
    ensures Known(EndLeg(s, i, ending, now).wallet, t)
  {
    KillKeepsKnown(s.wallet, LegCallOf(s.transfers.sagas[i]), t);
    hide Known, W.Act, OutcomeOf, S.On;
  }

  lemma EndSettles(s: Sys, i: nat, ending: Ending, now: nat, t: TransferId)
    requires MayEnd(s, i, ending) && WalletOk(s.wallet)
    ensures Settles(s.wallet, EndLeg(s, i, ending, now).wallet, t)
  {
    SettledSame(s.wallet, t);
    var kill := W.Kill(LegCallOf(s.transfers.sagas[i]));
    hide WalletOk, Settles, W.Act, OutcomeOf, S.On, WalletGrows;
    WalletActOk(s.wallet, kill);
    WalletSettles(s.wallet, kill, t);
  }

  // Call i hears an answer of the cache or of the transfer database.
  lemma HearKnows(s: Sys, s': Sys, i: nat, a: S.Answer, t: TransferId)
    requires DefiniteInv(s, t) && i < |s.transfers.sagas| && !a.WalletSaid?
    requires SagaOk(s.wallet, s.transfers.db.rows, s.transfers.owner, s.transfers.sagas[i], i)
    requires s'.wallet == s.wallet
    requires s'.transfers.sagas
          == s.transfers.sagas[i := s.transfers.sagas[i].(saga := S.On(s.transfers.sagas[i].saga, a))]
    ensures DefiniteInv(s', t)
  {
  }

  lemma HearRowKnows(s: Sys, i: nat, down: bool, id: TransferId, t: TransferId)
    requires DefiniteInv(s, t) && i < |s.transfers.sagas|
    requires SagaOk(s.wallet, s.transfers.db.rows, s.transfers.owner, s.transfers.sagas[i], i)
    ensures DefiniteInv(HearRow(s, i, down, id), t)
  {
  }

  lemma InsertRowKnows(s: Sys, i: nat, eventId: T.EventId, at: nat, fault: T.Fault, t: TransferId)
    requires DefiniteInv(s, t) && i < |s.transfers.sagas| && s.transfers.sagas[i].saga.tr.Some?
    requires SagaOk(s.wallet, s.transfers.db.rows, s.transfers.owner, s.transfers.sagas[i], i)
    ensures DefiniteInv(InsertRow(s, i, eventId, at, fault), t)
  {
  }

  lemma StoreActKnows(s: Sys, a: Action, t: TransferId)
    requires Inv(s) && DefiniteInv(s, t)
    requires a.CacheAnswers? || a.LoadAnswers? || a.RowAnswers? || a.CacheFills? || a.InsertAnswers?
    ensures DefiniteInv(Act(s, a), t)
  {
    hide WalletOk, SagasOk, StoresOk, PipeOk, SagaOk, S.On, HearRow, InsertRow, DefiniteInv;
    var i := a.saga;
    if Live(s.transfers, i) {
      OneSaga(s, i);
      match a {
        case CacheAnswers(_, down) =>
          if Act(s, a) != s { HearKnows(s, Act(s, a), i, CacheAnswer(s, i, down), t); }
        case LoadAnswers(_, down) =>
          if s.transfers.sagas[i].saga.pc.Loading? {
            HearKnows(s, Act(s, a), i, LoadAnswer(s, s.transfers.sagas[i].saga.pc.id, down), t);
          }
        case RowAnswers(_, down, id) => HearRowKnows(s, i, down, id, t);
        case CacheFills(_, stores) =>
          if Act(s, a) != s { HearKnows(s, Act(s, a), i, S.CacheFilled, t); }
        case InsertAnswers(_, eventId, at, fault) =>
          if s.transfers.sagas[i].saga.tr.Some? { InsertRowKnows(s, i, eventId, at, fault, t); }
      }
    }
  }

  lemma ArrivedKnown(s: Sys, i: nat, t: TransferId)
    requires WalletOk(s.wallet) && Known(s.wallet, t) && AtLeg(s.transfers, i)
    requires LegCallOf(s.transfers.sagas[i]) !in s.wallet.calls
    ensures Known(Arrived(s.wallet, s.transfers.sagas[i]), t)
  {
  }

  lemma ArrivedSettles(s: Sys, i: nat, t: TransferId)
    requires AtLeg(s.transfers, i) && t != s.transfers.sagas[i].saga.tr.value.id
    ensures Settles(s.wallet, Arrived(s.wallet, s.transfers.sagas[i]), t)
  {
  }

  lemma ArrivedLegs(s: Sys, i: nat)
    requires AtLeg(s.transfers, i) && KnowsLegs(s.wallet, s.transfers.sagas[i].saga)
    ensures KnowsLegs(Arrived(s.wallet, s.transfers.sagas[i]), s.transfers.sagas[i].saga)
  {
  }

  lemma ArrivalKnows(s: Sys, s': Sys, i: nat, t: TransferId)
    requires WalletOk(s.wallet) && SagasOk(s.wallet, s.transfers) && DefiniteInv(s, t)
    requires AtLeg(s.transfers, i) && !s.transfers.sagas[i].issued
    requires s'.wallet == Arrived(s.wallet, s.transfers.sagas[i])
    requires s'.transfers.sagas == s.transfers.sagas[i := s.transfers.sagas[i].(issued := true)]
    ensures DefiniteInv(s', t)
  {
    OneSaga(s, i);
    FreshLeg(s.wallet, s.transfers.sagas[i]);
    hide LegFacts, RowFacts, WalletOk, SagasOk, SagaOk, Arrived, Known, KnowsLegs, Settles;
    ArrivedKnown(s, i, t);
    if Attempts(s.transfers.sagas[i], t) {
      ArrivedLegs(s, i);
    } else {
      ArrivedSettles(s, i, t);
    }
    forall j | 0 <= j < |s.transfers.sagas| && j != i && s.transfers.sagas[i].saga.tr.Some?
        && Attempts(s.transfers.sagas[j], t)
      ensures !Attempts(s.transfers.sagas[i], t)
    {
      IdsDiffer(s, i, j);
    }
    OneKnows(s, s', i, t);
  }

  lemma IssueKnows(s: Sys, i: nat, now: nat, t: TransferId)
    requires Inv(s) && DefiniteInv(s, t) && AtLeg(s.transfers, i) && !s.transfers.sagas[i].issued
    ensures DefiniteInv(IssueLeg(s, i, now), t)
  {
    hide WalletOk, SagasOk, StoresOk, PipeOk, SagaOk, S.On, Known, KnowsLegs;
    OneSaga(s, i);
    if B.Refuses(TraceOf(s.transfers, s.transfers.sagas[i].proc), now, Threshold, Cooldown) {
      hide B.Refuses;
      WalletKeepsTransfer(s.transfers.sagas[i].saga, Some(CircuitOpen));
      if Attempts(s.transfers.sagas[i], t) {
        RefusalKnows(s.wallet, s.transfers.db.rows, s.transfers.owner, s.transfers.sagas[i], i);
      }
      QuietKnows(s, IssueLeg(s, i, now), i, t);
    } else {
      hide B.Refuses, W.Act;
      ArrivalKnows(s, IssueLeg(s, i, now), i, t);
    }
  }

  lemma EndingAtLeg(s: Sys, i: nat, ending: Ending)
    requires MayEnd(s, i, ending)
    ensures AtLeg(s.transfers, i)
  {
  }

  lemma EndLegKnows(s: Sys, i: nat, ending: Ending, now: nat, t: TransferId)
    requires Inv(s) && DefiniteInv(s, t) && MayEnd(s, i, ending) && Definite(s, End(i, ending, now), t)
    ensures DefiniteInv(EndLeg(s, i, ending, now), t)
  {
    hide EndLeg, MapErr, OutcomeOf, WalletOk, SagasOk, StoresOk, PipeOk, SagaOk, S.On, Known, KnowsLegs, Settles, Gone,
        Definite, MayEnd;
    var s' := EndLeg(s, i, ending, now);
    var err := MapErr(OutcomeOf(s, i, ending));
    EndingAtLeg(s, i, ending);
    EndMoves(s, i, ending, now);
    EndKeepsKnown(s, i, ending, now, t);
    WalletKeepsTransfer(s.transfers.sagas[i].saga, err);
    if err.Some? && Attempts(s.transfers.sagas[i], t) {
      FailedLegIsGone(s, i, ending, now);
    }
    EndSettles(s, i, ending, now, t);
    if Attempts(s.transfers.sagas[i], t) {
      EndKnowsLater(s, s', i, err);
    }
    OneKnows(s, s', i, t);
  }

  lemma EndKnowsLater(s: Sys, s': Sys, i: nat, err: Option<ClientError>)
    requires SagasOk(s.wallet, s.transfers) && AtLeg(s.transfers, i)
    requires KnowsLegs(s.wallet, s.transfers.sagas[i].saga)
    requires Settles(s.wallet, s'.wallet, s.transfers.sagas[i].saga.tr.value.id)
    requires err.Some? ==> Gone(s'.wallet, s.transfers.sagas[i].saga.tr.value.id,
        S.LegOf(s.transfers.sagas[i].saga.pc).value)
    ensures S.On(s.transfers.sagas[i].saga, S.WalletSaid(err)).tr == s.transfers.sagas[i].saga.tr
    ensures KnowsLegs(s'.wallet, S.On(s.transfers.sagas[i].saga, S.WalletSaid(err)))
  {
    var r := s.transfers.sagas[i];
    OneSaga(s, i);
    hide SagasOk, SagaOk, S.On, KnowsLegs, Gone;
    SettledSameCalled(s.wallet, s'.wallet, r.saga.tr.value.id);
    hide Settles, SameCalled;
    SagaOkStable(s.wallet, s'.wallet, s.transfers.db.rows, s.transfers.db.rows, s.transfers.owner, s.transfers.owner,
        r, i);
    KnowsLegsStable(s.wallet, s'.wallet, r.saga);
    EndKnows(s'.wallet, s.transfers.db.rows, s.transfers.owner, r, i, err);
  }

  lemma SettledSameCalled(w: W.Sys, w': W.Sys, t: TransferId)
    requires Settles(w, w', t)
    ensures SameCalled(w, w', t)
  {
  }

  lemma WalletActKnows(s: Sys, a: W.Action, t: TransferId)
    requires Inv(s) && DefiniteInv(s, t) && External(a) && Definite(s, Wallet(a), t)
    ensures DefiniteInv(s.(wallet := W.Act(s.wallet, a)), t)
  {
    hide WalletOk, SagasOk, StoresOk, PipeOk, Known, KnowsLegs, WalletGrows, W.Act, Settles;
    WalletKeepsKnown(s.wallet, a, t);
    WalletActOk(s.wallet, a);
    WalletSettles(s.wallet, a, t);
    forall j | 0 <= j < |s.transfers.sagas| && Attempts(s.transfers.sagas[j], t)
      ensures KnowsLegs(W.Act(s.wallet, a), s.transfers.sagas[j].saga)
    {
      KnowsLegsStable(s.wallet, W.Act(s.wallet, a), s.transfers.sagas[j].saga);
    }
  }

  lemma OtherActKnows(s: Sys, a: Action, t: TransferId)
    requires DefiniteInv(s, t) && (a.NewSaga? || a.Die? || a.Expire? || a.Work? || a.Consume?)
    ensures DefiniteInv(Act(s, a), t)
  {
    hide Known, KnowsLegs, R.Step, ConsumerStep;
  }

  lemma ActKeepsDefiniteInv(s: Sys, a: Action, t: TransferId)
    requires Inv(s) && DefiniteInv(s, t) && Definite(s, a, t)
    ensures DefiniteInv(Act(s, a), t)
  {
    hide Inv, DefiniteInv, Definite, HearRow, Fill, Hear, IssueLeg, EndLeg, InsertRow, WorkerActs, ConsumerActs, W.Act;
    match a {
      case Wallet(act) => if External(act) { WalletActKnows(s, act, t); }
      case Issue(i, now) => if AtLeg(s.transfers, i) && !s.transfers.sagas[i].issued { IssueKnows(s, i, now, t); }
      case End(i, ending, now) => if MayEnd(s, i, ending) { EndLegKnows(s, i, ending, now, t); }
      case NewSaga(_, _) => OtherActKnows(s, a, t);
      case Die(_) => OtherActKnows(s, a, t);
      case Expire(_) => OtherActKnows(s, a, t);
      case Work(_, _) => OtherActKnows(s, a, t);
      case Consume(_, _) => OtherActKnows(s, a, t);
      case _ => StoreActKnows(s, a, t);
    }
  }

  lemma {:induction false} DefiniteInvHolds(run: seq<Action>, t: TransferId)
    requires AllDefinite(run, t)
    ensures DefiniteInv(Exec(run), t)
    decreases |run|
  {
    hide Act, Definite, Inv;
    if run != [] {
      DefiniteInvHolds(run[..|run| - 1], t);
      InvHolds(run[..|run| - 1]);
      hide DefiniteInv;
      ActKeepsDefiniteInv(Exec(run[..|run| - 1]), run[|run| - 1], t);
    }
  }

  /******* What an attempt can come to *******/

  // The attempt's money has left the sender and has not arrived: between its debit and its
  // credit, between a failed credit and its compensation, or for good, compensation having failed.
  ghost predicate Short(w: W.Sys, s: S.Saga)
    requires s.tr.Some?
  {
    var t := s.tr.value.id;
    match s.pc
    case Debiting => Booked(w, t, DebitLeg)
    case Crediting => !Booked(w, t, CreditLeg)
    case Compensating(_) => !Booked(w, t, CompensateLeg)
    case _ => s.repaid == Some(false)
  }

  lemma GoneIsNotBooked(w: W.Sys, t: TransferId, leg: Leg)
    requires WalletOk(w) && Known(w, t) && Gone(w, t, leg)
    ensures !Booked(w, t, leg)
  {
  }

  lemma EffectOfOne(w: W.Sys, rows: seq<T.Transfer>, owner: map<TransferId, nat>, r: Running, i: nat)
    requires WalletOk(w) && SagaOk(w, rows, owner, r, i) && r.saga.tr.Some? && KnowsLegs(w, r.saga)
    requires Known(w, r.saga.tr.value.id)
    ensures Effect(w.db.ledger, r) == if Short(w, r.saga) then -(r.saga.tr.value.amount as int) else 0
  {
    var t := r.saga.tr.value.id;
    forall leg | Gone(w, t, leg) ensures !Booked(w, t, leg) { GoneIsNotBooked(w, t, leg); }
    forall leg | !Called(w, t, leg) ensures !Booked(w, t, leg) { UncalledIsNotBooked(w, t, leg); }
    assert forall leg :: Booked(w, t, leg) <==> WS.HasKey(w.db.ledger, LegKey(t, leg));
    hide WalletOk, Known, Gone, Called, WS.HasKey, RowFacts;
    assert r.saga.repaid.Some? && r.saga.repaid != Some(true) ==> !r.saga.repaid.value;
  }

  // If no failed leg of an attempt has been applied or ever will be, whatever happens to others,
  // the attempt has either moved its money or left it where it was, except that it is short of
  // exactly its amount while it is under way, or its process has died there, or once its
  // compensation has failed.
  lemma AttemptsBalance(run: seq<Action>, i: nat)
    requires i < |Exec(run).transfers.sagas| && Exec(run).transfers.sagas[i].saga.tr.Some?
    requires AllDefinite(run, Exec(run).transfers.sagas[i].saga.tr.value.id)
    ensures var s := Exec(run);
            var r := s.transfers.sagas[i];
            && Effect(s.wallet.db.ledger, r)
                == (if Short(s.wallet, r.saga) then -(r.saga.tr.value.amount as int) else 0)
            && (Short(s.wallet, r.saga) ==>
                  r.saga.pc.Debiting? || r.saga.pc.Crediting? || r.saga.pc.Compensating? ||
                  (r.saga.pc.Finished? && r.saga.pc.result.Err? && r.saga.repaid == Some(false)))
  {
    hide Exec, AllDefinite, Effect, LegFacts, RowFacts, KnowsLegs, Known, Booked;
    InvHolds(run);
    DefiniteInvHolds(run, Exec(run).transfers.sagas[i].saga.tr.value.id);
    hide StoresOk, PipeOk, WalletOk, SagasOk;
    var s := Exec(run);
    OneSaga(s, i);
    EffectOfOne(s.wallet, s.transfers.db.rows, s.transfers.owner, s.transfers.sagas[i], i);
    if Short(s.wallet, s.transfers.sagas[i].saga) {
      ShortOnlyAbroad(s.wallet, s.transfers.db.rows, s.transfers.owner, s.transfers.sagas[i], i);
    }
  }

  lemma ShortOnlyAbroad(w: W.Sys, rows: seq<T.Transfer>, owner: map<TransferId, nat>, r: Running, i: nat)
    requires SagaOk(w, rows, owner, r, i) && r.saga.tr.Some? && Short(w, r.saga)
    ensures r.saga.pc.Debiting? || r.saga.pc.Crediting? || r.saga.pc.Compensating?
         || (r.saga.pc.Finished? && r.saga.pc.result.Err? && r.saga.repaid == Some(false))
  {
  }

  // The amounts that the wallets are short of.
  ghost function Shortfall(w: W.Sys, sagas: seq<Running>): int {
    if sagas == [] then 0
    else
      var r := sagas[|sagas| - 1];
      Shortfall(w, sagas[..|sagas| - 1])
      + if r.saga.tr.Some? && Short(w, r.saga) then r.saga.tr.value.amount else 0
  }

  lemma {:induction false} EffectsAreShortfall(w: W.Sys, sagas: seq<Running>)
    requires forall i :: 0 <= i < |sagas| && sagas[i].saga.tr.Some? ==>
               Effect(w.db.ledger, sagas[i]) == if Short(w, sagas[i].saga)
                   then -(sagas[i].saga.tr.value.amount as int) else 0
    ensures Effects(w.db.ledger, sagas) == -Shortfall(w, sagas)
    decreases |sagas|
  {
    hide Short, Part;
    if sagas != [] {
      EffectsAreShortfall(w, sagas[..|sagas| - 1]);
    }
  }

  // Then the platform makes no money, and what is missing is what the short attempts account for.
  lemma DefiniteRunsMakeNoMoney(run: seq<Action>)
    requires forall t :: AllDefinite(run, t)
    ensures var s := Exec(run);
            W.Holdings(s.wallet.db) == Deposits(s.wallet.db.ledger) - Shortfall(s.wallet, s.transfers.sagas)
  {
    hide Exec, AllDefinite, Effect, Effects, Deposits, W.Holdings, Short, Shortfall, LegFacts, RowFacts;
    var s := Exec(run);
    InvHolds(run);
    hide StoresOk, PipeOk, WalletOk, SagasOk;
    MoneyIsAccountedFor(run);
    forall i | 0 <= i < |s.transfers.sagas| && s.transfers.sagas[i].saga.tr.Some?
      ensures s.transfers.sagas[i].saga.tr.value.amount > 0
      ensures Effect(s.wallet.db.ledger, s.transfers.sagas[i])
           == if Short(s.wallet, s.transfers.sagas[i].saga) then -(s.transfers.sagas[i].saga.tr.value.amount as int)
               else 0
    {
      OneSaga(s, i);
      AttemptsBalance(run, i);
    }
    EffectsAreShortfall(s.wallet, s.transfers.sagas);
  }
}
