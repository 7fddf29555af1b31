/**
  Runs in which the money does not end up where one transfer would put it: a key that is
  charged twice, attempts that pay twice, and a compensation that fails.
 */
module Overpayments {
  import opened Wrappers
  import opened Keys
  import L = Ledger
  import WS = WalletStore
  import C = WalletCalls
  import W = WalletRuns
  import opened WalletClient
  import T = TransferStore
  import S = Saga
  import opened Platform
  import opened PlatformInv
  import opened PlatformSteps
  import opened Undisturbed
  import opened Aftermath
  import opened Accounting
  import opened Scene

  /******* One key, charged twice *******/

  // Two calls with the same key look for the row before either has stored it.
  function Racing(): seq<Action> {
    Funding(20) + Asking(0, "a") + Asking(1, "b")
  }

  function BothPaid(): seq<Action> {
    Racing() + PayRun(0, "a", 1) + PayRun(1, "b", 3)
  }

  function ChargedTwice(): seq<Action> {
    BothPaid() + [InsertAnswers(0, 0, 0, WS.NoFault)] + [InsertAnswers(1, 1, 0, WS.NoFault)]
  }

  lemma BothAsk()
    ensures var s := Exec(Racing());
            && Hold(s.wallet.db, 20, 0, 1) && Calm(s.transfers)
            && |s.transfers.sagas| == 2 && At(s, 0, "a", S.Debiting) && At(s, 1, "b", S.Debiting)
            && s.transfers.db == T.Db([], [])
  {
    hide Exec, Hold, Asking, Funding;
    Funded(20);
    AskingRuns(Funding(20), 0, "a");
    AskingRuns(Funding(20) + Asking(0, "a"), 1, "b");
  }

  lemma BothPay()
    ensures var s := Exec(BothPaid());
            && Hold(s.wallet.db, 0, 20, 5) && |s.transfers.sagas| == 2
            && At(s, 0, "a", S.Inserting) && At(s, 1, "b", S.Inserting)
            && s.transfers.db == T.Db([], [])
  {
    hide Exec, Hold, Calm, Racing, PayRun;
    BothAsk();
    Paid(Racing(), 0, "a", 20, 0, 1);
    Paid(Racing() + PayRun(0, "a", 1), 1, "b", 10, 10, 3);
  }

  lemma BothInsert(s: Sys)
    requires |s.transfers.sagas| == 2 && At(s, 0, "a", S.Inserting) && At(s, 1, "b", S.Inserting)
    requires s.transfers.db == T.Db([], [])
    ensures var s' := Act(Act(s, InsertAnswers(0, 0, 0, WS.NoFault)), InsertAnswers(1, 1, 0, WS.NoFault));
            && s'.wallet == s.wallet && |s'.transfers.sagas| == 2
            && s'.transfers.db.rows == [S.Complete(Made10("a"))]
            && s'.transfers.sagas[0].saga.pc == S.Filling
            && s'.transfers.sagas[1].saga.pc == S.Finished(Err(S.Store(T.Duplicate)))
            && s'.transfers.sagas[0].saga.req == s'.transfers.sagas[1].saga.req == Ten
  {
    FirstInsert(s);
    var s1 := Act(s, InsertAnswers(0, 0, 0, WS.NoFault));
    SecondInsert(s1);
    hide T.ById, T.ByKey;
  }

  lemma SecondInsert(s: Sys)
    requires |s.transfers.sagas| == 2 && At(s, 1, "b", S.Inserting)
    requires s.transfers.db.rows == [S.Complete(Made10("a"))]
    ensures var s' := Act(s, InsertAnswers(1, 1, 0, WS.NoFault));
            && s'.transfers.db == s.transfers.db && s'.wallet == s.wallet && |s'.transfers.sagas| == 2
            && s'.transfers.sagas[0] == s.transfers.sagas[0]
            && s'.transfers.sagas[1].saga.pc == S.Finished(Err(S.Store(T.Duplicate)))
            && s'.transfers.sagas[1].saga.req == Ten
  {
    assert s.transfers.db.rows[0].key == "key";
    hide T.ById, T.ByKey;
  }

  // A run without a single fault after which one key has moved money twice: ten units were
  // asked for under it, twenty have gone from wallet 0 to wallet 1, and nothing gives any back.
  lemma OneKeyChargedTwice(more: seq<Action>)
    ensures var s := Exec(ChargedTwice());
            && |s.transfers.sagas| == 2 && s.transfers.sagas[0].saga.req == s.transfers.sagas[1].saga.req == Ten
            && s.transfers.db.rows == [S.Complete(Made10("a"))]
            && s.transfers.sagas[1].saga.pc == S.Finished(Err(S.Store(T.Duplicate)))
            && 0 in s.wallet.db.balances && 1 in s.wallet.db.balances
            && s.wallet.db.balances[0].minor == 0 && s.wallet.db.balances[1].minor == 20
    ensures var w := Exec(ChargedTwice() + more).wallet;
            forall id :: id == "a" || id == "b" ==>
              Booked(w, id, DebitLeg) && Booked(w, id, CreditLeg) && !Booked(w, id, CompensateLeg)
  {
    hide Exec, Booked, Act, BothPaid;
    BothPay();
    var s := Exec(BothPaid());
    OneMore(BothPaid(), InsertAnswers(0, 0, 0, WS.NoFault));
    OneMore(BothPaid() + [InsertAnswers(0, 0, 0, WS.NoFault)], InsertAnswers(1, 1, 0, WS.NoFault));
    BothInsert(s);
    var rest := [InsertAnswers(0, 0, 0, WS.NoFault)] + [InsertAnswers(1, 1, 0, WS.NoFault)] + more;
    assert ChargedTwice() + more == BothPaid() + rest;
    PaidForGood(BothPaid(), rest, 0, "a");
    PaidForGood(BothPaid(), rest, 1, "b");
  }

  lemma PaidForGood(run: seq<Action>, more: seq<Action>, i: nat, id: TransferId)
    requires At(Exec(run), i, id, S.Inserting)
    ensures var w := Exec(run + more).wallet;
            Booked(w, id, DebitLeg) && Booked(w, id, CreditLeg) && !Booked(w, id, CompensateLeg)
  {
    hide Exec, Booked, Inv;
    InvHolds(run);
    InsertingLegs(Exec(run), i);
    StaysBooked(run, more, id, DebitLeg);
    StaysBooked(run, more, id, CreditLeg);
    ClosedForGood(run, more, i, CompensateLeg);
  }

  /******* One attempt that pays twice *******/

  function Debited(amount: L.int64): seq<Action> {
    Funding(amount) + Asking(0, "a") + LegRun(0, "a", DebitLeg, 1)
  }

  lemma IsDebited()
    ensures var s := Exec(Debited(10));
            && Hold(s.wallet.db, 0, 0, 2) && Calm(s.transfers) && At(s, 0, "a", S.Crediting) && |s.transfers.sagas| == 1
  {
    hide Exec, Hold, Asking, Funding, OnlyLeg, LegRun;
    Funded(10);
    AskingRuns(Funding(10), 0, "a");
    var run := Funding(10) + Asking(0, "a");
    LegPays(run, 0, "a", S.Debiting, 10, 0, 1);
    LegAdvances(Exec(run), Exec(run + LegRun(0, "a", DebitLeg, 1)), 0, "a", S.Debiting);
  }

  const Cut: Action := End(0, Broken(NoStatus, false), 0)

  // The connection breaks under the credit.
  lemma CutAct(s: Sys)
    requires s.transfers.sagas != [] && AtLeg(s.transfers, 0) && s.transfers.sagas[0].issued && Calm(s.transfers)
    requires At(s.(transfers := s.transfers.(sagas := s.transfers.sagas[0 := s.transfers.sagas[0].(issued := false)])),
        0, "a", S.Crediting)
    ensures var s' := Act(s, Cut);
            && At(s', 0, "a", S.Compensating(Other(NoStatus))) && Calm(s'.transfers) && s'.wallet == s.wallet
            && |s'.transfers.sagas| == |s.transfers.sagas|
  {
    var trace := TraceOf(s.transfers, s.transfers.sagas[0].proc);
    assert trace + [] == trace;
  }

  // The wallet has credited the receiver, but its reply is lost; so the sender is repaid.
  function LostReply(): seq<Action> {
    Debited(10) + LegSent(0, W.LegCall("a", CreditLeg), 0, 2) + [Cut] + LegRun(0, "a", CompensateLeg, 3)
  }

  lemma CreditIsLost()
    ensures var s := Exec(Debited(10) + LegSent(0, W.LegCall("a", CreditLeg), 0, 2) + [Cut]);
            && At(s, 0, "a", S.Compensating(Other(NoStatus))) && Calm(s.transfers) && |s.transfers.sagas| == 1
            && Hold(s.wallet.db, 0, 10, 3)
            && Booked(s.wallet, "a", CreditLeg)
  {
    hide Exec, Inv, Debited, WS.HasKey, Carried, C.Mutated, C.Admits, Continue;
    IsDebited();
    var run := Debited(10);
    InvHolds(run);
    var s := Exec(run);
    AtLegIsReady(s, 0, "a", S.Crediting);
    LegIsFresh(s, 0);
    CalmAllows(s, 0, 0);
    WalletIsSound(s);
    C.StoredIsSolvent(s.wallet.db, 1);
    Pays(s.wallet.db, RequestOf(s.transfers.sagas[0]), 0, 0, 2);
    MutatedKeys(s.wallet.db, RequestOf(s.transfers.sagas[0]), 2);
    Continued(run, LegSent(0, W.LegCall("a", CreditLeg), 0, 2));
    LegSentEnds(s, 0, 0, 2);
    var s1 := Exec(run + LegSent(0, W.LegCall("a", CreditLeg), 0, 2));
    CarriedMayEnd(s, s1, 0, 2);
    OneMore(run + LegSent(0, W.LegCall("a", CreditLeg), 0, 2), Cut);
    hide Act, LegSent, Hold;
    CutAct(s1);
  }

  // Of one attempt, both credits and the debit are in the ledger.
  ghost predicate PaidBoth(s: Sys) {
    && |s.transfers.sagas| == 1 && s.transfers.sagas[0].saga.tr == Some(Made10("a"))
    && Booked(s.wallet, "a", DebitLeg) && Booked(s.wallet, "a", CreditLeg) && Booked(s.wallet, "a", CompensateLeg)
  }

  lemma PaidBothMakesMoney(run: seq<Action>)
    requires PaidBoth(Exec(run))
    ensures var s := Exec(run);
            && Effect(s.wallet.db.ledger, s.transfers.sagas[0]) == 10
            && W.Holdings(s.wallet.db) == Deposits(s.wallet.db.ledger) + 10
  {
    hide Exec, W.Holdings, Deposits, WS.HasKey;
    MoneyIsAccountedFor(run);
    var s := Exec(run);
    assert s.transfers.sagas[..0] == [];
  }

  lemma Repaid(run: seq<Action>, cause: ClientError, a: int, b: int, entry: nat)
    requires At(Exec(run), 0, "a", S.Compensating(cause)) && Calm(Exec(run).transfers)
        && |Exec(run).transfers.sagas| == 1
    requires Hold(Exec(run).wallet.db, a, b, entry) && entry < 100 && 0 <= a <= L.MaxInt64 - 10 && 0 <= b <= L.MaxInt64
    ensures var s, s' := Exec(run), Exec(run + LegRun(0, "a", CompensateLeg, entry));
            && |s'.transfers.sagas| == 1 && s'.transfers.sagas[0].saga.tr == Some(Made10("a"))
            && Booked(s'.wallet, "a", DebitLeg) && Booked(s'.wallet, "a", CompensateLeg)
            && Hold(s'.wallet.db, a + 10, b, entry + 1)
            && (Booked(s'.wallet, "a", CreditLeg) <==> Booked(s.wallet, "a", CreditLeg))
            && (forall x :: x in s.wallet.calls && x != W.LegCall("a", CompensateLeg) ==>
                  x in s'.wallet.calls && s'.wallet.calls[x] == s.wallet.calls[x])
  {
    hide Exec, Inv, Booked, Hold, LegRun;
    LegPays(run, 0, "a", S.Compensating(cause), a, b, entry);
    InvHolds(run + LegRun(0, "a", CompensateLeg, entry));
    RepaidIsBooked(Exec(run + LegRun(0, "a", CompensateLeg, entry)), 0);
    AppendedKey(Exec(run).wallet.db.ledger, C.NewEntry(S.LegRequest(Made10("a"), CompensateLeg), entry),
        LegKey("a", CreditLeg));
    BookedInLedger(Exec(run).wallet, "a", CreditLeg);
    BookedInLedger(Exec(run + LegRun(0, "a", CompensateLeg, entry)).wallet, "a", CreditLeg);
  }

  lemma BookedInLedger(w: W.Sys, t: TransferId, leg: Leg)
    ensures Booked(w, t, leg) <==> WS.HasKey(w.db.ledger, LegKey(t, leg))
  {
  }

  lemma RepaidIsBooked(s: Sys, i: nat)
    requires Inv(s) && i < |s.transfers.sagas| && s.transfers.sagas[i].saga.tr.Some?
    requires s.transfers.sagas[i].saga.pc.Finished? && s.transfers.sagas[i].saga.pc.result.Err?
    requires s.transfers.sagas[i].saga.repaid == Some(true)
    ensures Booked(s.wallet, s.transfers.sagas[i].saga.tr.value.id, DebitLeg)
    ensures Booked(s.wallet, s.transfers.sagas[i].saga.tr.value.id, CompensateLeg)
  {
    hide WalletOk, StoresOk, PipeOk, RowFacts, Booked;
    OneSaga(s, i);
    hide SagasOk;
  }

  // A run in which one reply is lost and nothing else fails: ten units came in, twenty are there.
  lemma LostReplyPaysTwice()
    ensures var s := Exec(LostReply());
            && PaidBoth(s)
            && Effect(s.wallet.db.ledger, s.transfers.sagas[0]) == 10
            && W.Holdings(s.wallet.db) == Deposits(s.wallet.db.ledger) + 10
  {
    hide Exec, Booked, Hold, LegRun, LegSent, Debited, Effect, W.Holdings, Deposits;
    var run := Debited(10) + LegSent(0, W.LegCall("a", CreditLeg), 0, 2) + [Cut];
    CreditIsLost();
    Repaid(run, Other(NoStatus), 0, 10, 3);
    StaysBooked(run, LegRun(0, "a", CompensateLeg, 3), "a", CreditLeg);
    PaidBothMakesMoney(LostReply());
  }

  // No reply is lost, but the call that broke is not stopped: the sender is repaid first, and the
  // wallet credits the receiver after.
  function LateCredit(): seq<Action> {
    Debited(10) + [Issue(0, 0)] + [Cut] + LegRun(0, "a", CompensateLeg, 2) + Advances(W.LegCall("a", CreditLeg), 3, 4)
  }

  lemma CreditIsUnderWay()
    ensures var s := Exec(Debited(10) + [Issue(0, 0)] + [Cut]);
            && At(s, 0, "a", S.Compensating(Other(NoStatus))) && Calm(s.transfers) && |s.transfers.sagas| == 1
            && Hold(s.wallet.db, 0, 0, 2)
            && W.LegCall("a", CreditLeg) in s.wallet.calls
            && s.wallet.calls[W.LegCall("a", CreditLeg)] == C.Begin(S.LegRequest(Made10("a"), CreditLeg))
            && !WS.HasKey(s.wallet.db.ledger, LegKey("a", CreditLeg))
  {
    hide Exec, Debited, WS.HasKey, C.Begin, CreditOut, Act, Hold;
    CreditGoesOut();
    OneMore(Debited(10) + [Issue(0, 0)], Cut);
    OutMayBeCut(Exec(Debited(10) + [Issue(0, 0)]));
    CutAct(Exec(Debited(10) + [Issue(0, 0)]));
  }

  lemma OutMayBeCut(s: Sys)
    requires CreditOut(s)
    ensures |s.transfers.sagas| == 1 && AtLeg(s.transfers, 0) && s.transfers.sagas[0].issued && Calm(s.transfers)
    ensures W.LegCall("a", CreditLeg) in s.wallet.calls
    ensures At(s.(transfers := s.transfers.(sagas := s.transfers.sagas[0 := s.transfers.sagas[0].(issued := false)])),
               0, "a", S.Crediting)
  {
    assert s.transfers.sagas[0 := s.transfers.sagas[0].(issued := false)] == [s.transfers.sagas[0].(issued := false)];
    hide Calm;
  }

  lemma LateCreditPaysTwice()
    ensures var s := Exec(LateCredit());
            && PaidBoth(s)
            && Effect(s.wallet.db.ledger, s.transfers.sagas[0]) == 10
            && W.Holdings(s.wallet.db) == Deposits(s.wallet.db.ledger) + 10
  {
    hide Exec, Inv, Booked, LegRun, Debited, Effect, W.Holdings, Deposits, C.Begin, C.Mutated, C.Admits, WS.HasKey,
        Continue, Advances;
    var run := Debited(10) + [Issue(0, 0)] + [Cut];
    CreditIsUnderWay();
    BookedInLedger(Exec(run).wallet, "a", CreditLeg);
    Repaid(run, Other(NoStatus), 0, 0, 2);
    var run2, credit := run + LegRun(0, "a", CompensateLeg, 2), W.LegCall("a", CreditLeg);
    var s2, req := Exec(run2), S.LegRequest(Made10("a"), CreditLeg);
    BookedInLedger(s2.wallet, "a", CreditLeg);
    InvHolds(run2);
    WalletIsSound(s2);
    C.StoredIsSolvent(s2.wallet.db, 1);
    Continued(run2, Advances(credit, 3, 4));
    CallEnds(s2, credit, req, 3);
    Pays(s2.wallet.db, req, 10, 0, 3);
    MutatedKeys(s2.wallet.db, req, 3);
    BookedInLedger(Exec(LateCredit()).wallet, "a", CreditLeg);
    StaysBooked(run2, Advances(credit, 3, 4), "a", DebitLeg);
    StaysBooked(run2, Advances(credit, 3, 4), "a", CompensateLeg);
    hide Hold;
    PaidBothMakesMoney(LateCredit());
  }

  // No reply is lost and nothing breaks, but the commit of the credit loses its acknowledgement: the
  // wallet reports a failure of a call that is in the ledger.
  function LostCommit(): seq<Action> {
    Debited(10) + [Issue(0, 0)] + Advances(W.LegCall("a", CreditLeg), 2, 2)
    + [Wallet(W.Advance(W.LegCall("a", CreditLeg), C.Choice(WS.AckLost, 2)))] + [End(0, Answered, 0)]
    + LegRun(0, "a", CompensateLeg, 3)
  }

  // Call 0 has its credit on the wire, and otherwise stands as it did after its debit.
  ghost predicate CreditOut(s: Sys) {
    && |s.transfers.sagas| == 1 && s.transfers.sagas[0].issued && Calm(s.transfers)
    && At(s.(transfers := s.transfers.(sagas := [s.transfers.sagas[0].(issued := false)])), 0, "a", S.Crediting)
    && W.LegCall("a", CreditLeg) in s.wallet.calls
  }

  lemma CreditFails()
    ensures var s := Exec(Debited(10) + [Issue(0, 0)] + Advances(W.LegCall("a", CreditLeg), 2, 2)
                          + [Wallet(W.Advance(W.LegCall("a", CreditLeg), C.Choice(WS.AckLost, 2)))]);
            && CreditOut(s)
            && s.wallet.calls[W.LegCall("a", CreditLeg)].pc == C.Done(C.Failed(L.Unavailable))
            && Hold(s.wallet.db, 0, 10, 3) && WS.HasKey(s.wallet.db.ledger, LegKey("a", CreditLeg))
  {
    hide Exec, Inv, Debited, WS.HasKey, C.Begin, Advances, C.Alone, C.Step, C.Mutated, C.Admits, Continue, CreditOut;
    var credit, req := W.LegCall("a", CreditLeg), S.LegRequest(Made10("a"), CreditLeg);
    var run := Debited(10);
    var run1 := run + [Issue(0, 0)];
    var run2 := run1 + Advances(credit, 2, 2);
    CreditGoesOut();
    var s1 := Exec(run1);
    InvHolds(run1);
    OutMayBeCut(s1);
    WalletIsSound(s1);
    C.StoredIsSolvent(s1.wallet.db, 1);
    Continued(run1, Advances(credit, 2, 2));
    Advanced(s1, credit, 2, 2);
    OneMore(run2, Wallet(W.Advance(credit, C.Choice(WS.AckLost, 2))));
    AdvanceAct(Exec(run2), credit, C.Choice(WS.AckLost, 2));
    Pays(s1.wallet.db, req, 0, 0, 2);
    C.UnacknowledgedCommit(s1.wallet.db, req, 2);
    MutatedKeys(s1.wallet.db, req, 2);
    hide Act, Hold;
    StillOut(s1, Exec(run2 + [Wallet(W.Advance(credit, C.Choice(WS.AckLost, 2)))]));
  }

  lemma StillOut(s: Sys, s': Sys)
    requires CreditOut(s) && s'.transfers == s.transfers && W.LegCall("a", CreditLeg) in s'.wallet.calls
    ensures CreditOut(s')
  {
  }

  lemma CreditGoesOut()
    ensures var s := Exec(Debited(10) + [Issue(0, 0)]);
            && CreditOut(s) && Hold(s.wallet.db, 0, 0, 2)
            && s.wallet.calls[W.LegCall("a", CreditLeg)] == C.Begin(S.LegRequest(Made10("a"), CreditLeg))
            && !WS.HasKey(s.wallet.db.ledger, LegKey("a", CreditLeg))
  {
    hide Exec, Inv, Debited, WS.HasKey, C.Begin;
    IsDebited();
    var run := Debited(10);
    InvHolds(run);
    var s := Exec(run);
    AtLegIsReady(s, 0, "a", S.Crediting);
    LegIsFresh(s, 0);
    CalmAllows(s, 0, 0);
    OneMore(run, Issue(0, 0));
    IssueAct(s, 0, 0);
    hide Act, Hold, Allowed;
  }

  lemma FailureAnswered(s: Sys)
    requires CreditOut(s) && s.wallet.calls[W.LegCall("a", CreditLeg)].pc == C.Done(C.Failed(L.Unavailable))
    ensures var s' := Act(s, End(0, Answered, 0));
            && At(s', 0, "a", S.Compensating(Other(Status(Internal)))) && Calm(s'.transfers) && s'.wallet == s.wallet
            && |s'.transfers.sagas| == 1
  {
    var trace := TraceOf(s.transfers, s.transfers.sagas[0].proc);
    assert trace + [] == trace;
    hide C.Begin, S.LegRequest;
  }

  lemma LostCommitPaysTwice()
    ensures var s := Exec(LostCommit());
            && PaidBoth(s)
            && Effect(s.wallet.db.ledger, s.transfers.sagas[0]) == 10
            && W.Holdings(s.wallet.db) == Deposits(s.wallet.db.ledger) + 10
  {
    hide Exec, Booked, Hold, LegRun, Debited, Effect, W.Holdings, Deposits, Act, Advances, CreditOut, At;
    var run := Debited(10) + [Issue(0, 0)] + Advances(W.LegCall("a", CreditLeg), 2, 2)
               + [Wallet(W.Advance(W.LegCall("a", CreditLeg), C.Choice(WS.AckLost, 2)))];
    CreditFails();
    OneMore(run, End(0, Answered, 0));
    FailureAnswered(Exec(run));
    BookedInLedger(Exec(run).wallet, "a", CreditLeg);
    BookedInLedger(Exec(run + [End(0, Answered, 0)]).wallet, "a", CreditLeg);
    Repaid(run + [End(0, Answered, 0)], Other(Status(Internal)), 0, 10, 3);
    PaidBothMakesMoney(LostCommit());
  }

  /******* A compensation that fails *******/

  // The receiver's wallet is full, so the credit is refused; by the time of the compensation
  // the sender's is full, too.
  function Full(): seq<Action> {
    Debited(10) + OutsideCall(1, Deposit(1, L.MaxInt64, "fill 1"), 2)
    + LegRun(0, "a", CreditLeg, 3)
    + OutsideCall(2, Deposit(0, L.MaxInt64, "fill 0"), 3)
  }

  function FailedRepayment(): seq<Action> {
    Full() + LegRun(0, "a", CompensateLeg, 4)
  }

  lemma SeededOnly()
    ensures var s := Exec(Debited(10));
            && W.External(1) !in s.wallet.calls && W.External(2) !in s.wallet.calls
            && !WS.HasKey(s.wallet.db.ledger, Named("fill 1")) && !WS.HasKey(s.wallet.db.ledger, Named("fill 0"))
  {
    hide Exec, Hold, Asking, Funding, OnlyLeg, LegRun;
    Funded(10);
    AskingRuns(Funding(10), 0, "a");
    var run := Funding(10) + Asking(0, "a");
    LegPays(run, 0, "a", S.Debiting, 10, 0, 1);
    LegAdds(Exec(run), Exec(run + LegRun(0, "a", DebitLeg, 1)), 0, "a", DebitLeg, None);
    var e := C.NewEntry(S.LegRequest(Made10("a"), DebitLeg), 1);
    AppendedKey(Exec(run).wallet.db.ledger, e, Named("fill 1"));
    AppendedKey(Exec(run).wallet.db.ledger, e, Named("fill 0"));
  }

  lemma LegAdds(s: Sys, s': Sys, i: nat, id: TransferId, leg: Leg, err: Option<ClientError>)
    requires OnlyLeg(s, s', i, id, leg, err)
    ensures s'.wallet.calls.Keys == s.wallet.calls.Keys + {W.LegCall(id, leg)}
        && s'.wallet.calls[W.LegCall(id, leg)].pc.Done?
    ensures Calm(s'.transfers) && |s'.transfers.sagas| == |s.transfers.sagas|
    ensures s'.transfers.sagas[i].saga == S.On(s.transfers.sagas[i].saga, S.WalletSaid(err))
    ensures !s'.transfers.sagas[i].issued && !s'.transfers.sagas[i].dead
  {
  }

  lemma BothFull()
    ensures var s := Exec(Full());
            && At(s, 0, "a", S.Compensating(Other(Status(Internal)))) && Calm(s.transfers) && |s.transfers.sagas| == 1
            && Hold(s.wallet.db, L.MaxInt64, L.MaxInt64, 4)
            && Closed(s, 0, CreditLeg) && !Booked(s.wallet, "a", CreditLeg)
  {
    hide Exec, Debited, OnlyLeg, LegRun, Deposit, WS.HasKey, OutsideCall, Hold;
    IsDebited();
    SeededOnly();
    var run := Debited(10);
    var run1 := run + OutsideCall(1, Deposit(1, L.MaxInt64, "fill 1"), 2);
    FillingUp(run, 1, 1, "fill 1", 0, 0, 2, Named("fill 0"));
    SameAt(Exec(run), Exec(run1), 0, "a", S.Crediting);
    var run2 := run1 + LegRun(0, "a", CreditLeg, 3);
    var e := Other(Status(Internal));
    LegOverflows(run1, 0, "a", S.Crediting, 0, L.MaxInt64, 3);
    LegAdds(Exec(run1), Exec(run2), 0, "a", CreditLeg, Some(e));
    FillingUp(run2, 2, 0, "fill 0", 0, L.MaxInt64, 3, LegKey("a", CreditLeg));
    SameAt(Exec(run2), Exec(Full()), 0, "a", S.Compensating(e));
    DoneIsClosed(Exec(Full()), 0, "a", S.Compensating(e), CreditLeg);
    BookedInLedger(Exec(Full()).wallet, "a", CreditLeg);
  }

  lemma DoneIsClosed(s: Sys, i: nat, id: TransferId, pc: S.Pc, leg: Leg)
    requires At(s, i, id, pc) && W.LegCall(id, leg) in s.wallet.calls && s.wallet.calls[W.LegCall(id, leg)].pc.Done?
    ensures Closed(s, i, leg)
  {
  }

  lemma SameAt(s: Sys, s': Sys, i: nat, id: TransferId, pc: S.Pc)
    requires At(s, i, id, pc) && s'.transfers == s.transfers
    ensures At(s', i, id, pc)
  {
  }

  // An outside deposit, and what it leaves free.
  lemma FillingUp(run: seq<Action>, n: nat, w: L.WalletId, key: string, a: int, b: int, entry: nat, other: Key)
    requires Hold(Exec(run).wallet.db, a, b, entry) && entry < 100 && (w == 0 || w == 1)
        && (if w == 0 then a else b) == 0
    requires W.External(n) !in Exec(run).wallet.calls && WellNamed(Named(key)) && key != "" && other != Named(key)
    requires !WS.HasKey(Exec(run).wallet.db.ledger, Named(key))
    ensures var s, s' := Exec(run), Exec(run + OutsideCall(n, Deposit(w, L.MaxInt64, key), entry));
            && s'.transfers == s.transfers
            && s'.wallet.calls.Keys == s.wallet.calls.Keys + {W.External(n)}
            && (forall id :: id in s.wallet.calls ==> s'.wallet.calls[id] == s.wallet.calls[id])
            && Hold(s'.wallet.db, if w == 0 then L.MaxInt64 else a, if w == 1 then L.MaxInt64 else b, entry + 1)
            && (WS.HasKey(s'.wallet.db.ledger, other) <==> WS.HasKey(s.wallet.db.ledger, other))
  {
    hide Exec, WS.HasKey, OutsideCall, Hold;
    Deposited(run, n, w, L.MaxInt64, key, a, b, entry);
    AppendedKey(Exec(run).wallet.db.ledger, C.NewEntry(Deposit(w, L.MaxInt64, key), entry), other);
  }

  // A run in which a compensation reaches the wallet and is refused: the attempt is finished,
  // its debit is in the ledger and neither credit is, nor ever will be.
  lemma CompensationFails(more: seq<Action>)
    ensures var s := Exec(FailedRepayment());
            && |s.transfers.sagas| == 1 && s.transfers.sagas[0].saga.tr == Some(Made10("a"))
            && s.transfers.sagas[0].saga.pc == S.Finished(Err(S.Wallet(Other(Status(Internal)))))
            && s.transfers.sagas[0].saga.repaid == Some(false)
            && Effect(s.wallet.db.ledger, s.transfers.sagas[0]) == -10
    ensures var w := Exec(FailedRepayment() + more).wallet;
            Booked(w, "a", DebitLeg) && !Booked(w, "a", CreditLeg) && !Booked(w, "a", CompensateLeg)
  {
    hide Exec, Inv, Booked, OnlyLeg, LegRun, Full, Hold, At, Closed, WS.HasKey;
    BothFull();
    var e := Other(Status(Internal));
    var run, done := Full(), FailedRepayment();
    InvHolds(run);
    AtAttempt(Exec(run), 0, "a", S.Compensating(e));
    CompensatingIsDebited(Exec(run), 0);
    LegOverflows(run, 0, "a", S.Compensating(e), L.MaxInt64, L.MaxInt64, 4);
    RefusedRepayment(Exec(run), Exec(done), e, e);
    BookedInLedger(Exec(run).wallet, "a", CompensateLeg);
    BookedInLedger(Exec(done).wallet, "a", CompensateLeg);
    assert done + more == run + (LegRun(0, "a", CompensateLeg, 4) + more);
    StaysBooked(run, LegRun(0, "a", CompensateLeg, 4), "a", DebitLeg);
    StaysBooked(done, more, "a", DebitLeg);
    ClosedForGood(run, LegRun(0, "a", CompensateLeg, 4), 0, CreditLeg);
    ClosedForGood(done, more, 0, CreditLeg);
    ClosedForGood(done, more, 0, CompensateLeg);
    assert Effect(Exec(done).wallet.db.ledger, Exec(done).transfers.sagas[0]) == -10 by {
      BookedInLedger(Exec(done).wallet, "a", DebitLeg);
      BookedInLedger(Exec(done).wallet, "a", CreditLeg);
    }
  }

  lemma AtAttempt(s: Sys, i: nat, id: TransferId, pc: S.Pc)
    requires At(s, i, id, pc)
    ensures i < |s.transfers.sagas| && s.transfers.sagas[i].saga == S.Saga(Ten, Some(Made10(id)), pc, None)
  {
  }

  lemma RefusedRepayment(s: Sys, s': Sys, e: ClientError, f: ClientError)
    requires At(s, 0, "a", S.Compensating(e)) && OnlyLeg(s, s', 0, "a", CompensateLeg, Some(f))
        && |s.transfers.sagas| == 1
    ensures |s'.transfers.sagas| == 1 && s'.transfers.sagas[0].saga.tr == Some(Made10("a"))
    ensures s'.transfers.sagas[0].saga.pc == S.Finished(Err(S.Wallet(e)))
        && s'.transfers.sagas[0].saga.repaid == Some(false)
    ensures Closed(s', 0, CompensateLeg)
  {
    hide Calm;
  }
}
