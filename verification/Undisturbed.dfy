/**
  Runs in which, from some state on, one party acts and nothing fails: a call from outside, or
  one leg of a Create call, from its request to its answer.
 */
module Undisturbed {
  import opened Wrappers
  import opened Keys
  import L = Ledger
  import WS = WalletStore
  import C = WalletCalls
  import W = WalletRuns
  import B = Breaker
  import opened WalletClient
  import T = TransferStore
  import S = Saga
  import opened Platform
  import opened PlatformInv
  import opened PlatformSteps

  ghost function Continue(s: Sys, more: seq<Action>): Sys {
    if more == [] then s else Act(Continue(s, more[..|more| - 1]), more[|more| - 1])
  }

  lemma {:induction false} Continued(run: seq<Action>, more: seq<Action>)
    ensures Exec(run + more) == Continue(Exec(run), more)
    decreases |more|
  {
    hide Act;
    if more == [] {
      assert run + more == run;
    } else {
      Continued(run, more[..|more| - 1]);
      assert (run + more)[..|run + more| - 1] == run + more[..|more| - 1];
    }
  }

  lemma {:induction false} ContinueJoins(s: Sys, a: seq<Action>, b: seq<Action>)
    ensures Continue(s, a + b) == Continue(Continue(s, a), b)
    decreases |b|
  {
    hide Act;
    if b == [] {
      assert a + b == a;
    } else {
      ContinueJoins(s, a, b[..|b| - 1]);
      assert (a + b)[..|a + b| - 1] == a + b[..|b| - 1];
    }
  }

  lemma ContinueOne(s: Sys, a: Action)
    ensures Continue(s, [a]) == Act(s, a)
  {
    hide Act;
    assert [a][..0] == [];
  }

  lemma {:induction false} ContinueKeepsInv(s: Sys, more: seq<Action>)
    requires Inv(s)
    ensures Inv(Continue(s, more))
    decreases |more|
  {
    hide Act, Inv;
    if more != [] {
      ContinueKeepsInv(s, more[..|more| - 1]);
      ActKeepsInv(Continue(s, more[..|more| - 1]), more[|more| - 1]);
    }
  }

  /******* A wallet call *******/

  function Advances(id: W.CallId, entry: L.EntryId, n: nat): seq<Action> {
    seq(n, _ => Wallet(W.Advance(id, C.Choice(WS.NoFault, entry))))
  }

  lemma AdvanceAct(s: Sys, id: W.CallId, choice: C.Choice)
    requires id in s.wallet.calls
    ensures Act(s, Wallet(W.Advance(id, choice)))
         == s.(wallet := var (db, c) := C.Step(s.wallet.db, s.wallet.calls[id], choice); W.Sys(db,
             s.wallet.calls[id := c]))
  {
    hide C.Step;
  }

  lemma {:induction false} Advanced(s: Sys, id: W.CallId, entry: L.EntryId, n: nat)
    requires id in s.wallet.calls
    ensures var (db, c) := C.Alone(s.wallet.db, s.wallet.calls[id], entry, n);
            Continue(s, Advances(id, entry, n)) == s.(wallet := W.Sys(db, s.wallet.calls[id := c]))
    decreases n
  {
    hide Act, C.Step;
    if n == 0 {
      assert s.wallet.calls[id := s.wallet.calls[id]] == s.wallet.calls;
    } else {
      Advanced(s, id, entry, n - 1);
      assert Advances(id, entry, n)[..n - 1] == Advances(id, entry, n - 1);
      var (db, c) := C.Alone(s.wallet.db, s.wallet.calls[id], entry, n - 1);
      AdvanceAct(s.(wallet := W.Sys(db, s.wallet.calls[id := c])), id, C.Choice(WS.NoFault, entry));
    }
  }

  // A call has just arrived; four accesses later it is done, as exact arithmetic says.
  lemma CallEnds(s: Sys, id: W.CallId, req: C.Request, entry: L.EntryId)
    requires WS.Sound(s.wallet.db) && id in s.wallet.calls && s.wallet.calls[id] == C.Begin(req)
    ensures var s' := Continue(s, Advances(id, entry, 4));
            && id in s'.wallet.calls
            && s' == s.(wallet := W.Sys(C.Mutated(s.wallet.db, req, entry), s.wallet.calls[id := s'.wallet.calls[id]]))
            && s'.wallet.calls[id].pc.Done?
            && C.Answers(s'.wallet.db, req, entry, C.Verdict(s.wallet.db, req, entry), s'.wallet.calls[id].pc.outcome)
  {
    hide Continue, C.Begin, WS.Sound, C.Mutated, C.Answers, C.Verdict, C.Alone;
    Advanced(s, id, entry, 4);
    C.UndisturbedCallCommitsIff(s.wallet.db, req, entry);
  }

  function OutsideCall(n: nat, req: C.Request, entry: L.EntryId): seq<Action> {
    [Wallet(W.Arrive(W.External(n), req))] + Advances(W.External(n), entry, 4)
  }

  lemma OutsideCallEnds(s: Sys, n: nat, req: C.Request, entry: L.EntryId)
    requires WS.Sound(s.wallet.db) && W.External(n) !in s.wallet.calls && req.key.Named? && WellNamed(req.key)
    ensures var s' := Continue(s, OutsideCall(n, req, entry));
            && s'.transfers == s.transfers && s'.pipe == s.pipe
            && s'.wallet.db == C.Mutated(s.wallet.db, req, entry)
            && s'.wallet.calls.Keys == s.wallet.calls.Keys + {W.External(n)}
            && (forall id :: id in s.wallet.calls ==> s'.wallet.calls[id] == s.wallet.calls[id])
  {
    hide Continue, WS.Sound, C.Mutated, C.Answers, C.Verdict, C.Begin;
    var arrive := Wallet(W.Arrive(W.External(n), req));
    ContinueJoins(s, [arrive], Advances(W.External(n), entry, 4));
    ContinueOne(s, arrive);
    CallEnds(Act(s, arrive), W.External(n), req, entry);
  }

  /******* A leg of a Create call *******/

  predicate Ready(s: Sys, i: nat) {
    AtLeg(s.transfers, i) && !s.transfers.sagas[i].issued
  }

  ghost predicate Allowed(s: Sys, i: nat, now: nat)
    requires i < |s.transfers.sagas|
  {
    !B.Refuses(TraceOf(s.transfers, s.transfers.sagas[i].proc), now, Threshold, Cooldown)
  }

  function RequestOf(r: Running): C.Request
    requires r.saga.tr.Some? && S.LegOf(r.saga.pc).Some?
  {
    S.LegRequest(r.saga.tr.value, S.LegOf(r.saga.pc).value)
  }

  // The request goes out and the wallet carries it out.
  function LegSent(i: nat, call: W.CallId, now: nat, entry: L.EntryId): seq<Action> {
    [Issue(i, now)] + Advances(call, entry, 4)
  }

  lemma IssueAct(s: Sys, i: nat, now: nat)
    requires Ready(s, i) && Allowed(s, i, now) && LegCallOf(s.transfers.sagas[i]) !in s.wallet.calls
    ensures var r := s.transfers.sagas[i];
            Act(s, Issue(i, now))
            == Sys(s.wallet.(calls := s.wallet.calls[LegCallOf(r) := C.Begin(RequestOf(r))]),
                   s.transfers.(sagas := s.transfers.sagas[i := r.(issued := true)]), s.pipe)
  {
    hide B.Refuses, C.Begin, S.LegRequest;
  }

  lemma LegIsFresh(s: Sys, i: nat)
    requires Inv(s) && Ready(s, i)
    ensures LegCallOf(s.transfers.sagas[i]) !in s.wallet.calls
    ensures !WS.HasKey(s.wallet.db.ledger, RequestOf(s.transfers.sagas[i]).key)
    ensures WS.Sound(s.wallet.db) && s.transfers.sagas[i].saga.tr.value.amount > 0
  {
    hide StoresOk, PipeOk, RowFacts;
    var r := s.transfers.sagas[i];
    OneSaga(s, i);
    hide SagasOk;
    FreshLeg(s.wallet, r);
    UncalledIsNotBooked(s.wallet, r.saga.tr.value.id, S.LegOf(r.saga.pc).value);
  }

  // From s to s', the wallet has carried out the leg that call i waits for.
  ghost predicate Carried(s: Sys, s': Sys, i: nat, entry: L.EntryId)
    requires Ready(s, i)
  {
    var r := s.transfers.sagas[i];
    var call := LegCallOf(r);
    && call in s'.wallet.calls
    && s' == Sys(W.Sys(C.Mutated(s.wallet.db, RequestOf(r), entry), s.wallet.calls[call := s'.wallet.calls[call]]),
                 s.transfers.(sagas := s.transfers.sagas[i := r.(issued := true)]), s.pipe)
    && s'.wallet.calls[call].pc.Done?
    && C.Answers(s'.wallet.db, RequestOf(r), entry, C.Verdict(s.wallet.db, RequestOf(r), entry),
                 s'.wallet.calls[call].pc.outcome)
  }

  lemma LegSentEnds(s: Sys, i: nat, now: nat, entry: L.EntryId)
    requires Inv(s) && Ready(s, i) && Allowed(s, i, now)
    ensures Carried(s, Continue(s, LegSent(i, LegCallOf(s.transfers.sagas[i]), now, entry)), i, entry)
  {
    hide Inv, Continue, Act, C.Mutated, C.Answers, C.Verdict, WS.Sound, Allowed, RequestOf, C.Begin, WS.HasKey;
    var r := s.transfers.sagas[i];
    LegIsFresh(s, i);
    IssueAct(s, i, now);
    ContinueJoins(s, [Issue(i, now)], Advances(LegCallOf(r), entry, 4));
    ContinueOne(s, Issue(i, now));
    CallEnds(Act(s, Issue(i, now)), LegCallOf(r), RequestOf(r), entry);
  }

  function LegAlone(i: nat, call: W.CallId, now: nat, entry: L.EntryId): seq<Action> {
    LegSent(i, call, now, entry) + [End(i, Answered, now)]
  }

  // What the saga is told of the outcome of a call that the wallet has answered.
  function Told(o: C.Outcome): (err: Option<ClientError>)
    ensures err.None? <==> o.Succeeded?
  {
    AnswersNeverTrip(C.Reported(o));
    MapErr(Reply(C.Reported(o)))
  }

  function CallOf(s: Sys, i: nat): C.Call
    requires AtLeg(s.transfers, i) && LegCallOf(s.transfers.sagas[i]) in s.wallet.calls
  {
    s.wallet.calls[LegCallOf(s.transfers.sagas[i])]
  }

  // What call i and its breaker come to when its leg has ended with this outcome.
  ghost predicate Heard(t: Transfers, t': Transfers, i: nat, o: C.Outcome)
    requires i < |t.sagas|
  {
    && t'.db == t.db && t'.cache == t.cache && t'.owner == t.owner
    && |t'.sagas| == |t.sagas|
    && t'.sagas == t.sagas[i := t'.sagas[i]]
    && t'.sagas[i].saga == S.On(t.sagas[i].saga, S.WalletSaid(Told(o)))
    && t'.sagas[i].proc == t.sagas[i].proc && t'.sagas[i].dead == t.sagas[i].dead && !t'.sagas[i].issued
    && t'.circuits == t.circuits[t.sagas[i].proc := TraceOf(t, t.sagas[i].proc) + if o.Succeeded?
        then [B.Succeeded(i)] else []]
  }

  lemma AnswerAct(s: Sys, i: nat, now: nat)
    requires MayEnd(s, i, Answered)
    ensures var s' := Act(s, End(i, Answered, now));
            && s'.wallet == s.wallet && s'.pipe == s.pipe
            && Heard(s.transfers, s'.transfers, i, CallOf(s, i).pc.outcome)
  {
    AnswersNeverTrip(C.Reported(CallOf(s, i).pc.outcome));
    hide S.On, ServerCode, MapErr;
  }

  // From s to s', the leg that call i waited for has been carried out and answered.
  ghost predicate Concluded(s: Sys, s': Sys, i: nat, entry: L.EntryId)
    requires Ready(s, i)
  {
    var r := s.transfers.sagas[i];
    && s'.wallet.db == C.Mutated(s.wallet.db, RequestOf(r), entry)
    && s'.wallet.calls.Keys == s.wallet.calls.Keys + {LegCallOf(r)}
    && s'.wallet.calls[LegCallOf(r)].pc.Done?
    && (forall id :: id in s.wallet.calls && id != LegCallOf(r) ==> s'.wallet.calls[id] == s.wallet.calls[id])
    && s'.pipe == s.pipe
    && exists o :: Heard(s.transfers, s'.transfers, i, o) && Settles(s.wallet.db, RequestOf(r), entry, o)
  }

  // The outcome is a success if and only if the wallet admits the request, and names the reason if not.
  predicate Settles(db: WS.Db, req: C.Request, entry: L.EntryId, o: C.Outcome) {
    && (o.Succeeded? <==> C.Admits(db, req, entry))
    && (o.Succeeded? <==> C.Verdict(db, req, entry).Ok?)
    && (o.Failed? ==> C.Verdict(db, req, entry) == Err(o.error))
  }

  // What the saga is told of a request with this verdict.
  function Seen(verdict: Result<L.EntryId, L.Error>): Option<ClientError> {
    if verdict.Ok? then None else MapErr(Reply(Err(verdict.error)))
  }

  // One leg, alone, from its request to its answer: it is applied if and only if the wallet
  // admits it, and the saga is told so.
  lemma LegAloneEnds(s: Sys, i: nat, now: nat, entry: L.EntryId)
    requires Inv(s) && Ready(s, i) && Allowed(s, i, now)
    ensures Concluded(s, Continue(s, LegAlone(i, LegCallOf(s.transfers.sagas[i]), now, entry)), i, entry)
  {
    var r := s.transfers.sagas[i];
    LegIsFresh(s, i);
    hide Inv, Continue, Act, C.Mutated, WS.Sound, Allowed, RequestOf, WS.HasKey, Heard, C.Admits, Carried, Concluded,
        MayEnd;
    LegSentEnds(s, i, now, entry);
    var s1 := Continue(s, LegSent(i, LegCallOf(r), now, entry));
    ContinueJoins(s, LegSent(i, LegCallOf(r), now, entry), [End(i, Answered, now)]);
    ContinueOne(s1, End(i, Answered, now));
    CarriedMayEnd(s, s1, i, entry);
    AnswerAct(s1, i, now);
    ConcludedFrom(s, s1, Act(s1, End(i, Answered, now)), i, entry);
  }

  lemma ConcludedFrom(s: Sys, s1: Sys, s2: Sys, i: nat, entry: L.EntryId)
    requires Ready(s, i) && Carried(s, s1, i, entry)
        && !WS.HasKey(s.wallet.db.ledger, RequestOf(s.transfers.sagas[i]).key)
    requires MayEnd(s1, i, Answered) && s2.wallet == s1.wallet && s2.pipe == s1.pipe
    requires Heard(s1.transfers, s2.transfers, i, CallOf(s1, i).pc.outcome)
    ensures Concluded(s, s2, i, entry)
  {
    hide C.Mutated, WS.HasKey, RequestOf, Heard, C.Admits, C.Verdict, Carried, MayEnd, Settles;
    CarriedMayEnd(s, s1, i, entry);
    HeardFrom(s.transfers, s1.transfers, s2.transfers, i, CallOf(s1, i).pc.outcome);
  }

  lemma CarriedMayEnd(s: Sys, s1: Sys, i: nat, entry: L.EntryId)
    requires Ready(s, i) && Carried(s, s1, i, entry)
    requires !WS.HasKey(s.wallet.db.ledger, RequestOf(s.transfers.sagas[i]).key)
    ensures MayEnd(s1, i, Answered) && AtLeg(s1.transfers, i)
    ensures LegCallOf(s1.transfers.sagas[i]) == LegCallOf(s.transfers.sagas[i])
    ensures CallOf(s1, i).pc.Done?
    ensures Settles(s.wallet.db, RequestOf(s.transfers.sagas[i]), entry, CallOf(s1, i).pc.outcome)
    ensures s1.wallet.db == C.Mutated(s.wallet.db, RequestOf(s.transfers.sagas[i]), entry)
    ensures s1.wallet.calls.Keys == s.wallet.calls.Keys + {LegCallOf(s.transfers.sagas[i])}
    ensures forall id :: id in s.wallet.calls && id != LegCallOf(s.transfers.sagas[i]) ==>
        s1.wallet.calls[id] == s.wallet.calls[id]
    ensures s1.transfers == s.transfers.(sagas := s.transfers.sagas[i := s.transfers.sagas[i].(issued := true)])
    ensures s1.pipe == s.pipe
  {
    AdmitsMeansOk(s.wallet.db, RequestOf(s.transfers.sagas[i]), entry);
    hide C.Mutated, C.Verdict, C.Admits, RequestOf, WS.HasKey;
  }

  lemma HeardFrom(t: Transfers, t1: Transfers, t2: Transfers, i: nat, o: C.Outcome)
    requires i < |t.sagas| && t1 == t.(sagas := t.sagas[i := t.sagas[i].(issued := true)]) && Heard(t1, t2, i, o)
    ensures Heard(t, t2, i, o)
  {
  }

  // With a new key and a positive amount, an answer of success is a commit.
  lemma AdmitsMeansOk(db: WS.Db, req: C.Request, entry: L.EntryId)
    requires !WS.HasKey(db.ledger, req.key)
    ensures C.Verdict(db, req, entry).Ok? <==> C.Admits(db, req, entry)
  {
  }

  /******* A compensation *******/

  // Once the debit is in the ledger, the sender's wallet is there for good.
  lemma DebitedWalletIsOpen(s: Sys, i: nat)
    requires WalletOk(s.wallet) && SagasOk(s.wallet, s.transfers) && i < |s.transfers.sagas|
    requires s.transfers.sagas[i].saga.tr.Some? && Booked(s.wallet, s.transfers.sagas[i].saga.tr.value.id, DebitLeg)
    ensures s.transfers.sagas[i].saga.tr.value.from in s.wallet.db.balances
  {
    var tr := s.transfers.sagas[i].saga.tr.value;
    OneSaga(s, i);
    var d :| 0 <= d < |s.wallet.db.ledger| && s.wallet.db.ledger[d].key == LegKey(tr.id, DebitLeg);
    assert Stems(s.wallet, s.wallet.db.ledger[d]);
    hide LegFacts, RowFacts, RowsOk, C.Knows;
  }

  // A credit of the sender has no other way to fail, alone, than that it does not fit.
  lemma RepaymentFits(db: WS.Db, req: C.Request, entry: L.EntryId)
    requires WS.Sound(db) && C.Acceptable(req) && req.wallet.value in db.balances && !WS.HasKey(db.ledger, req.key)
    requires req.typ == L.Credit
    ensures var b := db.balances[req.wallet.value];
            C.Admits(db, req, entry)
            <==> (b.minor as int + req.amount as int <= L.MaxInt64 && b.version < L.MaxInt64
                  && !WS.HasId(db.ledger, entry))
  {
    C.StoredIsSolvent(db, req.wallet.value);
    hide WS.Sound, WS.HasKey, WS.HasId;
  }

  lemma CompensationConcluded(s: Sys, s': Sys, i: nat, entry: L.EntryId)
    requires Ready(s, i) && s.transfers.sagas[i].saga.pc.Compensating? && Concluded(s, s', i, entry)
    requires !WS.HasKey(s.wallet.db.ledger, RequestOf(s.transfers.sagas[i]).key)
    ensures var applied := C.Admits(s.wallet.db, RequestOf(s.transfers.sagas[i]), entry);
            && s'.transfers.sagas[i].saga.pc == S.Finished(Err(S.Wallet(s.transfers.sagas[i].saga.pc.cause)))
            && s'.transfers.sagas[i].saga.repaid == Some(applied)
            && (Booked(s'.wallet, s.transfers.sagas[i].saga.tr.value.id, CompensateLeg) <==> applied)
  {
    MutatedKeys(s.wallet.db, RequestOf(s.transfers.sagas[i]), entry);
    hide C.Admits, C.Mutated, WS.HasKey;
  }

  lemma MutatedKeys(db: WS.Db, req: C.Request, entry: L.EntryId)
    requires !WS.HasKey(db.ledger, req.key)
    ensures WS.HasKey(C.Mutated(db, req, entry).ledger, req.key) <==> C.Admits(db, req, entry)
  {
    if C.Admits(db, req, entry) {
      assert C.Mutated(db, req, entry).ledger[|db.ledger|].key == req.key;
    }
    hide C.Admits, WS.HasKey;
  }

  // In every run: a compensation that the breaker lets through, and that nobody and nothing
  // disturbs, repays the sender if and only if the sender's balance plus the amount and the next
  // version fit in 64 bits and the entry's id is new.
  lemma UndisturbedCompensation(run: seq<Action>, i: nat, now: nat, entry: L.EntryId)
    requires Ready(Exec(run), i) && Exec(run).transfers.sagas[i].saga.pc.Compensating? && Allowed(Exec(run), i, now)
    ensures var s := Exec(run);
            var tr := s.transfers.sagas[i].saga.tr.value;
            var s' := Exec(run + LegAlone(i, W.LegCall(tr.id, CompensateLeg), now, entry));
            && tr.from in s.wallet.db.balances
            && var b := s.wallet.db.balances[tr.from];
               && (Booked(s'.wallet, tr.id, CompensateLeg)
                   <==> b.minor as int + tr.amount as int <= L.MaxInt64 && b.version < L.MaxInt64
                        && !WS.HasId(s.wallet.db.ledger, entry))
               && i < |s'.transfers.sagas|
               && s'.transfers.sagas[i].saga.pc == S.Finished(Err(S.Wallet(s.transfers.sagas[i].saga.pc.cause)))
               && s'.transfers.sagas[i].saga.repaid == Some(Booked(s'.wallet, tr.id, CompensateLeg))
  {
    hide Exec, StoresOk, PipeOk, WalletOk, SagasOk, Allowed, WS.Sound, WS.HasKey, WS.HasId, C.Admits, Act;
    InvHolds(run);
    var s := Exec(run);
    var r := s.transfers.sagas[i];
    LegIsFresh(s, i);
    CompensatingIsDebited(s, i);
    DebitedWalletIsOpen(s, i);
    RepaymentFits(s.wallet.db, RequestOf(r), entry);
    Continued(run, LegAlone(i, LegCallOf(r), now, entry));
    LegAloneEnds(s, i, now, entry);
    hide Concluded, LegAlone, Continue;
    CompensationConcluded(s, Continue(s, LegAlone(i, LegCallOf(r), now, entry)), i, entry);
  }

  lemma CompensatingIsDebited(s: Sys, i: nat)
    requires Inv(s) && i < |s.transfers.sagas| && s.transfers.sagas[i].saga.pc.Compensating?
        && s.transfers.sagas[i].saga.tr.Some?
    ensures Booked(s.wallet, s.transfers.sagas[i].saga.tr.value.id, DebitLeg)
  {
    hide WalletOk, StoresOk, PipeOk, RowFacts, Booked;
    OneSaga(s, i);
    hide SagasOk;
  }

  /******* All legs of an attempt *******/

  // A breaker whose last news was a success lets calls through.
  ghost predicate Trusting(s: Sys, i: nat)
    requires i < |s.transfers.sagas|
  {
    var trace := TraceOf(s.transfers, s.transfers.sagas[i].proc);
    trace != [] && trace[|trace| - 1].Succeeded?
  }

  lemma TrustingAllows(s: Sys, i: nat, now: nat)
    requires i < |s.transfers.sagas| && Trusting(s, i)
    ensures Allowed(s, i, now)
  {
  }

  lemma ConcludedSaga(s: Sys, s': Sys, i: nat, entry: L.EntryId) returns (err: Option<ClientError>)
    requires Ready(s, i) && Concluded(s, s', i, entry)
    ensures err.None? <==> C.Admits(s.wallet.db, RequestOf(s.transfers.sagas[i]), entry)
    ensures err == Seen(C.Verdict(s.wallet.db, RequestOf(s.transfers.sagas[i]), entry))
    ensures |s'.transfers.sagas| == |s.transfers.sagas|
    ensures s'.transfers.sagas[i].saga == S.On(s.transfers.sagas[i].saga, S.WalletSaid(err))
    ensures !s'.transfers.sagas[i].issued && !s'.transfers.sagas[i].dead
    ensures err.None? || Trusting(s, i) ==> Trusting(s', i)
  {
    hide C.Admits, C.Verdict, C.Mutated, S.On, RequestOf, LegCallOf;
    var o :| Heard(s.transfers, s'.transfers, i, o) && Settles(s.wallet.db, RequestOf(s.transfers.sagas[i]), entry, o);
    err := Told(o);
    var trace := TraceOf(s.transfers, s.transfers.sagas[i].proc);
    assert trace + [] == trace;
    hide Told;
  }

  // The next leg, alone, after which the saga is told whether the wallet admitted it.
  lemma NextLeg(run: seq<Action>, i: nat, leg: Leg, now: nat, entry: L.EntryId) returns (err: Option<ClientError>)
    requires Ready(Exec(run), i) && Allowed(Exec(run), i, now)
    requires S.LegOf(Exec(run).transfers.sagas[i].saga.pc) == Some(leg)
    ensures var s := Exec(run);
            var tr := s.transfers.sagas[i].saga.tr.value;
            var s' := Exec(run + LegAlone(i, W.LegCall(tr.id, leg), now, entry));
            && WS.Sound(s.wallet.db) && tr.amount > 0 && !WS.HasKey(s.wallet.db.ledger, LegKey(tr.id, leg))
            && s'.wallet.db == C.Mutated(s.wallet.db, S.LegRequest(tr, leg), entry)
            && (err.None? <==> C.Admits(s.wallet.db, S.LegRequest(tr, leg), entry))
            && err == Seen(C.Verdict(s.wallet.db, S.LegRequest(tr, leg), entry))
            && |s'.transfers.sagas| == |s.transfers.sagas|
            && s'.transfers.sagas[i].saga == S.On(s.transfers.sagas[i].saga, S.WalletSaid(err))
            && !s'.transfers.sagas[i].issued && !s'.transfers.sagas[i].dead
            && (err.None? || Trusting(s, i) ==> Trusting(s', i))
  {
    hide Exec, Inv, Allowed, Concluded, C.Admits, C.Verdict, C.Mutated, Continue, Act, S.On, WS.HasKey, WS.Sound,
        Trusting, Seen;
    InvHolds(run);
    var s := Exec(run);
    LegRequestKey(s.transfers.sagas[i].saga.tr.value, leg);
    LegIsFresh(s, i);
    Continued(run, LegAlone(i, LegCallOf(s.transfers.sagas[i]), now, entry));
    LegAloneEnds(s, i, now, entry);
    var s' := Continue(s, LegAlone(i, LegCallOf(s.transfers.sagas[i]), now, entry));
    ConcludedDb(s, s', i, entry);
    err := ConcludedSaga(s, s', i, entry);
    hide LegAlone, S.LegRequest;
  }

  lemma ConcludedDb(s: Sys, s': Sys, i: nat, entry: L.EntryId)
    requires Ready(s, i) && Concluded(s, s', i, entry)
    ensures s'.wallet.db == C.Mutated(s.wallet.db, RequestOf(s.transfers.sagas[i]), entry)
  {
  }

  // The three entries an attempt may make have new ids, and no version runs out on the way.
  ghost predicate Room(db: WS.Db, tr: T.Transfer, e1: L.EntryId, e2: L.EntryId, e3: L.EntryId) {
    && e1 != e2 && e1 != e3 && e2 != e3
    && !WS.HasId(db.ledger, e1) && !WS.HasId(db.ledger, e2) && !WS.HasId(db.ledger, e3)
    && (tr.from in db.balances ==> db.balances[tr.from].version <= L.MaxInt64 - 2)
    && (tr.to in db.balances ==> db.balances[tr.to].version < L.MaxInt64)
  }

  predicate Debitable(db: WS.Db, tr: T.Transfer) {
    tr.from in db.balances && tr.amount <= db.balances[tr.from].minor
  }

  predicate Creditable(db: WS.Db, tr: T.Transfer) {
    tr.to in db.balances && db.balances[tr.to].minor as int + tr.amount as int <= L.MaxInt64
  }

  // Why the sender is not debited: there is no such wallet, or too little in it.
  function NoDebit(db: WS.Db, tr: T.Transfer): ClientError {
    if tr.from in db.balances then InsufficientFunds else NoSuchWallet
  }

  // Why the receiver is not credited: there is no such wallet, or the database rejects the
  // balance, which is an internal error.
  function NoCredit(db: WS.Db, tr: T.Transfer): ClientError {
    if tr.to in db.balances then Other(Status(Internal)) else NoSuchWallet
  }

  lemma LegAdmitted(db: WS.Db, tr: T.Transfer, leg: Leg, entry: L.EntryId)
    requires WS.Sound(db) && tr.amount > 0 && !WS.HasKey(db.ledger, LegKey(tr.id, leg)) && !WS.HasId(db.ledger, entry)
    requires var w := if leg == CreditLeg then tr.to else tr.from; w in db.balances ==>
        db.balances[w].version < L.MaxInt64
    ensures leg == DebitLeg ==> (C.Admits(db, S.LegRequest(tr, leg), entry) <==> Debitable(db, tr))
    ensures leg == CreditLeg ==> (C.Admits(db, S.LegRequest(tr, leg), entry) <==> Creditable(db, tr))
    ensures leg == DebitLeg && !Debitable(db, tr) ==>
              Seen(C.Verdict(db, S.LegRequest(tr, leg), entry)) == Some(NoDebit(db, tr))
    ensures leg == CreditLeg && !Creditable(db, tr) ==>
              Seen(C.Verdict(db, S.LegRequest(tr, leg), entry)) == Some(NoCredit(db, tr))
    ensures leg == CompensateLeg ==>
              (C.Admits(db, S.LegRequest(tr, leg), entry)
               <==> tr.from in db.balances && db.balances[tr.from].minor as int + tr.amount as int <= L.MaxInt64)
  {
    var w := if leg == CreditLeg then tr.to else tr.from;
    if w in db.balances {
      C.StoredIsSolvent(db, w);
    }
    hide WS.Sound, WS.HasKey, WS.HasId;
  }

  ghost predicate SameMoney(a: WS.Db, b: WS.Db) {
    a.balances.Keys == b.balances.Keys && forall w :: w in a.balances ==> a.balances[w].minor == b.balances[w].minor
  }

  lemma AfterDebit(db: WS.Db, tr: T.Transfer, e1: L.EntryId, e2: L.EntryId, e3: L.EntryId)
    requires C.Admits(db, S.LegRequest(tr, DebitLeg), e1) && Room(db, tr, e1, e2, e3) && tr.from != tr.to
    ensures var db1 := C.Mutated(db, S.LegRequest(tr, DebitLeg), e1);
            && tr.from in db1.balances && db1.balances[tr.from].minor == db.balances[tr.from].minor - tr.amount
            && db1.balances[tr.from].version < L.MaxInt64
            && db1.balances.Keys == db.balances.Keys
            && (forall w :: w in db.balances && w != tr.from ==> db1.balances[w] == db.balances[w])
            && (Creditable(db1, tr) <==> Creditable(db, tr)) && NoCredit(db1, tr) == NoCredit(db, tr)
            && !WS.HasId(db1.ledger, e2) && !WS.HasId(db1.ledger, e3)
  {
  }

  lemma AfterPayment(db: WS.Db, tr: T.Transfer, leg: Leg, entry: L.EntryId)
    requires leg != DebitLeg && C.Admits(db, S.LegRequest(tr, leg), entry)
    ensures var w, db' := if leg == CreditLeg then tr.to else tr.from, C.Mutated(db, S.LegRequest(tr, leg), entry);
            && w in db.balances && db'.balances.Keys == db.balances.Keys
            && db'.balances[w].minor == db.balances[w].minor + tr.amount
            && forall x :: x in db.balances && x != w ==> db'.balances[x] == db.balances[x]
  {
  }

  // Call i attempts tr, is alive and has nothing on the wire.
  ghost predicate Stands(s: Sys, i: nat, tr: T.Transfer) {
    && i < |s.transfers.sagas| && s.transfers.sagas[i].saga.tr == Some(tr)
    && !s.transfers.sagas[i].issued && !s.transfers.sagas[i].dead
  }

  function Alone(i: nat, tr: T.Transfer, leg: Leg, now: nat, entry: L.EntryId): seq<Action> {
    LegAlone(i, W.LegCall(tr.id, leg), now, entry)
  }

  lemma AnswerMoves(s: S.Saga, s': S.Saga, err: Option<ClientError>)
    requires s' == S.On(s, S.WalletSaid(err))
    ensures s'.tr == s.tr
    ensures s.pc.Debiting? ==>
              if err.None? then s'.pc.Crediting? else s'.pc == S.Finished(Err(S.Wallet(err.value)))
    ensures s.pc.Crediting? ==> if err.None? then s'.pc.Inserting? else s'.pc == S.Compensating(err.value)
    ensures s.pc.Compensating? ==> s'.pc == S.Finished(Err(S.Wallet(s.pc.cause))) && s'.repaid == Some(err.None?)
  {
  }

  // In every run: from its debit on, a Create call that the breaker lets through, and that
  // nobody and nothing disturbs, is all or nothing. If the sender has the amount and the receiver
  // has room for it, it has gone from the one to the other; if not, every wallet holds
  // what it held, and the call fails, with the error of the debit or, compensated, of the credit.
  lemma AloneIsAllOrNothing(run: seq<Action>, i: nat, now: nat, e1: L.EntryId, e2: L.EntryId, e3: L.EntryId)
    requires Ready(Exec(run), i) && Exec(run).transfers.sagas[i].saga.pc.Debiting? && Allowed(Exec(run), i, now)
    requires Room(Exec(run).wallet.db, Exec(run).transfers.sagas[i].saga.tr.value, e1, e2, e3)
    ensures var db, tr := Exec(run).wallet.db, Exec(run).transfers.sagas[i].saga.tr.value;
            var run1 := run + Alone(i, tr, DebitLeg, now, e1);
            var run2 := run1 + Alone(i, tr, CreditLeg, now, e2);
            var run3 := run2 + Alone(i, tr, CompensateLeg, now, e3);
            if !Debitable(db, tr) then
              FailedWith(Exec(run1), i, tr, NoDebit(db, tr)) && SameMoney(db, Exec(run1).wallet.db)
            else if Creditable(db, tr) then
              && Stands(Exec(run2), i, tr) && Exec(run2).transfers.sagas[i].saga.pc.Inserting?
              && PaidOver(db, Exec(run2).wallet.db, tr)
            else FailedWith(Exec(run3), i, tr, NoCredit(db, tr)) && SameMoney(db, Exec(run3).wallet.db)
  {
    hide Exec, Allowed, Room, C.Admits, C.Verdict, C.Mutated, WS.Sound, WS.HasKey, WS.HasId, S.LegRequest, S.On, Alone,
        Debitable, Creditable, Trusting, Seen, NoDebit, NoCredit;
    var s := Exec(run);
    var db, tr := s.wallet.db, s.transfers.sagas[i].saga.tr.value;
    var run1 := run + Alone(i, tr, DebitLeg, now, e1);
    var s1 := Exec(run1);
    WalletsDiffer(run, i);
    var err := LegGoes(run, i, tr, DebitLeg, now, e1);
    RoomFor(db, tr, e1, e2, e3);
    LegAdmitted(db, tr, DebitLeg, e1);
    AnswerMoves(s.transfers.sagas[i].saga, s1.transfers.sagas[i].saga, err);
    if err.Some? {
      NotMutated(db, tr, DebitLeg, e1);
    } else {
      AfterDebit(db, tr, e1, e2, e3);
      DebitedThen(run1, i, tr, now, e2, e3, db);
    }
  }

  // In every run: alone, a call whose sender has too little, or has no wallet, moves nothing and
  // is answered so.
  lemma OverdraftIsTold(run: seq<Action>, i: nat, now: nat, entry: L.EntryId)
    requires Ready(Exec(run), i) && Exec(run).transfers.sagas[i].saga.pc.Debiting? && Allowed(Exec(run), i, now)
    requires !Debitable(Exec(run).wallet.db, Exec(run).transfers.sagas[i].saga.tr.value)
    ensures var db, tr := Exec(run).wallet.db, Exec(run).transfers.sagas[i].saga.tr.value;
            var s' := Exec(run + Alone(i, tr, DebitLeg, now, entry));
            && Stands(s', i, tr) && s'.wallet.db == db
            && s'.transfers.sagas[i].saga.pc
               == S.Finished(Err(S.Wallet(if tr.from in db.balances then InsufficientFunds else NoSuchWallet)))
  {
    hide Exec, Allowed, C.Admits, C.Verdict, C.Mutated, WS.Sound, WS.HasKey, S.LegRequest, S.On, Alone, Seen;
    var db, tr := Exec(run).wallet.db, Exec(run).transfers.sagas[i].saga.tr.value;
    var err := LegGoes(run, i, tr, DebitLeg, now, entry);
    DebitRefused(db, tr, entry);
    AnswerMoves(Exec(run).transfers.sagas[i].saga,
        Exec(run + Alone(i, tr, DebitLeg, now, entry)).transfers.sagas[i].saga,
        err);
    NotMutated(db, tr, DebitLeg, entry);
  }

  lemma DebitRefused(db: WS.Db, tr: T.Transfer, entry: L.EntryId)
    requires tr.amount > 0 && !WS.HasKey(db.ledger, LegKey(tr.id, DebitLeg)) && !Debitable(db, tr)
    ensures Seen(C.Verdict(db, S.LegRequest(tr, DebitLeg), entry)) == Some(NoDebit(db, tr))
    ensures !C.Admits(db, S.LegRequest(tr, DebitLeg), entry)
  {
    hide WS.HasKey;
  }

  ghost predicate FailedWith(s: Sys, i: nat, tr: T.Transfer, e: ClientError) {
    Stands(s, i, tr) && s.transfers.sagas[i].saga.pc == S.Finished(Err(S.Wallet(e)))
  }

  ghost predicate PaidOver(a: WS.Db, b: WS.Db, tr: T.Transfer) {
    && a.balances.Keys == b.balances.Keys && tr.from in a.balances && tr.to in a.balances
    && b.balances[tr.from].minor == a.balances[tr.from].minor - tr.amount
    && b.balances[tr.to].minor == a.balances[tr.to].minor + tr.amount
    && forall w :: w in a.balances && w != tr.from && w != tr.to ==> b.balances[w] == a.balances[w]
  }

  lemma WalletsDiffer(run: seq<Action>, i: nat)
    requires i < |Exec(run).transfers.sagas| && Exec(run).transfers.sagas[i].saga.tr.Some?
    ensures var tr := Exec(run).transfers.sagas[i].saga.tr.value; tr.from != tr.to
  {
    hide Exec, WalletOk, StoresOk, PipeOk, LegFacts, RowFacts;
    InvHolds(run);
    OneSaga(Exec(run), i);
    hide SagasOk;
  }

  lemma RoomFor(db: WS.Db, tr: T.Transfer, e1: L.EntryId, e2: L.EntryId, e3: L.EntryId)
    requires Room(db, tr, e1, e2, e3)
    ensures e2 != e3 && !WS.HasId(db.ledger, e1)
        && (tr.from in db.balances ==> db.balances[tr.from].version < L.MaxInt64)
    ensures tr.to in db.balances ==> db.balances[tr.to].version < L.MaxInt64
  {
  }

  lemma NotMutated(db: WS.Db, tr: T.Transfer, leg: Leg, entry: L.EntryId)
    requires !C.Admits(db, S.LegRequest(tr, leg), entry)
    ensures C.Mutated(db, S.LegRequest(tr, leg), entry) == db
  {
  }

  lemma LegGoes(run: seq<Action>, i: nat, tr: T.Transfer, leg: Leg, now: nat, entry: L.EntryId)
      returns (err: Option<ClientError>)
    requires Stands(Exec(run), i, tr) && S.LegOf(Exec(run).transfers.sagas[i].saga.pc) == Some(leg)
        && Allowed(Exec(run), i, now)
    ensures var s, s' := Exec(run), Exec(run + Alone(i, tr, leg, now, entry));
            && WS.Sound(s.wallet.db) && tr.amount > 0 && !WS.HasKey(s.wallet.db.ledger, LegKey(tr.id, leg))
            && s'.wallet.db == C.Mutated(s.wallet.db, S.LegRequest(tr, leg), entry)
            && (err.None? <==> C.Admits(s.wallet.db, S.LegRequest(tr, leg), entry))
            && err == Seen(C.Verdict(s.wallet.db, S.LegRequest(tr, leg), entry))
            && Stands(s', i, tr)
            && s'.transfers.sagas[i].saga == S.On(s.transfers.sagas[i].saga, S.WalletSaid(err))
            && (err.None? || Trusting(s, i) ==> Trusting(s', i))
  {
    hide Exec, Allowed, C.Admits, C.Verdict, C.Mutated, WS.Sound, WS.HasKey, S.LegRequest, S.On, Trusting, Seen;
    err := NextLeg(run, i, leg, now, entry);
    AnswerMoves(Exec(run).transfers.sagas[i].saga, S.On(Exec(run).transfers.sagas[i].saga, S.WalletSaid(err)), err);
    hide LegAlone;
  }

  // The debit has been made since db: the credit decides.
  lemma DebitedThen(run1: seq<Action>, i: nat, tr: T.Transfer, now: nat, e2: L.EntryId, e3: L.EntryId, db: WS.Db)
    requires Stands(Exec(run1), i, tr) && Exec(run1).transfers.sagas[i].saga.pc.Crediting? && Trusting(Exec(run1), i)
    requires var db1 := Exec(run1).wallet.db;
             && tr.from in db.balances && tr.from in db1.balances && tr.from != tr.to && e2 != e3
             && db1.balances[tr.from].minor == db.balances[tr.from].minor - tr.amount
             && db1.balances[tr.from].version < L.MaxInt64
             && db1.balances.Keys == db.balances.Keys
             && (forall w :: w in db.balances && w != tr.from ==> db1.balances[w] == db.balances[w])
             && (tr.to in db.balances ==> db.balances[tr.to].version < L.MaxInt64)
             && (Creditable(db1, tr) <==> Creditable(db, tr)) && NoCredit(db1, tr) == NoCredit(db, tr)
             && !WS.HasId(db1.ledger, e2) && !WS.HasId(db1.ledger, e3)
    ensures var run2 := run1 + Alone(i, tr, CreditLeg, now, e2);
            var run3 := run2 + Alone(i, tr, CompensateLeg, now, e3);
            if Creditable(db, tr) then
              && Stands(Exec(run2), i, tr) && Exec(run2).transfers.sagas[i].saga.pc.Inserting?
              && PaidOver(db, Exec(run2).wallet.db, tr)
            else FailedWith(Exec(run3), i, tr, NoCredit(db, tr)) && SameMoney(db, Exec(run3).wallet.db)
  {
    hide Exec, Allowed, C.Admits, C.Verdict, C.Mutated, WS.Sound, WS.HasKey, WS.HasId, S.LegRequest, S.On, Alone,
        Creditable, Trusting, Seen, NoCredit;
    var s1 := Exec(run1);
    TrustingAllows(s1, i, now);
    var err := LegGoes(run1, i, tr, CreditLeg, now, e2);
    LegAdmitted(s1.wallet.db, tr, CreditLeg, e2);
    var run2 := run1 + Alone(i, tr, CreditLeg, now, e2);
    AnswerMoves(s1.transfers.sagas[i].saga, Exec(run2).transfers.sagas[i].saga, err);
    if err.None? {
      AfterPayment(s1.wallet.db, tr, CreditLeg, e2);
    } else {
      NotMutated(s1.wallet.db, tr, CreditLeg, e2);
      TrustingAllows(Exec(run2), i, now);
      var err3 := LegGoes(run2, i, tr, CompensateLeg, now, e3);
      LegAdmitted(s1.wallet.db, tr, CompensateLeg, e3);
      var run3 := run2 + Alone(i, tr, CompensateLeg, now, e3);
      AnswerMoves(Exec(run2).transfers.sagas[i].saga, Exec(run3).transfers.sagas[i].saga, err3);
      AfterPayment(s1.wallet.db, tr, CompensateLeg, e3);
    }
  }
}
