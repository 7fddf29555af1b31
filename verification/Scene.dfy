/**
  The scene of the concrete runs: two wallets, deposits from outside, and Create calls that move
  ten units from the one wallet to the other, leg by leg.
 */
module Scene {
  import opened Wrappers
  import opened Keys
  import L = Ledger
  import WS = WalletStore
  import C = WalletCalls
  import W = WalletRuns
  import opened WalletClient
  import T = TransferStore
  import S = Saga
  import opened Platform
  import opened PlatformInv
  import opened PlatformSteps
  import opened Undisturbed

  /******* The scene: wallets 0 and 1, ten units from the one to the other *******/

  const Ten: S.CreateRequest := S.CreateRequest(Some(0), Some(1), 10, "RUB", "key", Some(0))

  function Made10(id: TransferId): T.Transfer {
    T.Transfer(id, 0, 1, 10, "RUB", T.Pending, 0, "key")
  }

  // The wallets hold a and b, and n is a new entry id.
  ghost predicate Hold(db: WS.Db, a: int, b: int, n: nat) {
    && 0 in db.balances && 1 in db.balances
    && db.balances[0].minor == a && db.balances[1].minor == b
    && db.balances[0].version <= n <= 100 && db.balances[1].version <= n
    && forall i :: 0 <= i < |db.ledger| ==> db.ledger[i].id < n
  }

  // No breaker has seen a failure.
  ghost predicate Calm(t: Transfers) {
    forall p :: p in t.circuits ==> forall k :: 0 <= k < |t.circuits[p]| ==> t.circuits[p][k].Succeeded?
  }

  // Call i attempts transfer id and is at pc, alive and with nothing on the wire.
  ghost predicate At(s: Sys, i: nat, id: TransferId, pc: S.Pc) {
    && i < |s.transfers.sagas|
    && s.transfers.sagas[i].saga == S.Saga(Ten, Some(Made10(id)), pc, None)
    && !s.transfers.sagas[i].issued && !s.transfers.sagas[i].dead
  }

  lemma CalmAllows(s: Sys, i: nat, now: nat)
    requires Calm(s.transfers) && i < |s.transfers.sagas|
    ensures Allowed(s, i, now)
  {
  }

  lemma Pays(db: WS.Db, req: C.Request, a: int, b: int, n: nat)
    requires Hold(db, a, b, n) && n < 100 && C.Acceptable(req) && !WS.HasKey(db.ledger, req.key)
    requires req.wallet == Some(0) || req.wallet == Some(1)
    requires db.balances[req.wallet.value].version >= 0
    requires 0 <= C.Exact(db, req) <= L.MaxInt64
    ensures C.Admits(db, req, n)
    ensures Hold(C.Mutated(db, req, n), if req.wallet == Some(0) then C.Exact(db, req) else a,
                 if req.wallet == Some(1) then C.Exact(db, req) else b, n + 1)
  {
  }

  /******* Money comes in from outside *******/

  function Deposit(w: L.WalletId, amount: L.int64, key: string): C.Request {
    C.Request(Some(w), amount, Some("outside"), Named(key), L.Credit)
  }

  // Both wallets are opened, and wallet 0 gets the amount.
  function Funding(amount: L.int64): seq<Action> {
    [Wallet(W.OpenWallet(0))] + [Wallet(W.OpenWallet(1))] + OutsideCall(0, Deposit(0, amount, "seed"), 0)
  }

  lemma Opened()
    ensures var run := [Wallet(W.OpenWallet(0))] + [Wallet(W.OpenWallet(1))];
            Exec(run) == Empty.(wallet := W.Sys(WS.Db(map[0 := L.Balance(0, 0), 1 := L.Balance(0, 0)], []), map[]))
  {
    assert Exec([]) == Empty;
    Continued([], [Wallet(W.OpenWallet(0))]);
    assert [] + [Wallet(W.OpenWallet(0))] == [Wallet(W.OpenWallet(0))];
    ContinueOne(Empty, Wallet(W.OpenWallet(0)));
    Continued([Wallet(W.OpenWallet(0))], [Wallet(W.OpenWallet(1))]);
    ContinueOne(Exec([Wallet(W.OpenWallet(0))]), Wallet(W.OpenWallet(1)));
    hide Continue, Exec;
  }

  lemma Deposited(run: seq<Action>, n: nat, w: L.WalletId, amount: L.int64, key: string, a: int, b: int, entry: nat)
    requires Hold(Exec(run).wallet.db, a, b, entry) && entry < 100 && amount > 0 && (w == 0 || w == 1)
    requires W.External(n) !in Exec(run).wallet.calls && WellNamed(Named(key)) && key != ""
    requires !WS.HasKey(Exec(run).wallet.db.ledger, Named(key))
    requires (if w == 0 then a else b) + amount as int <= L.MaxInt64
    ensures var s, s' := Exec(run), Exec(run + OutsideCall(n, Deposit(w, amount, key), entry));
            && s'.transfers == s.transfers && s'.pipe == s.pipe
            && s'.wallet.calls.Keys == s.wallet.calls.Keys + {W.External(n)}
            && (forall id :: id in s.wallet.calls ==> s'.wallet.calls[id] == s.wallet.calls[id])
            && s'.wallet.db.ledger == s.wallet.db.ledger + [C.NewEntry(Deposit(w, amount, key), entry)]
            && Hold(s'.wallet.db, if w == 0 then a + amount else a, if w == 1 then b + amount else b, entry + 1)
  {
    hide Exec, Inv, WS.HasKey;
    InvHolds(run);
    var s, req := Exec(run), Deposit(w, amount, key);
    WalletIsSound(s);
    C.StoredIsSolvent(s.wallet.db, w);
    Continued(run, OutsideCall(n, req, entry));
    OutsideCallEnds(s, n, req, entry);
    Pays(s.wallet.db, req, a, b, entry);
    hide Continue, OutsideCall, Hold;
  }

  lemma WalletIsSound(s: Sys)
    requires Inv(s)
    ensures WS.Sound(s.wallet.db)
  {
    hide SagasOk, StoresOk, PipeOk, WS.Sound;
  }

  lemma Funded(amount: L.int64)
    requires amount > 0
    ensures var s := Exec(Funding(amount));
            && Hold(s.wallet.db, amount, 0, 1)
            && s.transfers == Empty.transfers && s.pipe == Empty.pipe
            && s.wallet.calls.Keys == {W.External(0)}
            && |s.wallet.db.ledger| == 1 && s.wallet.db.ledger[0].key == Named("seed")
  {
    var open := [Wallet(W.OpenWallet(0))] + [Wallet(W.OpenWallet(1))];
    Opened();
    hide Exec;
    assert Hold(Exec(open).wallet.db, 0, 0, 0);
    Deposited(open, 0, 0, amount, "seed", 0, 0, 0);
    hide Hold;
  }

  /******* A Create call up to its first leg *******/

  function Asking(i: nat, id: TransferId): seq<Action> {
    [NewSaga(Ten, i)] + [CacheAnswers(i, false)] + [RowAnswers(i, false, id)]
  }

  lemma Asked(s: Sys, i: nat, id: TransferId)
    requires |s.transfers.sagas| == i && "key" !in s.transfers.cache && T.ByKey(s.transfers.db.rows, "key").None?
    requires id != "" && id !in s.transfers.owner
    ensures Act(Act(Act(s, NewSaga(Ten, i)), CacheAnswers(i, false)), RowAnswers(i, false, id))
         == s.(transfers := s.transfers.(
                sagas := s.transfers.sagas + [Running(S.Saga(Ten, Some(Made10(id)), S.Debiting, None), i, false, 0,
                    false)],
                owner := s.transfers.owner[id := i]))
  {
    hide T.ByKey;
    var s1 := Act(s, NewSaga(Ten, i));
    assert s1.transfers.sagas == s.transfers.sagas + [Running(S.Saga(Ten, None, S.AskingCache, None), i, false, 0,
        false)];
    var s2 := Act(s1, CacheAnswers(i, false));
    assert s2.transfers.sagas == s.transfers.sagas + [Running(S.Saga(Ten, None, S.AskingRow, None), i, false, 0,
        false)];
  }

  lemma AskingRuns(run: seq<Action>, i: nat, id: TransferId)
    requires var t := Exec(run).transfers;
             |t.sagas| == i && "key" !in t.cache && T.ByKey(t.db.rows, "key").None? && id !in t.owner
    requires id != ""
    ensures var s, s' := Exec(run), Exec(run + Asking(i, id));
            && At(s', i, id, S.Debiting)
            && s' == s.(transfers := s.transfers.(
                sagas := s.transfers.sagas + [s'.transfers.sagas[i]], owner := s.transfers.owner[id := i]))
  {
    hide Exec, Act, T.ByKey;
    var s := Exec(run);
    Continued(run, Asking(i, id));
    ContinueJoins(s, [NewSaga(Ten, i)] + [CacheAnswers(i, false)], [RowAnswers(i, false, id)]);
    ContinueJoins(s, [NewSaga(Ten, i)], [CacheAnswers(i, false)]);
    ContinueOne(s, NewSaga(Ten, i));
    ContinueOne(Act(s, NewSaga(Ten, i)), CacheAnswers(i, false));
    ContinueOne(Act(Act(s, NewSaga(Ten, i)), CacheAnswers(i, false)), RowAnswers(i, false, id));
    hide Continue;
    Asked(s, i, id);
  }

  /******* One leg *******/

  function LegRun(i: nat, id: TransferId, leg: Leg, entry: nat): seq<Action> {
    LegAlone(i, W.LegCall(id, leg), 0, entry)
  }

  // What wallet 0 and wallet 1 hold after the leg.
  function After(leg: Leg, a: int, b: int): (int, int) {
    match leg
    case DebitLeg => (a - 10, b)
    case CreditLeg => (a, b + 10)
    case CompensateLeg => (a + 10, b)
  }

  // From s to s', only call i has moved, as its answer says; its leg was the only thing sent.
  ghost predicate OnlyLeg(s: Sys, s': Sys, i: nat, id: TransferId, leg: Leg, err: Option<ClientError>)
  {
    && i < |s.transfers.sagas|
    && s'.wallet.calls.Keys == s.wallet.calls.Keys + {W.LegCall(id, leg)}
    && s'.wallet.calls[W.LegCall(id, leg)].pc.Done?
    && (forall x :: x in s.wallet.calls && x != W.LegCall(id, leg) ==> s'.wallet.calls[x] == s.wallet.calls[x])
    && s'.pipe == s.pipe && s'.transfers.db == s.transfers.db
    && s'.transfers.cache == s.transfers.cache && s'.transfers.owner == s.transfers.owner
    && |s'.transfers.sagas| == |s.transfers.sagas|
    && s'.transfers.sagas == s.transfers.sagas[i := s'.transfers.sagas[i]]
    && s'.transfers.sagas[i].saga == S.On(s.transfers.sagas[i].saga, S.WalletSaid(err))
    && !s'.transfers.sagas[i].issued && !s'.transfers.sagas[i].dead
    && Calm(s'.transfers)
  }

  lemma AtLegIsReady(s: Sys, i: nat, id: TransferId, pc: S.Pc)
    requires At(s, i, id, pc) && S.LegOf(pc).Some?
    ensures Ready(s, i) && LegCallOf(s.transfers.sagas[i]) == W.LegCall(id, S.LegOf(pc).value)
    ensures RequestOf(s.transfers.sagas[i]) == S.LegRequest(Made10(id), S.LegOf(pc).value)
    ensures C.Acceptable(RequestOf(s.transfers.sagas[i]))
  {
  }

  lemma HeardIsOnlyLeg(s: Sys, s': Sys, i: nat, id: TransferId, leg: Leg, entry: nat) returns (err: Option<ClientError>)
    requires Ready(s, i) && LegCallOf(s.transfers.sagas[i]) == W.LegCall(id, leg) && Calm(s.transfers)
    requires Concluded(s, s', i, entry)
    ensures OnlyLeg(s, s', i, id, leg, err)
    ensures err.None? <==> C.Admits(s.wallet.db, RequestOf(s.transfers.sagas[i]), entry)
    ensures err == Seen(C.Verdict(s.wallet.db, RequestOf(s.transfers.sagas[i]), entry))
  {
    hide C.Admits, C.Verdict, C.Mutated, S.On, RequestOf;
    var o :| Heard(s.transfers, s'.transfers, i, o) && Settles(s.wallet.db, RequestOf(s.transfers.sagas[i]), entry, o);
    err := Told(o);
    hide Told;
  }

  lemma LegRuns(run: seq<Action>, i: nat, id: TransferId, pc: S.Pc, entry: nat) returns (err: Option<ClientError>)
    requires At(Exec(run), i, id, pc) && S.LegOf(pc).Some? && Calm(Exec(run).transfers)
    ensures var s, leg := Exec(run), S.LegOf(pc).value;
            var s' := Exec(run + LegRun(i, id, leg, entry));
            var req := S.LegRequest(Made10(id), leg);
            && OnlyLeg(s, s', i, id, leg, err)
            && (err.None? <==> C.Admits(s.wallet.db, req, entry))
            && err == Seen(C.Verdict(s.wallet.db, req, entry))
            && s'.wallet.db == C.Mutated(s.wallet.db, req, entry)
            && !WS.HasKey(s.wallet.db.ledger, req.key)
            && (forall w :: w in s.wallet.db.balances ==> s.wallet.db.balances[w].version >= 0)
  {
    var s := Exec(run);
    InvHolds(run);
    hide Exec, Inv, S.LegRequest, Concluded, RequestOf, WS.HasKey, Continue, Calm, OnlyLeg, C.Admits, C.Mutated,
        C.Verdict, Seen;
    AtLegIsReady(s, i, id, pc);
    CalmAllows(s, i, 0);
    LegIsFresh(s, i);
    WalletIsSound(s);
    forall w | w in s.wallet.db.balances ensures s.wallet.db.balances[w].version >= 0 { C.StoredIsSolvent(s.wallet.db,
        w); }
    Continued(run, LegRun(i, id, S.LegOf(pc).value, entry));
    LegAloneEnds(s, i, 0, entry);
    var s' := Continue(s, LegAlone(i, LegCallOf(s.transfers.sagas[i]), 0, entry));
    assert s'.wallet.db == C.Mutated(s.wallet.db, RequestOf(s.transfers.sagas[i]),
        entry) by { ConcludedDb(s, s', i, entry); }
    err := HeardIsOnlyLeg(s, s', i, id, S.LegOf(pc).value, entry);
  }

  // The leg fits, and is paid.
  lemma LegPays(run: seq<Action>, i: nat, id: TransferId, pc: S.Pc, a: int, b: int, entry: nat)
    requires At(Exec(run), i, id, pc) && S.LegOf(pc).Some? && Calm(Exec(run).transfers)
    requires Hold(Exec(run).wallet.db, a, b, entry) && entry < 100
    requires var (a', b') := After(S.LegOf(pc).value, a, b); 0 <= a' <= L.MaxInt64 && 0 <= b' <= L.MaxInt64
    ensures var s, leg := Exec(run), S.LegOf(pc).value;
            var s', (a', b') := Exec(run + LegRun(i, id, leg, entry)), After(leg, a, b);
            && OnlyLeg(s, s', i, id, leg, None)
            && Hold(s'.wallet.db, a', b', entry + 1)
            && s'.wallet.db.ledger == s.wallet.db.ledger + [C.NewEntry(S.LegRequest(Made10(id), leg), entry)]
  {
    var s, leg := Exec(run), S.LegOf(pc).value;
    hide Exec, OnlyLeg, C.Admits, C.Mutated, At, Calm, WS.HasKey, C.Verdict, Seen;
    var err := LegRuns(run, i, id, pc, entry);
    Pays(s.wallet.db, S.LegRequest(Made10(id), leg), a, b, entry);
    MutatedLedger(s.wallet.db, S.LegRequest(Made10(id), leg), entry);
  }

  lemma MutatedLedger(db: WS.Db, req: C.Request, entry: nat)
    requires C.Admits(db, req, entry)
    ensures C.Mutated(db, req, entry).ledger == db.ledger + [C.NewEntry(req, entry)]
  {
  }

  // The leg would overflow, and is refused.
  lemma LegOverflows(run: seq<Action>, i: nat, id: TransferId, pc: S.Pc, a: int, b: int, entry: nat)
    requires At(Exec(run), i, id, pc) && S.LegOf(pc).Some? && Calm(Exec(run).transfers)
    requires Hold(Exec(run).wallet.db, a, b, entry)
    requires var (a', b') := After(S.LegOf(pc).value, a, b); a' > L.MaxInt64 || b' > L.MaxInt64
    requires a <= L.MaxInt64 && b <= L.MaxInt64
    ensures var s, leg := Exec(run), S.LegOf(pc).value;
            var s' := Exec(run + LegRun(i, id, leg, entry));
            && OnlyLeg(s, s', i, id, leg, Some(Other(Status(Internal)))) && s'.wallet.db == s.wallet.db
            && !WS.HasKey(s.wallet.db.ledger, LegKey(id, leg))
  {
    var s, leg := Exec(run), S.LegOf(pc).value;
    hide Exec, OnlyLeg, At, Calm, WS.HasKey, C.Admits, C.Verdict, C.Mutated, Seen, Hold;
    var err := LegRuns(run, i, id, pc, entry);
    Overflows(s.wallet.db, id, leg, a, b, entry);
  }

  lemma Overflows(db: WS.Db, id: TransferId, leg: Leg, a: int, b: int, entry: nat)
    requires Hold(db, a, b, entry) && a <= L.MaxInt64 && b <= L.MaxInt64
    requires var (a', b') := After(leg, a, b); a' > L.MaxInt64 || b' > L.MaxInt64
    requires !WS.HasKey(db.ledger, LegKey(id, leg))
    ensures var req := S.LegRequest(Made10(id), leg);
            Seen(C.Verdict(db, req, entry)) == Some(Other(Status(Internal))) && C.Mutated(db, req, entry) == db
  {
    hide WS.HasKey, WS.HasId;
  }

  function NextPc(pc: S.Pc): S.Pc {
    if pc.Debiting? then S.Crediting else S.Inserting
  }

  lemma LegAdvances(s: Sys, s': Sys, i: nat, id: TransferId, pc: S.Pc)
    requires At(s, i, id, pc) && (pc.Debiting? || pc.Crediting?)
    requires OnlyLeg(s, s', i, id, S.LegOf(pc).value, None)
    ensures At(s', i, id, NextPc(pc)) && Calm(s'.transfers) && s'.pipe == s.pipe
    ensures s'.transfers.db == s.transfers.db && s'.transfers.cache == s.transfers.cache
        && s'.transfers.owner == s.transfers.owner
    ensures |s'.transfers.sagas| == |s.transfers.sagas|
    ensures forall j :: 0 <= j < |s.transfers.sagas| && j != i ==> s'.transfers.sagas[j] == s.transfers.sagas[j]
  {
  }

  // A call's debit and credit, one after the other.
  function PayRun(i: nat, id: TransferId, entry: nat): seq<Action> {
    LegRun(i, id, DebitLeg, entry) + LegRun(i, id, CreditLeg, entry + 1)
  }

  lemma Paid(run: seq<Action>, i: nat, id: TransferId, a: int, b: int, entry: nat)
    requires At(Exec(run), i, id, S.Debiting) && Calm(Exec(run).transfers)
    requires Hold(Exec(run).wallet.db, a, b, entry) && entry < 99 && 10 <= a <= L.MaxInt64 && 0 <= b <= L.MaxInt64 - 10
    ensures var s, s' := Exec(run), Exec(run + PayRun(i, id, entry));
            && At(s', i, id, S.Inserting) && Calm(s'.transfers) && Hold(s'.wallet.db, a - 10, b + 10, entry + 2)
            && s'.pipe == s.pipe
            && s'.transfers.db == s.transfers.db && s'.transfers.cache == s.transfers.cache
                && s'.transfers.owner == s.transfers.owner
            && |s'.transfers.sagas| == |s.transfers.sagas|
            && (forall j :: 0 <= j < |s.transfers.sagas| && j != i ==> s'.transfers.sagas[j] == s.transfers.sagas[j])
  {
    hide Exec, OnlyLeg, At, Calm, Hold, LegRun;
    var run1 := run + LegRun(i, id, DebitLeg, entry);
    LegPays(run, i, id, S.Debiting, a, b, entry);
    LegAdvances(Exec(run), Exec(run1), i, id, S.Debiting);
    LegPays(run1, i, id, S.Crediting, a - 10, b, entry + 1);
    LegAdvances(Exec(run1), Exec(run1 + LegRun(i, id, CreditLeg, entry + 1)), i, id, S.Crediting);
    assert run1 + LegRun(i, id, CreditLeg, entry + 1) == run + PayRun(i, id, entry);
  }

  lemma FirstInsert(s: Sys)
    requires |s.transfers.sagas| > 0 && At(s, 0, "a", S.Inserting)
    requires s.transfers.db == T.Db([], [])
    ensures var s', tr := Act(s, InsertAnswers(0, 0, 0, WS.NoFault)), S.Complete(Made10("a"));
            && s'.transfers.db == T.Db([tr], [T.OutboxRow(T.CompletedEvent(tr, 0, 0), None)])
            && s'.wallet == s.wallet && s'.pipe == s.pipe && |s'.transfers.sagas| == |s.transfers.sagas|
            && s'.transfers.sagas[0].saga.pc == S.Filling && s'.transfers.sagas[0].saga.req == Ten
            && forall j :: 0 < j < |s.transfers.sagas| ==> s'.transfers.sagas[j] == s.transfers.sagas[j]
  {
  }
}
