/**
  The wallet service as a whole: any number of calls, each at its own step, over one
  database. A run is a sequence of steps; a step that is not enabled does nothing.
 */
module WalletRuns {
  import opened Wrappers
  import opened Keys
  import opened Ledger
  import opened WalletStore
  import opened WalletCalls

  datatype CallId = External(n: nat) | LegCall(transfer: TransferId, leg: Leg)

  datatype Sys = Sys(db: Db, calls: map<CallId, Call>)

  datatype Action =
    | OpenWallet(wallet: WalletId)
    | Arrive(id: CallId, req: Request)
    | Advance(id: CallId, choice: Choice)
    | Kill(id: CallId)    // the server dies, or the caller's cancellation reaches it

  const Empty: Sys := Sys(Db(map[], []), map[])

  function Act(s: Sys, a: Action): Sys {
    match a
    case OpenWallet(w) => s.(db := Open(s.db, w))
    case Arrive(id, req) => if id in s.calls then s else s.(calls := s.calls[id := Begin(req)])
    case Advance(id, choice) =>
      if id !in s.calls then s
      else var (db, c) := Step(s.db, s.calls[id], choice); Sys(db, s.calls[id := c])
    case Kill(id) =>
      if id !in s.calls || s.calls[id].pc.Done? then s
      else s.(calls := s.calls[id := Fail(s.calls[id], Unavailable)])
  }

  function Exec(run: seq<Action>): Sys {
    if run == [] then Empty else Act(Exec(run[..|run| - 1]), run[|run| - 1])
  }

  ghost predicate Inv(s: Sys) {
    Sound(s.db) && forall id :: id in s.calls ==> Knows(s.db, s.calls[id])
  }

  lemma OthersKeepInv(s: Sys, db: Db)
    requires Inv(s) && Evolves(s.db, db)
    ensures Inv(s.(db := db))
  {
    forall id | id in s.calls
      ensures Knows(db, s.calls[id])
    {
      EvolutionKeepsKnowledge(s.db, db, s.calls[id]);
    }
  }

  // A step of the concurrent service is a step of the serial one, or nothing.
  lemma ActIsSerial(s: Sys, a: Action)
    requires Inv(s)
    ensures Inv(Act(s, a))
    ensures Evolves(s.db, Act(s, a).db)
    ensures Act(s, a).db == s.db
         || (a.OpenWallet? && Act(s, a).db == Open(s.db, a.wallet))
         || (exists e :: SerialEnabled(s.db, e) && Act(s, a).db == Serial(s.db, e))
  {
    match a {
      case OpenWallet(w) =>
        OpenKeepsSound(s.db, w);
        OthersKeepInv(s, Open(s.db, w));
      case Arrive(id, req) => BeginKnows(s.db, req);
      case Advance(id, choice) =>
        if id in s.calls {
          StepIsSerial(s.db, s.calls[id], choice);
          OthersKeepInv(s, Step(s.db, s.calls[id], choice).0);
        }
      case Kill(id) =>
    }
  }

  lemma ActKeepsInv(s: Sys, a: Action)
    requires Inv(s)
    ensures Inv(Act(s, a)) && s.db.ledger <= Act(s, a).db.ledger
  {
    ActIsSerial(s, a);
  }

  lemma {:induction false} InvHolds(run: seq<Action>)
    ensures Inv(Exec(run))
    decreases |run|
  {
    if run != [] {
      InvHolds(run[..|run| - 1]);
      ActIsSerial(Exec(run[..|run| - 1]), run[|run| - 1]);
    }
  }

  // In every run, replaying the ledger entry by entry never fails and arrives exactly at
  // what is stored; the stored balance is the exact sum, within 64 bits, at every prefix.
  lemma LedgerRefinesSerial(run: seq<Action>, w: WalletId, n: nat)
    requires w in Exec(run).db.balances && n <= |Exec(run).db.ledger|
    ensures var db := Exec(run).db;
            && Replay(db.ledger, w) == Ok(db.balances[w])
            && db.balances[w].minor == Net(db.ledger, w)
            && db.balances[w].version == Moves(db.ledger, w)
            && 0 <= Net(db.ledger[..n], w) <= MaxInt64
            && Replay(db.ledger[..n], w).Ok?
            && Replay(db.ledger[..n], w).value.minor == Net(db.ledger[..n], w)
  {
    InvHolds(run);
    var db := Exec(run).db;
    assert Booked(db, w);
    ReplayIsExact(db.ledger, w);
    SolventPrefix(db.ledger, w, n);
    MovesGrow(db.ledger, w, n);
    ReplayIsExact(db.ledger[..n], w);
  }

  // Every committing call returns the balance and the version of its own replay prefix,
  // which ends in its own entry; a replayed answer is the wallet at some prefix that holds the entry.
  lemma AnswersAreReplays(run: seq<Action>, id: CallId)
    requires id in Exec(run).calls
    requires var c := Exec(run).calls[id]; c.pc.Done? && c.pc.outcome.Succeeded?
    ensures var s := Exec(run);
            var c := s.calls[id];
            var o := c.pc.outcome;
            && Acceptable(c.req)
            && o.asOf <= |s.db.ledger|
            && Replay(s.db.ledger[..o.asOf], c.req.wallet.value) == Ok(o.result.balance)
            && FoundAt(s.db.ledger, o.asOf, c.req.key, o.result.entryId)
            && (o.path == Committed ==> 0 < o.asOf && s.db.ledger[o.asOf - 1] == NewEntry(c.req, o.result.entryId))
  {
    InvHolds(run);
    var s := Exec(run);
    var c := s.calls[id];
    assert Knows(s.db, c);
    LedgerRefinesSerial(run, c.req.wallet.value, c.pc.outcome.asOf);
    assert Booked(s.db, c.req.wallet.value);
    SolventPrefix(s.db.ledger, c.req.wallet.value, c.pc.outcome.asOf);
    MovesGrow(s.db.ledger, c.req.wallet.value, c.pc.outcome.asOf);
    ReplayIsExact(s.db.ledger[..c.pc.outcome.asOf], c.req.wallet.value);
  }

  // At most one entry per key, and every call that succeeds under a key answers with its id.
  lemma OneEntryPerKey(run: seq<Action>)
    ensures var s := Exec(run);
            && KeysDistinct(s.db.ledger)
            && forall id :: id in s.calls && s.calls[id].pc.Done? && s.calls[id].pc.outcome.Succeeded? ==>
                 var found := Find(s.db.ledger, s.calls[id].req.key);
                 found.Some? && found.value.id == s.calls[id].pc.outcome.result.entryId
  {
    hide Exec;
    InvHolds(run);
    var s := Exec(run);
    hide Knows, Sound;
    forall id | id in s.calls && s.calls[id].pc.Done? && s.calls[id].pc.outcome.Succeeded?
      ensures Find(s.db.ledger, s.calls[id].req.key).Some?
      ensures Find(s.db.ledger, s.calls[id].req.key).value.id == s.calls[id].pc.outcome.result.entryId
    {
      AnswerStands(s.db, s.calls[id]);
    }
    SoundIsDistinct(s.db);
  }

  lemma SoundIsDistinct(db: Db)
    requires Sound(db)
    ensures KeysDistinct(db.ledger)
  {
  }

  // A call that exhausted its retries saw at least eight mutations of its wallet go by.
  lemma ExhaustedWasOvertaken(run: seq<Action>, id: CallId)
    requires id in Exec(run).calls && Exec(run).calls[id].pc == Done(Failed(RetriesExhausted))
    ensures var s := Exec(run);
            var c := s.calls[id];
            && c.first.Some? && c.req.wallet.Some?
            && c.first.value.asOf <= |s.db.ledger|
            && Moves(s.db.ledger, c.req.wallet.value)
               >= Moves(s.db.ledger[..c.first.value.asOf], c.req.wallet.value) + 8
            && c.req.wallet.value in s.db.balances
            && s.db.balances[c.req.wallet.value].version >= c.first.value.balance.version + 8
  {
    InvHolds(run);
    var s := Exec(run);
    assert Knows(s.db, s.calls[id]);
    assert Booked(s.db, s.calls[id].req.wallet.value);
  }

  /******* The money in all wallets together *******/

  function Total(l: seq<Entry>): int {
    if l == [] then 0 else Total(l[..|l| - 1]) + Delta(l[|l| - 1])
  }

  ghost function SumOver(ws: set<WalletId>, f: map<WalletId, int>): int
    requires ws <= f.Keys
  {
    if ws == {} then 0
    else var w :| w in ws; f[w] + SumOver(ws - {w}, f)
  }

  lemma {:induction false} SumSplits(ws: set<WalletId>, f: map<WalletId, int>, w: WalletId)
    requires w in ws && ws <= f.Keys
    ensures SumOver(ws, f) == f[w] + SumOver(ws - {w}, f)
    decreases ws
  {
    var x :| x in ws && SumOver(ws, f) == f[x] + SumOver(ws - {x}, f);
    if x != w {
      SumSplits(ws - {x}, f, w);
      SumSplits(ws - {w}, f, x);
      assert ws - {x} - {w} == ws - {w} - {x};
    }
  }

  lemma {:induction false} SumAgrees(ws: set<WalletId>, f: map<WalletId, int>, g: map<WalletId, int>)
    requires ws <= f.Keys && ws <= g.Keys
    requires forall w :: w in ws ==> f[w] == g[w]
    ensures SumOver(ws, f) == SumOver(ws, g)
    decreases ws
  {
    if ws != {} {
      var x :| x in ws && SumOver(ws, f) == f[x] + SumOver(ws - {x}, f);
      SumAgrees(ws - {x}, f, g);
      SumSplits(ws, g, x);
    }
  }

  ghost function Nets(l: seq<Entry>, ws: set<WalletId>): map<WalletId, int> {
    map w | w in ws :: Net(l, w)
  }

  lemma {:induction false} ZeroSum(ws: set<WalletId>, f: map<WalletId, int>)
    requires ws <= f.Keys && forall w :: w in ws ==> f[w] == 0
    ensures SumOver(ws, f) == 0
    decreases ws
  {
    if ws != {} {
      var x :| x in ws && SumOver(ws, f) == f[x] + SumOver(ws - {x}, f);
      ZeroSum(ws - {x}, f);
    }
  }

  lemma {:induction false} NetsSumToTotal(l: seq<Entry>, ws: set<WalletId>)
    requires forall i :: 0 <= i < |l| ==> l[i].wallet in ws
    ensures SumOver(ws, Nets(l, ws)) == Total(l)
    decreases |l|
  {
    if l == [] {
      ZeroSum(ws, Nets(l, ws));
    } else {
      var init, e := l[..|l| - 1], l[|l| - 1];
      NetsSumToTotal(init, ws);
      SumSplits(ws, Nets(l, ws), e.wallet);
      SumSplits(ws, Nets(init, ws), e.wallet);
      SumAgrees(ws - {e.wallet}, Nets(l, ws), Nets(init, ws));
    }
  }

  ghost function Holdings(db: Db): int {
    SumOver(db.balances.Keys, map w | w in db.balances :: db.balances[w].minor as int)
  }

  // What all wallets hold is what the ledger adds up to.
  lemma HoldingsAreTheLedger(db: Db)
    requires Sound(db)
    ensures Holdings(db) == Total(db.ledger)
  {
    var ws := db.balances.Keys;
    NetsSumToTotal(db.ledger, ws);
    forall w | w in ws
      ensures db.balances[w].minor == Net(db.ledger, w)
    {
      assert Booked(db, w);
    }
    SumAgrees(ws, map w | w in db.balances :: db.balances[w].minor as int, Nets(db.ledger, ws));
  }
}
