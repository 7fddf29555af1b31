/**
  The wallet database: account balances and ledger entries, and the one transaction
  that changes them. Each operation is a function of the database and of the fault, if
  any, that the connection suffers; class Repo performs it in place.
 */
module WalletStore {
  import opened Wrappers
  import opened Keys
  import opened Ledger

  // What can go wrong with one statement: it fails, or (a commit only) it takes effect
  // and the acknowledgement is lost.
  datatype Fault = NoFault | Fails | AckLost

  datatype Db = Db(balances: map<WalletId, Balance>, ledger: seq<Entry>)

  function Under(key: Key): Entry -> bool {
    (e: Entry) => e.key == key
  }

  function Find(l: seq<Entry>, key: Key): (r: Option<Entry>)
    ensures r.Some? ==> r.value in l && r.value.key == key
    ensures r.None? ==> forall i :: 0 <= i < |l| ==> l[i].key != key
  {
    FindFirst(l, Under(key))
  }

  function Read(db: Db, w: WalletId, fault: Fault): Result<Balance, Error> {
    if fault != NoFault then Err(Unavailable)
    else if w !in db.balances then Err(NotFound)
    else Ok(db.balances[w])
  }

  function ReadEntry(db: Db, key: Key, fault: Fault): Result<Option<Entry>, Error> {
    if fault != NoFault then Err(Unavailable)
    else Ok(Find(db.ledger, key))
  }

  predicate HasId(l: seq<Entry>, id: EntryId) {
    exists i :: 0 <= i < |l| && l[i].id == id
  }

  predicate HasKey(l: seq<Entry>, key: Key) {
    exists i :: 0 <= i < |l| && l[i].key == key
  }

  // Why the transaction is refused, None if it may commit.
  function Refusal(db: Db, w: WalletId, expected: int64, newMinor: int64, e: Entry): Option<Error> {
    if w !in db.balances || db.balances[w].version != expected then Some(VersionConflict)
    else if newMinor < 0 || expected == MaxInt64 || e.amount <= 0 then Some(Rejected)
    else if HasKey(db.ledger, e.key) || HasId(db.ledger, e.id) then Some(AlreadyExists)
    else if e.wallet !in db.balances then Some(Rejected)
    else None
  }

  function Commit(db: Db, w: WalletId, expected: int64, newMinor: int64, e: Entry): Db
    requires Refusal(db, w, expected, newMinor, e).None?
  {
    Db(db.balances[w := Balance(newMinor, expected + 1)], db.ledger + [e])
  }

  // The database after the transaction, and the error it returned, None for nil.
  function Mutate(db: Db, w: WalletId, expected: int64, newMinor: int64, e: Entry, fault: Fault): (Db, Option<Error>) {
    if fault == Fails then (db, Some(Unavailable))
    else
      var refusal := Refusal(db, w, expected, newMinor, e);
      if refusal.Some? then (db, refusal)
      else (Commit(db, w, expected, newMinor, e), if fault == AckLost then Some(Unavailable) else None)
  }

  // Whose wallet it is; nobody has two in one currency.
  datatype Holder = Holder(user: nat, currency: string)

  predicate Taken(holders: map<WalletId, Holder>, w: WalletId, holder: Holder) {
    w in holders || holder in holders.Values
  }

  // A wallet starts empty at version zero; wallets are never deleted.
  function Open(db: Db, w: WalletId): Db {
    if w in db.balances then db else db.(balances := db.balances[w := Balance(0, 0)])
  }

  /******* What holds of every reachable database *******/

  ghost predicate KeysDistinct(l: seq<Entry>) {
    forall i, j :: 0 <= i < |l| && 0 <= j < |l| && l[i].key == l[j].key ==> i == j
  }

  ghost predicate Booked(db: Db, w: WalletId)
    requires w in db.balances
  {
    && db.balances[w].minor == Net(db.ledger, w)
    && db.balances[w].version == Moves(db.ledger, w)
    && Solvent(db.ledger, w)
  }

  ghost predicate Sound(db: Db) {
    && KeysDistinct(db.ledger)
    && Positive(db.ledger)
    && (forall i :: 0 <= i < |db.ledger| ==> db.ledger[i].wallet in db.balances)
    && (forall w :: w in db.balances ==> Booked(db, w))
  }

  // The wallet's balance and version after the first n entries.
  ghost predicate AsOf(l: seq<Entry>, n: nat, w: WalletId, b: Balance) {
    n <= |l| && b.minor == Net(l[..n], w) && b.version == Moves(l[..n], w)
  }

  // What the rest of the world may do to a sound database.
  ghost predicate Evolves(a: Db, b: Db) {
    && Sound(b)
    && a.ledger <= b.ledger
    && a.balances.Keys <= b.balances.Keys
  }

  // One mutation as the serial wallet would make it: apply the entry to what is stored now.
  predicate SerialEnabled(db: Db, e: Entry) {
    && e.wallet in db.balances
    && !HasKey(db.ledger, e.key)
    && Apply(e.typ, db.balances[e.wallet], e.amount).Ok?
    && 0 <= Apply(e.typ, db.balances[e.wallet], e.amount).value.minor
    && db.balances[e.wallet].version < MaxInt64
  }

  function Serial(db: Db, e: Entry): Db
    requires SerialEnabled(db, e)
  {
    Db(db.balances[e.wallet := Apply(e.typ, db.balances[e.wallet], e.amount).value], db.ledger + [e])
  }

  lemma AppendedSums(l: seq<Entry>, e: Entry, w: WalletId)
    ensures Net(l + [e], w) == Net(l, w) + if e.wallet == w then Delta(e) else 0
    ensures Moves(l + [e], w) == Moves(l, w) + if e.wallet == w then 1 else 0
  {
  }

  lemma AppendedSolvent(l: seq<Entry>, e: Entry, w: WalletId)
    requires Solvent(l, w) && 0 <= Net(l + [e], w) <= MaxInt64
    ensures Solvent(l + [e], w)
  {
    forall n | 0 <= n <= |l| + 1
      ensures 0 <= Net((l + [e])[..n], w) <= MaxInt64
    {
      if n <= |l| {
        assert (l + [e])[..n] == l[..n];
      } else {
        assert (l + [e])[..n] == l + [e];
      }
    }
  }

  lemma NetOfUntouched(l: seq<Entry>, w: WalletId)
    requires forall i :: 0 <= i < |l| ==> l[i].wallet != w
    ensures Net(l, w) == 0 && Moves(l, w) == 0
    ensures Solvent(l, w)
  {
    forall n | 0 <= n <= |l|
      ensures Net(l[..n], w) == 0
    {
      if n < |l| {
        NetOfUntouched(l[..n], w);
      } else if n > 0 {
        assert l[..n] == l;
        NetOfUntouched(l[..n - 1], w);
      }
    }
    assert l[..|l|] == l;
    if l != [] {
      NetOfUntouched(l[..|l| - 1], w);
    }
  }

  lemma OpenKeepsSound(db: Db, w: WalletId)
    requires Sound(db)
    ensures Evolves(db, Open(db, w))
  {
    if w !in db.balances {
      NetOfUntouched(db.ledger, w);
      var after := Open(db, w);
      forall x | x in after.balances
        ensures Booked(after, x)
      {
        if x != w {
          assert Booked(db, x);
        }
      }
    }
  }

  lemma SerialKeepsBooked(db: Db, e: Entry, w: WalletId)
    requires Sound(db) && SerialEnabled(db, e) && w in db.balances
    ensures Booked(Serial(db, e), w)
  {
    assert Booked(db, w);
    AppendedSums(db.ledger, e, w);
    assert db.ledger[..|db.ledger|] == db.ledger;
    assert 0 <= Net(db.ledger[..|db.ledger|], w) <= MaxInt64;
    AppendedSolvent(db.ledger, e, w);
  }

  lemma SerialKeepsSound(db: Db, e: Entry)
    requires Sound(db) && SerialEnabled(db, e)
    ensures Evolves(db, Serial(db, e))
  {
    var after := Serial(db, e);
    forall w | w in after.balances
      ensures Booked(after, w)
    {
      SerialKeepsBooked(db, e, w);
    }
  }

  // A compare-and-set that succeeds is a serial step, provided that the new balance was
  // computed from a balance that was stored when the version was the expected one.
  lemma CommitIsSerial(db: Db, n: nat, e: Entry, seen: Balance, next: Balance)
    requires Sound(db) && AsOf(db.ledger, n, e.wallet, seen) && e.wallet in db.balances
    requires Apply(e.typ, seen, e.amount) == Ok(next)
    requires Refusal(db, e.wallet, seen.version, next.minor, e).None?
    ensures seen == db.balances[e.wallet]
    ensures SerialEnabled(db, e)
    ensures Commit(db, e.wallet, seen.version, next.minor, e) == Serial(db, e)
  {
    assert Booked(db, e.wallet);
    QuietSuffix(db.ledger, e.wallet, n);
  }

  lemma Reflexive(db: Db)
    requires Sound(db)
    ensures Evolves(db, db)
  {
  }

  lemma FindIsStable(a: seq<Entry>, b: seq<Entry>, key: Key)
    requires a <= b && Find(a, key).Some?
    ensures Find(b, key) == Find(a, key)
  {
    FoundStays(a, b, Under(key));
  }

  lemma FoundIsThere(l: seq<Entry>, key: Key)
    ensures Find(l, key).Some? <==> HasKey(l, key)
  {
  }

  lemma HasKeyIsStable(a: seq<Entry>, b: seq<Entry>, key: Key)
    requires a <= b && HasKey(a, key)
    ensures HasKey(b, key)
  {
  }

  // Keys being distinct, the entry found is the only one.
  lemma FindIsOnly(l: seq<Entry>, i: nat)
    requires KeysDistinct(l) && i < |l|
    ensures Find(l, l[i].key) == Some(l[i])
  {
  }

  /**
    The tables themselves. The fault a statement suffers is the connection's choice; it is
    reported so that the contract can name it.
   */
  class Repo {
    var balances: map<WalletId, Balance>
    var ledger: seq<Entry>
    var holders: map<WalletId, Holder>
    const healthy: bool   // no statement fails

    constructor (healthy: bool)
      ensures Contents() == Db(map[], []) && holders == map[] && this.healthy == healthy
      ensures Sound(Contents())
    {
      this.healthy, balances, ledger, holders := healthy, map[], [], map[];
    }

    function Contents(): Db
      reads this
    {
      Db(balances, ledger)
    }

    // The wallet and its balance, in one transaction.
    method CreateWallet(w: WalletId, holder: Holder) returns (err: Option<Error>, ghost fault: Fault)
      requires Sound(Contents())
      modifies this
      ensures Evolves(old(Contents()), Contents())
      ensures fault == Fails ==> err == Some(Unavailable)
      ensures fault != Fails && Taken(old(holders), w, holder) ==> err == Some(AlreadyExists)
      ensures fault != Fails && !Taken(old(holders), w, holder) ==>
                err == (if fault == AckLost then Some(Unavailable) else None)
                && Contents() == Open(old(Contents()), w) && holders == old(holders)[w := holder]
      ensures fault == Fails || Taken(old(holders), w, holder) ==>
                Contents() == old(Contents()) && holders == old(holders)
      ensures healthy ==> fault == NoFault
    {
      OpenKeepsSound(Contents(), w);
      var up: bool := *;
      fault := Fails;
      if !up && !healthy {
        return Some(Unavailable), fault;
      }
      fault := NoFault;
      if Taken(holders, w, holder) {
        return Some(AlreadyExists), fault;
      }
      var commits: bool := *;
      if !commits && !healthy {
        fault := Fails;
        return Some(Unavailable), fault;
      }
      holders := holders[w := holder];
      if w !in balances {
        balances := balances[w := Balance(0, 0)];
      }
      var acknowledged: bool := *;
      fault := if acknowledged || healthy then NoFault else AckLost;
      err := if acknowledged || healthy then None else Some(Unavailable);
    }

    method GetBalance(w: WalletId) returns (r: Result<Balance, Error>, ghost fault: Fault)
      ensures r == Read(Contents(), w, fault)
      ensures r.Ok? ==> w in balances && r.value == balances[w]
      ensures r == Err(NotFound) ==> w !in balances
      ensures healthy ==> fault == NoFault
    {
      var up: bool := *;
      fault := if up || healthy then NoFault else Fails;
      if !up && !healthy {
        r := Err(Unavailable);
      } else if w !in balances {
        r := Err(NotFound);
      } else {
        r := Ok(balances[w]);
      }
    }

    method GetEntryByIdempotency(key: Key) returns (r: Result<Option<Entry>, Error>, ghost fault: Fault)
      ensures r == ReadEntry(Contents(), key, fault)
      ensures r.Ok? && r.value.Some? ==> r.value.value in ledger && r.value.value.key == key
      ensures r.Ok? && r.value.None? ==> !HasKey(ledger, key)
      ensures healthy ==> fault == NoFault
    {
      var up: bool := *;
      fault := if up || healthy then NoFault else Fails;
      if up || healthy {
        r := Ok(Find(ledger, key));
      } else {
        r := Err(Unavailable);
      }
    }

    // An update guarded by the version, then an insert under the unique keys, then commit;
    // any error rolls both back.
    method MutateBalance(w: WalletId, expected: int64, newMinor: int64, e: Entry)
      returns (err: Option<Error>, ghost fault: Fault)
      modifies this`balances, this`ledger
      ensures (Contents(), err) == Mutate(old(Contents()), w, expected, newMinor, e, fault)
      ensures healthy ==> fault == NoFault
    {
      var up: bool := *;
      fault := Fails;
      if !up && !healthy {
        return Some(Unavailable), fault;
      }
      fault := NoFault;
      if w !in balances || balances[w].version != expected {
        return Some(VersionConflict), fault;
      }
      if newMinor < 0 || expected == MaxInt64 {
        return Some(Rejected), fault;
      }
      var updated := balances[w := Balance(newMinor, expected + 1)];
      if e.amount <= 0 {
        return Some(Rejected), fault;
      }
      if HasKey(ledger, e.key) || HasId(ledger, e.id) {
        return Some(AlreadyExists), fault;
      }
      if e.wallet !in balances {
        return Some(Rejected), fault;
      }
      var commits: bool := *;
      if !commits && !healthy {
        fault := Fails;
        return Some(Unavailable), fault;
      }
      balances, ledger := updated, ledger + [e];
      var acknowledged: bool := *;
      fault := if acknowledged || healthy then NoFault else AckLost;
      err := if acknowledged || healthy then None else Some(Unavailable);
    }

    // Everyone else: any number of wallets opened and of serial mutations committed.
    method Interfere()
      requires Sound(Contents())
      modifies this
      ensures Evolves(old(Contents()), Contents())
    {
      var steps: nat := *;
      while steps > 0
        invariant Evolves(old(Contents()), Contents())
        decreases steps
      {
        var w: WalletId, user: nat, currency: string := *, *, *;
        var err;
        ghost var fault;
        err, fault := CreateWallet(w, Holder(user, currency));
        var e: Entry := *;
        if SerialEnabled(Contents(), e) {
          SerialKeepsSound(Contents(), e);
          balances, ledger := balances[e.wallet := Apply(e.typ, balances[e.wallet], e.amount).value], ledger + [e];
        }
        steps := steps - 1;
      }
    }
  }
}
