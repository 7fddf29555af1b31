/**
  The transfer database: transfer rows and their outbox events, written by one
  transaction, and the cache of finished idempotency keys in front of it.
 */
module TransferStore {
  import opened Wrappers
  import opened Keys
  import opened Ledger
  import WalletStore

  type Fault = WalletStore.Fault

  type UserId = nat
  type EventId = nat

  datatype Status = Pending | Completed | Abandoned

  datatype Transfer = Transfer(id: TransferId, from: WalletId, to: WalletId, amount: int64, currency: string,
                               status: Status, user: UserId, key: string)

  // The fields of the event's JSON object; encoding is not modelled, only its possible absence.
  datatype TransferCompleted = TransferCompleted(transferId: TransferId, from: WalletId, to: WalletId, amount: int64,
                                                 currency: string, user: UserId, status: Status)

  datatype Bytes = Json(event: TransferCompleted) | NotJson

  datatype Event = Event(id: EventId, aggregate: TransferId, payload: Bytes, createdAt: nat)

  datatype OutboxRow = OutboxRow(event: Event, published: Option<nat>)

  datatype Db = Db(rows: seq<Transfer>, outbox: seq<OutboxRow>)

  datatype StoreError = StoreDown | NoSuchRow | Duplicate

  function PayloadOf(tr: Transfer): Bytes {
    Json(TransferCompleted(tr.id, tr.from, tr.to, tr.amount, tr.currency, tr.user, tr.status))
  }

  function CompletedEvent(tr: Transfer, id: EventId, at: nat): Event {
    Event(id, tr.id, PayloadOf(tr), at)
  }

  function HasId(id: TransferId): Transfer -> bool {
    (tr: Transfer) => tr.id == id
  }

  function HasKey(key: string): Transfer -> bool {
    (tr: Transfer) => tr.key == key
  }

  function ById(rows: seq<Transfer>, id: TransferId): (r: Option<Transfer>)
    ensures r.Some? ==> r.value in rows && r.value.id == id
    ensures r.None? ==> forall i :: 0 <= i < |rows| ==> rows[i].id != id
  {
    FindFirst(rows, HasId(id))
  }

  function ByKey(rows: seq<Transfer>, key: string): (r: Option<Transfer>)
    ensures r.Some? ==> r.value in rows && r.value.key == key
    ensures r.None? ==> forall i :: 0 <= i < |rows| ==> rows[i].key != key
  {
    FindFirst(rows, HasKey(key))
  }

  predicate HasEvent(outbox: seq<OutboxRow>, id: EventId) {
    exists i :: 0 <= i < |outbox| && outbox[i].event.id == id
  }

  function Refusal(db: Db, tr: Transfer, ev: Event): Option<StoreError> {
    if tr.amount <= 0 then Some(StoreDown)
    else if ById(db.rows, tr.id).Some? || ByKey(db.rows, tr.key).Some? then Some(Duplicate)
    else if HasEvent(db.outbox, ev.id) then Some(StoreDown)
    else None
  }

  // The transfer row and its event, in one transaction.
  function Insert(db: Db, tr: Transfer, ev: Event, fault: Fault): (Db, Option<StoreError>) {
    if fault == WalletStore.Fails then (db, Some(StoreDown))
    else
      var refusal := Refusal(db, tr, ev);
      if refusal.Some? then (db, refusal)
      else (Db(db.rows + [tr], db.outbox + [OutboxRow(ev, None)]),
            if fault == WalletStore.AckLost then Some(StoreDown) else None)
  }

  function Mark(outbox: seq<OutboxRow>, id: EventId, at: nat): (r: seq<OutboxRow>)
    ensures |r| == |outbox|
    ensures forall i :: 0 <= i < |r| ==> r[i] == if outbox[i].event.id == id then OutboxRow(outbox[i].event, Some(at))
        else outbox[i]
  {
    seq(|outbox|, i requires 0 <= i < |outbox| =>
      if outbox[i].event.id == id then OutboxRow(outbox[i].event, Some(at)) else outbox[i])
  }

  // The payload tells of this transfer, field by field.
  predicate Describes(payload: Bytes, tr: Transfer) {
    && payload.Json?
    && payload.event.transferId == tr.id
    && payload.event.from == tr.from && payload.event.to == tr.to
    && payload.event.amount == tr.amount && payload.event.currency == tr.currency
    && payload.event.user == tr.user
    && payload.event.status == tr.status == Completed
  }

  predicate Announces(e: Event, tr: Transfer) {
    e.aggregate == tr.id && Describes(e.payload, tr)
  }

  /******* What holds of every reachable transfer database *******/

  ghost predicate Paired(tr: Transfer, row: OutboxRow) {
    && tr.status == Completed
    && row.event.aggregate == tr.id
    && row.event.payload == PayloadOf(tr)
  }

  ghost predicate DistinctRows(rows: seq<Transfer>) {
    forall i, j :: 0 <= i < |rows| && 0 <= j < |rows| && (rows[i].id == rows[j].id || rows[i].key == rows[j].key) ==>
        i == j
  }

  ghost predicate DistinctEvents(outbox: seq<OutboxRow>) {
    forall i, j :: 0 <= i < |outbox| && 0 <= j < |outbox| && outbox[i].event.id == outbox[j].event.id ==> i == j
  }

  // Rows and events correspond one to one, by position and by aggregate id.
  ghost predicate Consistent(db: Db) {
    && |db.rows| == |db.outbox|
    && (forall i :: 0 <= i < |db.rows| ==> Paired(db.rows[i], db.outbox[i]))
    && DistinctRows(db.rows)
    && DistinctEvents(db.outbox)
  }

  // Rows are never changed or removed; events only ever become published.
  ghost predicate OutboxGrows(a: seq<OutboxRow>, b: seq<OutboxRow>) {
    && |a| <= |b|
    && forall i :: 0 <= i < |a| ==> b[i].event == a[i].event && (a[i].published.Some? ==> b[i].published.Some?)
  }

  ghost predicate Grows(a: Db, b: Db) {
    && Consistent(b)
    && a.rows <= b.rows
    && OutboxGrows(a.outbox, b.outbox)
  }

  lemma InsertGrows(db: Db, tr: Transfer, ev: Event, fault: Fault)
    requires Consistent(db) && tr.status == Completed && ev.aggregate == tr.id && ev.payload == PayloadOf(tr)
    ensures Grows(db, Insert(db, tr, ev, fault).0)
    ensures Insert(db, tr, ev, fault).1.None? ==>
              ById(Insert(db, tr, ev, fault).0.rows, tr.id) == Some(tr)
              && ByKey(Insert(db, tr, ev, fault).0.rows, tr.key) == Some(tr)
  {
    var db' := Insert(db, tr, ev, fault).0;
    if db' != db {
      assert db'.rows[..|db.rows|] == db.rows;
    }
  }

  // When the insert answers what: nothing is stored twice, and a row never without its event.
  lemma InsertOutcomes(db: Db, tr: Transfer, ev: Event, fault: Fault)
    ensures var (db', err) := Insert(db, tr, ev, fault);
            var known := exists i :: 0 <= i < |db.rows| && (db.rows[i].id == tr.id || db.rows[i].key == tr.key);
            var sound := tr.amount > 0 && !known && !HasEvent(db.outbox, ev.id);
            && (err == Some(Duplicate) <==> fault != WalletStore.Fails && tr.amount > 0 && known)
            && (err.None? <==> fault == WalletStore.NoFault && sound)
            && err != Some(NoSuchRow)
            && db' == if fault != WalletStore.Fails && sound then Db(db.rows + [tr], db.outbox + [OutboxRow(ev, None)])
                      else db
  {
    if exists i :: 0 <= i < |db.rows| && (db.rows[i].id == tr.id || db.rows[i].key == tr.key) {
      var i :| 0 <= i < |db.rows| && (db.rows[i].id == tr.id || db.rows[i].key == tr.key);
      hide HasEvent;
    }
  }

  lemma MarkGrows(db: Db, id: EventId, at: nat)
    requires Consistent(db)
    ensures Grows(db, db.(outbox := Mark(db.outbox, id, at)))
  {
  }

  lemma ByKeyIsStable(a: seq<Transfer>, b: seq<Transfer>, key: string)
    requires a <= b && ByKey(a, key).Some?
    ensures ByKey(b, key) == ByKey(a, key)
  {
    FoundStays(a, b, HasKey(key));
  }

  lemma ByIdIsStable(a: seq<Transfer>, b: seq<Transfer>, id: TransferId)
    requires a <= b && ById(a, id).Some?
    ensures ById(b, id) == ById(a, id)
  {
    FoundStays(a, b, HasId(id));
  }

  /** The two tables. */
  class Tables {
    var rows: seq<Transfer>
    var outbox: seq<OutboxRow>
    const healthy: bool   // no statement fails

    constructor (healthy: bool)
      ensures Contents() == Db([], []) && Consistent(Contents()) && this.healthy == healthy
    {
      this.healthy, rows, outbox := healthy, [], [];
    }

    function Contents(): Db
      reads this
    {
      Db(rows, outbox)
    }

    method GetByID(id: TransferId) returns (r: Result<Transfer, StoreError>)
      ensures r.Ok? ==> ById(rows, id) == Some(r.value)
      ensures r == Err(NoSuchRow) ==> ById(rows, id).None?
      ensures healthy ==> r == if ById(rows, id).Some? then Ok(ById(rows, id).value) else Err(NoSuchRow)
    {
      var up: bool := *;
      var found := ById(rows, id);
      r := if !up && !healthy then Err(StoreDown) else if found.None? then Err(NoSuchRow) else Ok(found.value);
    }

    method GetByIdempotencyKey(key: string) returns (r: Result<Option<Transfer>, StoreError>)
      ensures r.Ok? ==> r.value == ByKey(rows, key)
      ensures healthy ==> r.Ok?
    {
      var up: bool := *;
      r := if up || healthy then Ok(ByKey(rows, key)) else Err(StoreDown);
    }

    method InsertCompletedWithOutbox(tr: Transfer, ev: Event) returns (err: Option<StoreError>, ghost fault: Fault)
      modifies this
      ensures (Contents(), err) == Insert(old(Contents()), tr, ev, fault)
      ensures healthy ==> fault == WalletStore.NoFault
    {
      var up: bool := *;
      fault := WalletStore.Fails;
      if !up && !healthy {
        return Some(StoreDown), fault;
      }
      fault := WalletStore.NoFault;
      if tr.amount <= 0 {
        return Some(StoreDown), fault;
      }
      var sameId, sameKey := ById(rows, tr.id), ByKey(rows, tr.key);
      if sameId.Some? || sameKey.Some? {
        return Some(Duplicate), fault;
      }
      if HasEvent(outbox, ev.id) {
        return Some(StoreDown), fault;
      }
      var commits: bool := *;
      if !commits && !healthy {
        fault := WalletStore.Fails;
        return Some(StoreDown), fault;
      }
      rows, outbox := rows + [tr], outbox + [OutboxRow(ev, None)];
      var acknowledged: bool := *;
      fault := if acknowledged || healthy then WalletStore.NoFault else WalletStore.AckLost;
      err := if acknowledged || healthy then None else Some(StoreDown);
    }

    // Other transfers complete.
    method Insertions()
      requires Consistent(Contents())
      modifies this
      ensures Grows(old(Contents()), Contents())
      ensures old(outbox) <= outbox
      ensures forall i :: |old(outbox)| <= i < |outbox| ==> outbox[i].published.None?
    {
      var steps: nat := *;
      while steps > 0
        invariant Grows(old(Contents()), Contents())
        invariant old(outbox) <= outbox
        invariant forall i :: |old(outbox)| <= i < |outbox| ==> outbox[i].published.None?
        decreases steps
      {
        var tr: Transfer, id: EventId, at: nat := *, *, *;
        var done := tr.(status := Completed);
        var ev := CompletedEvent(done, id, at);
        InsertGrows(Contents(), done, ev, WalletStore.NoFault);
        if Refusal(Contents(), done, ev).None? {
          rows, outbox := rows + [done], outbox + [OutboxRow(ev, None)];
        }
        steps := steps - 1;
      }
    }

    // Other transfers complete, and workers mark events.
    method Interfere()
      requires Consistent(Contents())
      modifies this
      ensures Grows(old(Contents()), Contents())
    {
      var steps: nat := *;
      while steps > 0
        invariant Grows(old(Contents()), Contents())
        decreases steps
      {
        var tr: Transfer, id: EventId, at: nat := *, *, *;
        var inserts: bool := *;
        if inserts {
          var done := tr.(status := Completed);
          var ev := CompletedEvent(done, id, at);
          InsertGrows(Contents(), done, ev, WalletStore.NoFault);
          if Refusal(Contents(), done, ev).None? {
            rows, outbox := rows + [done], outbox + [OutboxRow(ev, None)];
          }
        } else {
          MarkGrows(Contents(), id, at);
          outbox := Mark(outbox, id, at);
        }
        steps := steps - 1;
      }
    }
  }

  /******* The cache: keys of finished transfers, any of which may expire at any time *******/

  // Every pair names a stored transfer that carries exactly that key.
  ghost predicate Truthful(cache: map<string, TransferId>, rows: seq<Transfer>) {
    forall k :: k in cache ==> ById(rows, cache[k]).Some? && ById(rows, cache[k]).value.key == k
  }

  lemma TruthfulIsStable(cache: map<string, TransferId>, a: seq<Transfer>, b: seq<Transfer>)
    requires Truthful(cache, a) && a <= b
    ensures Truthful(cache, b)
  {
    forall k | k in cache
      ensures ById(b, cache[k]).Some? && ById(b, cache[k]).value.key == k
    {
      ByIdIsStable(a, b, cache[k]);
    }
  }

  // Create's two lookups, cache first.
  function LookUp(cache: map<string, TransferId>, rows: seq<Transfer>, key: string): Option<Transfer> {
    if key in cache then ById(rows, cache[key]) else ByKey(rows, key)
  }

  lemma LookUpIgnoresTruthfulCache(cache: map<string, TransferId>, rows: seq<Transfer>, key: string)
    requires DistinctRows(rows) && Truthful(cache, rows)
    ensures LookUp(cache, rows, key) == LookUp(map[], rows, key)
  {
  }

  class Cache {
    var entries: map<string, TransferId>
    const healthy: bool   // no access fails

    constructor (healthy: bool)
      ensures entries == map[] && this.healthy == healthy
    {
      this.healthy, entries := healthy, map[];
    }

    method Get(key: string) returns (r: Result<Option<TransferId>, StoreError>)
      ensures r.Ok? ==> r.value == if key in entries then Some(entries[key]) else None
      ensures healthy ==> r.Ok?
    {
      var up: bool := *;
      r := if !up && !healthy then Err(StoreDown) else if key in entries then Ok(Some(entries[key])) else Ok(None);
    }

    // Create discards the result, so only the effect is left to say.
    method Set(key: string, id: TransferId)
      modifies this
      ensures entries == old(entries) || entries == old(entries)[key := id]
      ensures healthy ==> entries == old(entries)[key := id]
    {
      var up: bool := *;
      if up || healthy {
        entries := entries[key := id];
      }
    }

    // Entries expire, and other calls fill in transfers they know to be stored.
    method Interfere(tables: Tables)
      requires Truthful(entries, tables.rows)
      modifies this
      ensures Truthful(entries, tables.rows)
    {
      var steps: nat := *;
      while steps > 0
        invariant Truthful(entries, tables.rows)
        decreases steps
      {
        var key: string, id: TransferId := *, *;
        var found := ById(tables.rows, id);
        if found.Some? && found.value.key == key {
          entries := entries[key := id];
        } else {
          entries := entries - {key};
        }
        steps := steps - 1;
      }
    }
  }
}
