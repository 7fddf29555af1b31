/**
  The notification service: claim an event, then save its notification, for each message
  of the topic; and the loop that feeds it.
 */
module Notification {
  import opened Wrappers
  import WalletStore
  import opened TransferStore
  import opened Outbox

  datatype Note = Note(eventId: string, transferId: string, channel: string, payload: Bytes)

  datatype Inbox = Inbox(claimed: set<string>, notes: seq<Note>)

  // An insert under a primary key: None if it failed, Some(false) if the key was taken.
  function TryClaim(db: Inbox, eventId: string, fault: Fault): (Inbox, Option<bool>) {
    if fault == WalletStore.Fails then (db, None)
    else if eventId in db.claimed then (db, if fault == WalletStore.NoFault then Some(false) else None)
    else (db.(claimed := db.claimed + {eventId}), if fault == WalletStore.NoFault then Some(true) else None)
  }

  predicate Noted(notes: seq<Note>, eventId: string) {
    exists i :: 0 <= i < |notes| && notes[i].eventId == eventId
  }

  // An insert under a unique event id; true if it reports success.
  function Save(db: Inbox, n: Note, fault: Fault): (Inbox, bool) {
    if fault == WalletStore.Fails || Noted(db.notes, n.eventId) then (db, false)
    else (db.(notes := db.notes + [n]), fault == WalletStore.NoFault)
  }

  function NoteOf(eventId: string, event: TransferCompleted): Note {
    Note(eventId, event.transferId, "log", Json(event))
  }

  // At most one notification per event, and only of claimed events.
  ghost predicate NotesInv(db: Inbox) {
    && (forall i, j :: 0 <= i < |db.notes| && 0 <= j < |db.notes| && db.notes[i].eventId == db.notes[j].eventId ==>
        i == j)
    && (forall i :: 0 <= i < |db.notes| ==> db.notes[i].eventId in db.claimed)
  }

  /******* Without faults *******/

  function Handled(db: Inbox, eventId: string, payload: Bytes): Inbox {
    if eventId in db.claimed then db
    else if payload.NotJson? then db.(claimed := db.claimed + {eventId})
    else Inbox(db.claimed + {eventId}, db.notes + [NoteOf(eventId, payload.event)])
  }

  function Decimal(n: nat): string {
    if n < 10 then ['0' + n as char] else Decimal(n / 10) + ['0' + (n % 10) as char]
  }

  // A message without a key is known by its place in the topic.
  function EventIdOf(topic: string, partition: nat, offset: nat, key: string): string {
    if key == "" then topic + "-" + Decimal(partition) + "-" + Decimal(offset) else key
  }

  lemma {:induction false} DecimalDigits(n: nat)
    ensures forall k :: 0 <= k < |Decimal(n)| ==> '0' <= Decimal(n)[k] <= '9'
    ensures n >= 10 ==> |Decimal(n)| >= 2
    ensures |Decimal(n)| >= 1
  {
    if n >= 10 {
      DecimalDigits(n / 10);
    }
  }

  lemma {:induction false} DecimalIsInjective(m: nat, n: nat)
    requires Decimal(m) == Decimal(n)
    ensures m == n
    decreases m
  {
    DecimalDigits(m);
    DecimalDigits(n);
    var s, t := Decimal(m), Decimal(n);
    assert s[|s| - 1] == '0' + (m % 10) as char && t[|t| - 1] == '0' + (n % 10) as char;
    if m >= 10 {
      assert s[..|s| - 1] == Decimal(m / 10) && t[..|t| - 1] == Decimal(n / 10);
      DecimalIsInjective(m / 10, n / 10);
    }
  }

  lemma LastPart(a: string, x: string, b: string, y: string)
    requires a + "-" + x == b + "-" + y
    requires (forall k :: 0 <= k < |x| ==> x[k] != '-') && (forall k :: 0 <= k < |y| ==> y[k] != '-')
    ensures a == b && x == y
  {
    LastDash(a, x);
    LastDash(b, y);
    var s := a + "-" + x;
    assert s[..|a|] == a && s[|a| + 1..] == x && s[..|b|] == b && s[|b| + 1..] == y;
  }

  lemma LastDash(a: string, x: string)
    requires forall k :: 0 <= k < |x| ==> x[k] != '-'
    ensures var s := a + "-" + x; s[|a|] == '-' && forall k :: |a| < k < |s| ==> s[k] != '-'
  {
  }

  // Messages without a key are one event only if they are one message.
  lemma PlacesAreEvents(topic: string, p: nat, a: nat, q: nat, b: nat)
    ensures EventIdOf(topic, p, a, "") == EventIdOf(topic, q, b, "") <==> p == q && a == b
    ensures EventIdOf("events", 2, 30, "") == "events-2-30"
  {
    if EventIdOf(topic, p, a, "") == EventIdOf(topic, q, b, "") {
      DecimalDigits(p);
      DecimalDigits(q);
      DecimalDigits(a);
      DecimalDigits(b);
      LastPart(topic + "-" + Decimal(p), Decimal(a), topic + "-" + Decimal(q), Decimal(b));
      LastPart(topic, Decimal(p), topic, Decimal(q));
      DecimalIsInjective(a, b);
      DecimalIsInjective(p, q);
    }
    assert Decimal(30) == "30";
  }

  function Consumed(db: Inbox, topic: string, partition: nat, log: seq<Message>, start: nat, end: nat): Inbox
    requires start <= end <= |log|
  {
    if start == end then db
    else Handled(Consumed(db, topic, partition, log, start, end - 1),
                 EventIdOf(topic, partition, end - 1, log[end - 1].key), log[end - 1].value)
  }

  // What any handling, faulty or not, may do: nothing; claim; or claim and save.
  ghost predicate MayHandle(a: Inbox, b: Inbox, eventId: string, payload: Bytes) {
    || b == a
    || (eventId !in a.claimed && b == a.(claimed := a.claimed + {eventId}))
    || (eventId !in a.claimed && payload.Json? && b == Handled(a, eventId, payload))
  }

  class Store {
    var claimed: set<string>
    var notes: seq<Note>
    const healthy: bool

    constructor (healthy: bool)
      ensures Contents() == Inbox({}, []) && NotesInv(Contents()) && this.healthy == healthy
    {
      this.healthy, claimed, notes := healthy, {}, [];
    }

    function Contents(): Inbox
      reads this
    {
      Inbox(claimed, notes)
    }

    method TryClaimEvent(eventId: string) returns (r: Option<bool>, ghost fault: Fault)
      modifies this
      ensures (Contents(), r) == TryClaim(old(Contents()), eventId, fault)
      ensures claimed == old(claimed) + (if fault == WalletStore.Fails then {} else {eventId}) && notes == old(notes)
      ensures r == if fault == WalletStore.NoFault then Some(eventId !in old(claimed)) else None
      ensures healthy ==> fault == WalletStore.NoFault
    {
      var up: bool, acknowledged: bool := *, *;
      fault := WalletStore.Fails;
      if !up && !healthy {
        return None, fault;
      }
      var fresh_ := eventId !in claimed;
      claimed := claimed + {eventId};
      assert !fresh_ ==> claimed == old(claimed);
      fault := if acknowledged || healthy then WalletStore.NoFault else WalletStore.AckLost;
      r := if acknowledged || healthy then Some(fresh_) else None;
    }

    method SaveNotification(n: Note) returns (ok: bool, ghost fault: Fault)
      modifies this
      ensures (Contents(), ok) == Save(old(Contents()), n, fault)
      ensures claimed == old(claimed) && (ok <==> fault == WalletStore.NoFault && !Noted(old(notes), n.eventId))
      ensures notes == old(notes) + if fault == WalletStore.Fails || Noted(old(notes), n.eventId) then [] else [n]
      ensures healthy ==> fault == WalletStore.NoFault
    {
      var up: bool, acknowledged: bool := *, *;
      fault := WalletStore.Fails;
      if !up && !healthy {
        return false, fault;
      }
      fault := if acknowledged || healthy then WalletStore.NoFault else WalletStore.AckLost;
      if Noted(notes, n.eventId) {
        return false, fault;
      }
      notes := notes + [n];
      ok := acknowledged || healthy;
    }
  }

  lemma ClaimedIsUnnoted(db: Inbox, eventId: string)
    requires NotesInv(db) && eventId !in db.claimed
    ensures !Noted(db.notes, eventId)
  {
  }

  lemma MayHandleKeepsInv(a: Inbox, b: Inbox, eventId: string, payload: Bytes)
    requires NotesInv(a) && MayHandle(a, b, eventId, payload)
    ensures NotesInv(b)
  {
  }

  class Service {
    const store: Store

    constructor (store: Store)
      ensures this.store == store
    {
      this.store := store;
    }

    // An event that was claimed before is skipped; a new one is claimed first and saved after,
    // so that an error in between leaves it claimed for good.
    method Handle(eventId: string, payload: Bytes) returns (failed: bool)
      requires NotesInv(store.Contents())
      modifies store
      ensures NotesInv(store.Contents())
      ensures MayHandle(old(store.Contents()), store.Contents(), eventId, payload)
      ensures !failed ==> store.Contents() == Handled(old(store.Contents()), eventId, payload)
      ensures store.healthy ==> store.Contents() == Handled(old(store.Contents()), eventId, payload)
      ensures store.healthy && payload.Json? ==> !failed
    {
      ghost var was := store.Contents();
      ghost var fault;
      var claimed;
      claimed, fault := store.TryClaimEvent(eventId);
      MayHandleKeepsInv(was, store.Contents(), eventId, payload);
      if claimed.None? {
        return true;
      }
      if !claimed.value {
        return false;
      }
      ClaimedIsUnnoted(was, eventId);
      if payload.NotJson? {
        return true;
      }
      var ok;
      ok, fault := store.SaveNotification(NoteOf(eventId, payload.event));
      MayHandleKeepsInv(was, store.Contents(), eventId, payload);
      failed := !ok;
    }
  }

  /** The consumer's place in the topic. */
  class Reader {
    const topic: Writer
    const name: string
    const partition: nat
    const healthy: bool
    var position: nat    // the next message to fetch
    var committed: nat   // where a restarted consumer would begin

    constructor (topic: Writer, name: string, partition: nat, healthy: bool, from: nat)
      ensures this.topic == topic && this.name == name && this.partition == partition
      ensures this.healthy == healthy && position == committed == from
    {
      this.topic, this.name, this.partition, this.healthy, position, committed := topic, name, partition, healthy,
          from, from;
    }

    // None when the reader is broken, or cancelled; a healthy one is cancelled, at some time, when
    // the topic has no more messages.
    method Fetch() returns (r: Option<Message>, cancelled: bool)
      requires position <= |topic.log|
      modifies this
      ensures r.Some? ==>
                old(position) < |topic.log| && r.value == topic.log[old(position)] && position == old(position) + 1
      ensures r.None? ==> position == old(position)
      ensures healthy && r.None? ==> cancelled && position == |topic.log|
      ensures committed == old(committed)
    {
      var up: bool, stopped: bool := *, *;
      cancelled := healthy || stopped;
      if (up || healthy) && position < |topic.log| {
        r := Some(topic.log[position]);
        position := position + 1;
      } else {
        r := None;
      }
    }

    method Commit(offset: nat) returns (ok: bool)
      modifies this`committed
      ensures committed == if ok then offset + 1 else old(committed)
      ensures healthy ==> ok
    {
      var up: bool := *;
      ok := up || healthy;
      if ok {
        committed := offset + 1;
      }
    }
  }

  // A notification that was not there before stems from a message of the topic.
  ghost predicate Traced(a: Inbox, b: Inbox, reader: Reader, upTo: nat)
    reads reader, reader.topic
    requires upTo <= |reader.topic.log|
  {
    && a.notes <= b.notes && a.claimed <= b.claimed
    && forall n :: |a.notes| <= n < |b.notes| ==>
        FromMessage(b.notes[n], reader.topic.log, reader.name, reader.partition, upTo)
  }

  ghost predicate FromMessage(note: Note, log: seq<Message>, name: string, partition: nat, upTo: nat)
    requires upTo <= |log|
  {
    exists i :: 0 <= i < upTo && log[i].value.Json?
                && note == NoteOf(EventIdOf(name, partition, i, log[i].key), log[i].value.event)
  }

  class Runner {
    const reader: Reader
    const service: Service

    constructor (reader: Reader, service: Service)
      ensures this.reader == reader && this.service == service
    {
      this.reader, this.service := reader, service;
    }

    predicate Healthy() {
      reader.healthy && service.store.healthy
    }

    // One message: an error of its handling is only logged, and leaves it uncommitted until a
    // later message of the partition is committed.
    method HandleNext(msg: Message, offset: nat, ghost was: Inbox) returns (ok: bool)
      requires NotesInv(service.store.Contents())
      requires offset < |reader.topic.log| && msg == reader.topic.log[offset]
      requires Traced(was, service.store.Contents(), reader, offset)
      modifies reader`committed, service.store
      ensures NotesInv(service.store.Contents())
      ensures Traced(was, service.store.Contents(), reader, offset + 1)
      ensures service.store.healthy ==>
                service.store.Contents()
                == Handled(old(service.store.Contents()), EventIdOf(reader.name, reader.partition, offset, msg.key),
                    msg.value)
      ensures reader.committed != old(reader.committed) ==>
                reader.committed == offset + 1
                && service.store.Contents()
                   == Handled(old(service.store.Contents()), EventIdOf(reader.name, reader.partition, offset, msg.key),
                       msg.value)
      ensures Healthy() ==> ok && (msg.value.Json? ==> reader.committed == offset + 1)
    {
      var eventId := EventIdOf(reader.name, reader.partition, offset, msg.key);
      ghost var before := service.store.Contents();
      var failed := service.Handle(eventId, msg.value);
      TracedStep(was, before, service.store.Contents(), msg, offset);
      ok := true;
      if !failed {
        ok := reader.Commit(offset);
      }
    }

    lemma TracedStep(was: Inbox, a: Inbox, b: Inbox, msg: Message, offset: nat)
      requires offset < |reader.topic.log| && msg == reader.topic.log[offset]
      requires Traced(was, a, reader, offset)
      requires MayHandle(a, b, EventIdOf(reader.name, reader.partition, offset, msg.key), msg.value)
      ensures Traced(was, b, reader, offset + 1)
    {
    }

    // Fetch, handle, commit, until the reader is cancelled or something other than handling fails.
    method Run() returns (failed: bool)
      requires NotesInv(service.store.Contents()) && reader.position <= |reader.topic.log|
      modifies reader, service.store
      ensures NotesInv(service.store.Contents()) && reader.position <= |reader.topic.log|
      ensures old(reader.position) <= reader.position
      ensures Traced(old(service.store.Contents()), service.store.Contents(), reader, reader.position)
      ensures Healthy() ==>
                !failed
                && reader.position == |reader.topic.log|
                && service.store.Contents()
                   == Consumed(old(service.store.Contents()), reader.name, reader.partition, reader.topic.log,
                               old(reader.position), |reader.topic.log|)
    {
      ghost var was, from := service.store.Contents(), reader.position;
      while true
        invariant NotesInv(service.store.Contents()) && from <= reader.position <= |reader.topic.log|
        invariant Traced(was, service.store.Contents(), reader, reader.position)
        invariant Healthy() ==> service.store.Contents()
                                == Consumed(was, reader.name, reader.partition, reader.topic.log, from, reader.position)
        decreases |reader.topic.log| - reader.position
      {
        var msg, cancelled := reader.Fetch();
        if msg.None? {
          return !cancelled;
        }
        var ok := HandleNext(msg.value, reader.position - 1, was);
        if !ok {
          return true;
        }
      }
    }
  }
}
