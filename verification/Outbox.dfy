/**
  The outbox worker and the publisher it uses: fetch the oldest unpublished events, publish
  each to the broker or to the dead-letter topic, mark it, stop at the first error.
 */
module Outbox {
  import opened Wrappers
  import opened TransferStore

  const BatchSize: nat := 50
  const Retries: nat := 3

  datatype Message = Message(key: string, value: Bytes)

  function MessageOf(e: Event): Message {
    Message(e.aggregate, e.payload)
  }

  predicate Unpublished(rows: seq<OutboxRow>, i: int) {
    0 <= i < |rows| && rows[i].published.None?
  }

  function Age(rows: seq<OutboxRow>, i: int): nat {
    if 0 <= i < |rows| then rows[i].event.createdAt else 0
  }

  /******* What FetchUnpublished promises: the oldest, in order, ties in any order *******/

  ghost predicate Distinct(sel: seq<nat>) {
    forall j, k :: 0 <= j < |sel| && 0 <= k < |sel| && sel[j] == sel[k] ==> j == k
  }

  ghost predicate InOrder(rows: seq<OutboxRow>, sel: seq<nat>) {
    && (forall k :: 0 <= k < |sel| ==> sel[k] < |rows|)
    && (forall j, k :: 0 <= j <= k < |sel| ==> Age(rows, sel[j]) <= Age(rows, sel[k]))
  }

  ghost predicate IsOldest(rows: seq<OutboxRow>, sel: seq<nat>, limit: nat) {
    && |sel| <= limit
    && Distinct(sel)
    && InOrder(rows, sel)
    && (forall k :: 0 <= k < |sel| ==> Unpublished(rows, sel[k]))
    && (forall i :: Unpublished(rows, i) && i !in sel ==>
          |sel| == limit && forall k :: 0 <= k < |sel| ==> Age(rows, sel[k]) <= Age(rows, i))
  }

  ghost function Pending(rows: seq<OutboxRow>): set<nat> {
    set i: nat | i < |rows| && rows[i].published.None?
  }

  // Rows the selection has left behind are no older than any it has taken.
  ghost predicate LeavesYounger(rows: seq<OutboxRow>, sel: seq<nat>) {
    forall i, k :: Unpublished(rows, i) && i !in sel && 0 <= k < |sel| ==> Age(rows, sel[k]) <= Age(rows, i)
  }

  ghost predicate Selected(rows: seq<OutboxRow>, sel: seq<nat>) {
    && Distinct(sel)
    && InOrder(rows, sel)
    && (forall k :: 0 <= k < |sel| ==> Unpublished(rows, sel[k]))
    && LeavesYounger(rows, sel)
  }

  method OldestLeft(rows: seq<OutboxRow>, sel: seq<nat>) returns (best: Option<nat>)
    ensures best.None? ==> forall i :: Unpublished(rows, i) ==> i in sel
    ensures best.Some? ==> Unpublished(rows, best.value) && best.value !in sel
    ensures best.Some? ==> forall i :: Unpublished(rows, i) && i !in sel ==> Age(rows, best.value) <= Age(rows, i)
  {
    best := None;
    for i := 0 to |rows|
      invariant best.None? ==> forall j :: Unpublished(rows, j) && j < i ==> j in sel
      invariant best.Some? ==> Unpublished(rows, best.value) && best.value !in sel
      invariant best.Some? ==> forall j :: Unpublished(rows, j) && j < i && j !in sel ==>
          Age(rows, best.value) <= Age(rows, j)
    {
      if rows[i].published.None? && i !in sel
          && (best.None? || rows[i].event.createdAt < rows[best.value].event.createdAt) {
        best := Some(i);
      }
    }
  }

  lemma SelectNext(rows: seq<OutboxRow>, sel: seq<nat>, i: nat)
    requires Selected(rows, sel) && Unpublished(rows, i) && i !in sel
    requires forall j :: Unpublished(rows, j) && j !in sel ==> Age(rows, i) <= Age(rows, j)
    ensures Selected(rows, sel + [i])
  {
  }

  function EventsAt(rows: seq<OutboxRow>, sel: seq<nat>): (r: seq<Event>)
    requires forall k :: 0 <= k < |sel| ==> sel[k] < |rows|
    ensures |r| == |sel| && forall k :: 0 <= k < |r| ==> r[k] == rows[sel[k]].event
  {
    seq(|sel|, k requires 0 <= k < |sel| => rows[sel[k]].event)
  }

  /** The outbox half of the transfer database. */
  class OutboxStore {
    const tables: Tables
    const healthy: bool   // no statement of the worker fails
    const quiet: bool     // no transfer completes while the worker runs

    constructor (tables: Tables, healthy: bool, quiet: bool)
      ensures this.tables == tables && this.healthy == healthy && this.quiet == quiet
    {
      this.tables, this.healthy, this.quiet := tables, healthy, quiet;
    }

    method FetchUnpublished(limit: nat) returns (r: Result<seq<Event>, StoreError>, ghost sel: seq<nat>)
      ensures healthy ==> r.Ok?
      ensures r.Ok? ==> IsOldest(tables.outbox, sel, limit) && r.value == EventsAt(tables.outbox, sel)
      ensures r.Err? ==> sel == []
    {
      sel := [];
      var up: bool := *;
      if !up && !healthy {
        return Err(StoreDown), sel;
      }
      var out: seq<Event>, taken: seq<nat> := [], [];
      while |out| < limit
        invariant |out| == |taken| <= limit
        invariant Selected(tables.outbox, taken)
        invariant out == EventsAt(tables.outbox, taken)
        decreases limit - |out|
      {
        var best := OldestLeft(tables.outbox, taken);
        if best.None? {
          break;
        }
        SelectNext(tables.outbox, taken, best.value);
        taken, out := taken + [best.value], out + [tables.outbox[best.value].event];
      }
      r, sel := Ok(out), taken;
    }

    method MarkPublished(id: EventId, at: nat) returns (err: Option<StoreError>, ghost marked: bool)
      modifies tables
      ensures tables.rows == old(tables.rows)
      ensures tables.outbox == if marked then Mark(old(tables.outbox), id, at) else old(tables.outbox)
      ensures err.None? ==> marked
      ensures healthy ==> err.None?
    {
      marked := false;
      var up: bool := *;
      if !up && !healthy {
        return Some(StoreDown), marked;
      }
      tables.outbox := Mark(tables.outbox, id, at);
      marked := true;
      var acknowledged: bool := *;
      err := if acknowledged || healthy then None else Some(StoreDown);
    }
  }

  /******* Publishing: three tries at the broker, then the dead-letter topic *******/

  function Copies(m: Message, n: nat): (r: seq<Message>)
    ensures |r| == n && forall i :: 0 <= i < n ==> r[i] == m
  {
    seq(n, _ => m)
  }

  /** One topic. A write may be acknowledged, refused, or carried out and reported as failed. */
  class Writer {
    var log: seq<Message>
    ghost var answers: seq<bool>   // how each write so far was answered
    const up: bool                 // every write is acknowledged
    const definite: bool           // a failed write has had no effect

    constructor (up: bool, definite: bool)
      ensures log == [] && answers == [] && this.up == up && this.definite == definite
    {
      this.up, this.definite, log, answers := up, definite, [], [];
    }

    method Publish(key: string, value: Bytes) returns (ok: bool, ghost wrote: bool)
      modifies this
      ensures log == old(log) + if wrote then [Message(key, value)] else []
      ensures answers == old(answers) + [ok]
      ensures ok ==> wrote
      ensures up ==> ok
      ensures definite ==> ok == wrote
    {
      var writes: bool, acknowledged: bool := *, *;
      ok := up || (writes && acknowledged);
      wrote := false;
      if ok || (writes && !definite) {
        log := log + [Message(key, value)];
        wrote := true;
      }
      answers := answers + [ok];
    }
  }

  // How one publish went: the answers of the broker, then those of the dead-letter topic, and
  // whether the caller's context ended in between.
  datatype Attempts = Attempts(broker: seq<bool>, dead: seq<bool>, cancelled: bool)

  // Tried until an answer is good, three times at most; after three bad ones, and only then,
  // the dead-letter topic is tried once, unless the context has ended.
  predicate Reliable(a: Attempts, ok: bool) {
    && 1 <= |a.broker| <= 3
    && (forall i :: 0 <= i < |a.broker| - 1 ==> !a.broker[i])
    && match (a.broker[|a.broker| - 1], a.cancelled)
       case (true, _) => ok && a.dead == [] && !a.cancelled
       case (false, true) => !ok && a.dead == []
       case (false, false) => |a.broker| == 3 && a.dead == [ok]
  }

  class ReliablePublisher {
    const primary: Writer
    const dlq: Writer
    const patient: bool   // the context it publishes under does not end

    constructor (primary: Writer, dlq: Writer, patient: bool)
      requires primary != dlq
      ensures this.primary == primary && this.dlq == dlq && this.patient == patient
    {
      this.primary, this.dlq, this.patient := primary, dlq, patient;
    }

    // n copies reach the broker and m the dead-letter topic.
    method Publish(key: string, value: Bytes)
      returns (ok: bool, ghost n: nat, ghost m: nat, ghost a: Attempts)
      requires primary != dlq
      modifies primary, dlq
      ensures primary.answers == old(primary.answers) + a.broker && dlq.answers == old(dlq.answers) + a.dead
      ensures Reliable(a, ok) && (patient ==> !a.cancelled)
      ensures primary.log == old(primary.log) + Copies(Message(key, value), n)
      ensures dlq.log == old(dlq.log) + Copies(Message(key, value), m)
      ensures n <= |a.broker| && m <= |a.dead|
      ensures ok ==> n + m > 0
      ensures primary.up ==> ok && n == 1 && m == 0
      ensures patient && dlq.up ==> ok
      ensures primary.definite && dlq.definite ==> n + m == if ok then 1 else 0
    {
      n, m, a := 0, 0, Attempts([], [], false);
      ghost var wrote: bool;
      for i := 0 to Retries
        invariant |a.broker| == i && n <= i && a.dead == [] && !a.cancelled
        invariant forall j :: 0 <= j < i ==> !a.broker[j]
        invariant primary.answers == old(primary.answers) + a.broker
        invariant m == 0 && dlq.log == old(dlq.log) && dlq.answers == old(dlq.answers)
        invariant primary.log == old(primary.log) + Copies(Message(key, value), n)
        invariant primary.up ==> i == 0
        invariant primary.definite ==> n == 0
      {
        ok, wrote := primary.Publish(key, value);
        n, a := n + (if wrote then 1 else 0), a.(broker := a.broker + [ok]);
        if ok {
          return;
        }
        var cancelled: bool := *;
        if cancelled && !patient {
          a := a.(cancelled := true);
          return;
        }
      }
      ok, wrote := dlq.Publish(key, value);
      m, a := if wrote then 1 else 0, a.(dead := [ok]);
    }
  }

  /******* One tick *******/

  ghost predicate Taken(sel: seq<nat>, done: nat, i: nat) {
    exists k :: 0 <= k < |sel| && k < done && sel[k] == i
  }

  // Rows have only been added, unpublished, and of the old ones exactly the first done of the
  // selection have been newly marked.
  ghost predicate MarkedTo(was: seq<OutboxRow>, now: seq<OutboxRow>, sel: seq<nat>, done: nat) {
    && |was| <= |now|
    && (forall i :: 0 <= i < |was| ==> now[i].event == was[i].event)
    && (forall i :: 0 <= i < |was| ==> (now[i].published.Some? <==> was[i].published.Some? || Taken(sel, done, i)))
    && (forall i :: |was| <= i < |now| ==> now[i].published.None?)
  }

  lemma MarkOne(was: seq<OutboxRow>, now: seq<OutboxRow>, sel: seq<nat>, done: nat, at: nat)
    requires MarkedTo(was, now, sel, done) && done < |sel| && sel[done] < |was| && DistinctEvents(now)
    ensures MarkedTo(was, Mark(now, was[sel[done]].event.id, at), sel, done + 1)
  {
  }

  // Whatever the tick's outcome, no strictly older event that was in the table when the batch
  // was fetched is left unmarked behind a marked one.
  lemma HeadOfLine(was: seq<OutboxRow>, now: seq<OutboxRow>, sel: seq<nat>, done: nat, i: nat, j: nat)
    requires IsOldest(was, sel, BatchSize) && MarkedTo(was, now, sel, done)
    requires i < |was| && j < |was|
    requires was[i].published.None? && now[i].published.Some?
    requires now[j].published.None?
    ensures Age(now, i) <= Age(now, j)
  {
    var k :| 0 <= k < |sel| && k < done && sel[k] == i;
    assert Unpublished(was, j);
    if j in sel {
      var m :| 0 <= m < |sel| && sel[m] == j;
      assert m < done ==> Taken(sel, done, j);
    }
  }

  lemma MarkedToGrows(was: seq<OutboxRow>, mid: seq<OutboxRow>, now: seq<OutboxRow>, sel: seq<nat>, done: nat)
    requires MarkedTo(was, mid, sel, done) && mid <= now
    requires forall i :: |mid| <= i < |now| ==> now[i].published.None?
    ensures MarkedTo(was, now, sel, done)
  {
  }

  function Messages(rows: seq<OutboxRow>, sel: seq<nat>, n: nat): (r: seq<Message>)
    requires n <= |sel| && forall k :: 0 <= k < |sel| ==> sel[k] < |rows|
    ensures |r| == n && forall k :: 0 <= k < n ==> r[k] == MessageOf(rows[sel[k]].event)
  {
    seq(n, k requires 0 <= k < n => MessageOf(rows[sel[k]].event))
  }

  // The first n of the selection have each left at least one message, in one of the two logs.
  ghost predicate AllSent(rows: seq<OutboxRow>, sel: seq<nat>, n: nat, primary: seq<Message>, dlq: seq<Message>)
    requires n <= |sel| && forall k :: 0 <= k < |sel| ==> sel[k] < |rows|
  {
    forall k :: 0 <= k < n ==> MessageOf(rows[sel[k]].event) in primary || MessageOf(rows[sel[k]].event) in dlq
  }

  class Worker {
    const store: OutboxStore
    const publisher: ReliablePublisher

    constructor (store: OutboxStore, publisher: ReliablePublisher)
      ensures this.store == store && this.publisher == publisher
    {
      this.store, this.publisher := store, publisher;
    }

    // Nothing will fail.
    predicate Healthy() {
      store.healthy && publisher.primary.up
    }

    // The broker may fail, but every event finds a topic and every mark succeeds.
    predicate Steady() {
      store.healthy && (publisher.primary.up || (publisher.patient && publisher.dlq.up))
    }

    // Every failed publish has had no effect.
    predicate Definite() {
      publisher.primary.definite && publisher.dlq.definite
    }

    ghost predicate Ready()
      reads store.tables
    {
      publisher.primary != publisher.dlq && Consistent(store.tables.Contents())
    }

    // One event: published to one of the logs, if no error is reported.
    method PublishEvent(e: Event) returns (ok: bool)
      requires publisher.primary != publisher.dlq
      modifies publisher.primary, publisher.dlq
      ensures old(publisher.primary.log) <= publisher.primary.log && old(publisher.dlq.log) <= publisher.dlq.log
      ensures ok ==> MessageOf(e) in publisher.primary.log || MessageOf(e) in publisher.dlq.log
      ensures Healthy() ==> ok && publisher.primary.log == old(publisher.primary.log) + [MessageOf(e)]
                            && publisher.dlq.log == old(publisher.dlq.log)
      ensures Steady() ==> ok
      ensures Definite() ==>
                |publisher.primary.log| + |publisher.dlq.log|
                == old(|publisher.primary.log| + |publisher.dlq.log|) + if ok then 1 else 0
    {
      ghost var n, m, attempts;
      ok, n, m, attempts := publisher.Publish(e.aggregate, e.payload);
      if n > 0 {
        assert publisher.primary.log[|old(publisher.primary.log)|] == MessageOf(e);
      }
      if m > 0 {
        assert publisher.dlq.log[|old(publisher.dlq.log)|] == MessageOf(e);
      }
    }

    // One mark, while other transfers complete.
    method MarkEvent(e: Event, ghost was: seq<OutboxRow>, ghost sel: seq<nat>, ghost done: nat)
      returns (failed: bool, ghost done': nat)
      requires Ready() && MarkedTo(was, store.tables.outbox, sel, done)
      requires done < |sel| && sel[done] < |was| && e == was[sel[done]].event
      modifies store.tables
      ensures Ready() && MarkedTo(was, store.tables.outbox, sel, done')
      ensures done <= done' <= done + 1 && (!failed ==> done' == done + 1)
      ensures store.quiet ==> |store.tables.outbox| == old(|store.tables.outbox|)
      ensures store.healthy ==> !failed
    {
      ghost var mid := store.tables.outbox;
      if !store.quiet {
        store.tables.Insertions();
        MarkedToGrows(was, mid, store.tables.outbox, sel, done);
      }
      var at: nat := *;
      MarkOne(was, store.tables.outbox, sel, done, at);
      MarkGrows(store.tables.Contents(), e.id, at);
      ghost var marked;
      var err;
      err, marked := store.MarkPublished(e.id, at);
      failed := err.Some?;
      done' := if marked then done + 1 else done;
    }

    // Publish and mark the batch in order, up to the first error.
    method Tick() returns (failed: bool, ghost sel: seq<nat>, ghost done: nat)
      requires Ready()
      modifies store.tables, publisher.primary, publisher.dlq
      ensures Ready()
      ensures IsOldest(old(store.tables.outbox), sel, 50) || (failed && sel == [])
      ensures done <= |sel| && (!failed ==> done == |sel|)
      ensures forall k :: 0 <= k < |sel| ==> sel[k] < |old(store.tables.outbox)|
      ensures MarkedTo(old(store.tables.outbox), store.tables.outbox, sel, done)
      ensures store.quiet ==> |store.tables.outbox| == old(|store.tables.outbox|)
      ensures old(publisher.primary.log) <= publisher.primary.log && old(publisher.dlq.log) <= publisher.dlq.log
      ensures AllSent(old(store.tables.outbox), sel, done, publisher.primary.log, publisher.dlq.log)
      ensures Healthy() ==>
                !failed
                && publisher.primary.log == old(publisher.primary.log) + Messages(old(store.tables.outbox), sel, |sel|)
                && publisher.dlq.log == old(publisher.dlq.log)
      ensures Steady() ==> !failed
      ensures Definite() ==>
                |publisher.primary.log| + |publisher.dlq.log|
                <= old(|publisher.primary.log| + |publisher.dlq.log|) + done + if failed then 1 else 0
    {
      hide Consistent;
      var fetched;
      fetched, sel := store.FetchUnpublished(BatchSize);
      ghost var was := store.tables.outbox;
      done := 0;
      if fetched.Err? {
        return true, sel, done;
      }
      var events := fetched.value;
      failed := false;
      for i := 0 to |events|
        invariant Ready() && done == i && !failed
        invariant MarkedTo(was, store.tables.outbox, sel, i)
        invariant store.quiet ==> |store.tables.outbox| == |was|
        invariant old(publisher.primary.log) <= publisher.primary.log && old(publisher.dlq.log) <= publisher.dlq.log
        invariant AllSent(was, sel, i, publisher.primary.log, publisher.dlq.log)
        invariant Healthy() ==> publisher.primary.log == old(publisher.primary.log) + Messages(was, sel, i)
                                && publisher.dlq.log == old(publisher.dlq.log)
        invariant Definite() ==> |publisher.primary.log| + |publisher.dlq.log|
                                 == old(|publisher.primary.log| + |publisher.dlq.log|) + i
      {
        var ok := PublishEvent(events[i]);
        if !ok {
          return true, sel, done;
        }
        failed, done := MarkEvent(events[i], was, sel, i);
        if failed {
          return;
        }
      }
    }

    // What t ticks of a steady worker have done since was and, if it is healthy, with the
    // broker's log then at base.
    ghost predicate HasDrained(was: seq<OutboxRow>, base: seq<Message>, dead: seq<Message>, out: seq<nat>, t: nat)
      reads store.tables, publisher.primary, publisher.dlq
    {
      && (forall k :: 0 <= k < |out| ==> out[k] < |was|)
      && Drained(was, store.tables.outbox, out, t)
      && (Healthy() ==> publisher.primary.log == base + Messages(was, out, |out|) && publisher.dlq.log == dead)
    }

    method TickAgain(ghost was: seq<OutboxRow>, ghost base: seq<Message>, ghost dead: seq<Message>,
        ghost out: seq<nat>, ghost t: nat)
      returns (ghost out': seq<nat>)
      requires Ready() && Recorded(store.tables.outbox, publisher.primary.log, publisher.dlq.log)
      requires Steady() && store.quiet ==> HasDrained(was, base, dead, out, t)
      modifies store.tables, publisher.primary, publisher.dlq
      ensures Ready() && Recorded(store.tables.outbox, publisher.primary.log, publisher.dlq.log)
      ensures Steady() && store.quiet ==> HasDrained(was, base, dead, out', t + 1)
    {
      hide Consistent, Recorded, Drained, IsOldest, MarkedTo, AllSent;
      ghost var mid, before, lost := store.tables.outbox, publisher.primary.log, publisher.dlq.log;
      var failed;
      ghost var sel, done;
      failed, sel, done := Tick();
      TickKeepsRecord(mid, store.tables.outbox, sel, done, before, publisher.primary.log, lost, publisher.dlq.log);
      out' := out + sel;
      if Steady() && store.quiet {
        DrainTick(was, mid, store.tables.outbox, out, sel, t);
        DrainedBounds(was, mid, out, t);
        MessagesJoin(was, mid, out, sel);
      }
    }

    // Run ticks until it is cancelled, here after a given number of ticks; a failed tick is
    // only logged. out lists the rows the steady worker published, in the order it did.
    method Run(ticks: nat) returns (ghost out: seq<nat>)
      requires Ready() && Recorded(store.tables.outbox, publisher.primary.log, publisher.dlq.log)
      modifies store.tables, publisher.primary, publisher.dlq
      ensures Ready() && Recorded(store.tables.outbox, publisher.primary.log, publisher.dlq.log)
      ensures Steady() && store.quiet ==>
                HasDrained(old(store.tables.outbox), old(publisher.primary.log), old(publisher.dlq.log), out, ticks)
    {
      hide Consistent, Recorded, Drained;
      ghost var was, base, dead := store.tables.outbox, publisher.primary.log, publisher.dlq.log;
      out := [];
      DrainStart(was);
      for t := 0 to ticks
        invariant Ready() && Recorded(store.tables.outbox, publisher.primary.log, publisher.dlq.log)
        invariant Steady() && store.quiet ==> HasDrained(was, base, dead, out, t)
      {
        out := TickAgain(was, base, dead, out, t);
      }
    }
  }

  lemma DrainedBounds(was: seq<OutboxRow>, now: seq<OutboxRow>, out: seq<nat>, t: nat)
    requires Drained(was, now, out, t)
    ensures SameEvents(was, now) && forall k :: 0 <= k < |out| ==> out[k] < |was|
  {
  }

  // Every event marked as published has left its message in one of the two logs.
  ghost predicate Recorded(rows: seq<OutboxRow>, primary: seq<Message>, dlq: seq<Message>) {
    forall i :: 0 <= i < |rows| && rows[i].published.Some? ==>
      MessageOf(rows[i].event) in primary || MessageOf(rows[i].event) in dlq
  }

  lemma TickKeepsRecord(was: seq<OutboxRow>, now: seq<OutboxRow>, sel: seq<nat>, done: nat,
                        p: seq<Message>, p': seq<Message>, d: seq<Message>, d': seq<Message>)
    requires Recorded(was, p, d) && p <= p' && d <= d'
    requires done <= |sel| && (forall k :: 0 <= k < |sel| ==> sel[k] < |was|)
    requires MarkedTo(was, now, sel, done) && AllSent(was, sel, done, p', d')
    ensures Recorded(now, p', d')
  {
  }

  /******* Draining: n unpublished events, no faults, no inserts *******/

  ghost predicate SameEvents(was: seq<OutboxRow>, mid: seq<OutboxRow>) {
    |mid| == |was| && forall i :: 0 <= i < |was| ==> mid[i].event == was[i].event
  }

  // After t ticks exactly min(n, 50 t) events are gone, each published once, oldest first.
  ghost predicate Drained(was: seq<OutboxRow>, now: seq<OutboxRow>, out: seq<nat>, t: nat) {
    && SameEvents(was, now)
    && Selected(was, out)
    && Pending(now) == Pending(was) - Elems(out)
    && |out| == Least(|Pending(was)|, BatchSize * t)
    && |Pending(now)| == |Pending(was)| - |out|
  }

  function Least(a: int, b: int): int {
    if a <= b then a else b
  }

  ghost function Elems(s: seq<nat>): set<nat> {
    set x | x in s
  }

  lemma {:induction false} SetOfDistinct(s: seq<nat>)
    requires Distinct(s)
    ensures |Elems(s)| == |s|
    decreases |s|
  {
    if s == [] {
    } else {
      var init, last := s[..|s| - 1], s[|s| - 1];
      SetOfDistinct(init);
      assert last !in init;
      assert Elems(s) == Elems(init) + {last};
    }
  }

  lemma DrainStart(was: seq<OutboxRow>)
    ensures Drained(was, was, [], 0)
  {
  }

  // A batch of the oldest holds all that is pending, or is full.
  lemma BatchIsLeast(rows: seq<OutboxRow>, sel: seq<nat>)
    requires IsOldest(rows, sel, 50)
    ensures Elems(sel) <= Pending(rows)
    ensures |sel| == Least(|Pending(rows)|, 50)
    ensures |Pending(rows) - Elems(sel)| == |Pending(rows)| - |sel|
  {
    SetOfDistinct(sel);
    forall x | x in Elems(sel) ensures x in Pending(rows) {
      var k :| 0 <= k < |sel| && sel[k] == x;
      assert Unpublished(rows, sel[k]);
    }
    var left := Pending(rows) - Elems(sel);
    assert Pending(rows) == left + Elems(sel);
    if left == {} {
      assert |left| == 0;
    } else {
      var i :| i in left;
      assert Unpublished(rows, i) && i !in sel;
    }
  }

  lemma MarkedPending(was: seq<OutboxRow>, now: seq<OutboxRow>, sel: seq<nat>)
    requires MarkedTo(was, now, sel, |sel|) && |now| == |was|
    ensures Pending(now) == Pending(was) - Elems(sel)
  {
  }

  // The next batch follows what is already out: it is disjoint from it, and no older.
  ghost predicate Continues(was: seq<OutboxRow>, mid: seq<OutboxRow>, out: seq<nat>, sel: seq<nat>) {
    && SameEvents(was, mid)
    && Selected(was, out)
    && IsOldest(mid, sel, BatchSize)
    && (forall k :: 0 <= k < |sel| ==> sel[k] !in out && Unpublished(was, sel[k]))
    && (forall i :: Unpublished(was, i) && i !in out ==> Unpublished(mid, i))
  }

  lemma DrainContinues(was: seq<OutboxRow>, mid: seq<OutboxRow>, out: seq<nat>, sel: seq<nat>, t: nat)
    requires Drained(was, mid, out, t) && IsOldest(mid, sel, BatchSize)
    ensures Continues(was, mid, out, sel)
  {
    forall k | 0 <= k < |sel|
      ensures sel[k] !in out && Unpublished(was, sel[k])
    {
      assert Unpublished(mid, sel[k]);
      assert sel[k] in Pending(mid);
      assert sel[k] !in Elems(out);
    }
    forall i | Unpublished(was, i) && i !in out
      ensures Unpublished(mid, i)
    {
      assert i in Pending(was) && i !in Elems(out);
      assert i in Pending(mid);
    }
  }

  lemma JoinedInOrder(was: seq<OutboxRow>, mid: seq<OutboxRow>, out: seq<nat>, sel: seq<nat>, j: nat, k: nat)
    requires Continues(was, mid, out, sel) && j <= k < |out + sel|
    ensures Age(was, (out + sel)[j]) <= Age(was, (out + sel)[k])
  {
  }

  lemma JoinedLeavesYounger(was: seq<OutboxRow>, mid: seq<OutboxRow>, out: seq<nat>, sel: seq<nat>, i: nat, k: nat)
    requires Continues(was, mid, out, sel) && Unpublished(was, i) && i !in out && i !in sel && k < |out + sel|
    ensures Age(was, (out + sel)[k]) <= Age(was, i)
  {
  }

  lemma JoinedDistinct(was: seq<OutboxRow>, mid: seq<OutboxRow>, out: seq<nat>, sel: seq<nat>)
    requires Continues(was, mid, out, sel)
    ensures Distinct(out + sel)
    ensures forall k :: 0 <= k < |out + sel| ==> Unpublished(was, (out + sel)[k])
  {
  }

  lemma JoinedSelected(was: seq<OutboxRow>, mid: seq<OutboxRow>, out: seq<nat>, sel: seq<nat>)
    requires Continues(was, mid, out, sel)
    ensures Selected(was, out + sel)
  {
    hide Continues, Selected;
    JoinedDistinct(was, mid, out, sel);
    assert InOrder(was, out + sel) by {
      forall j, k | 0 <= j <= k < |out + sel|
        ensures Age(was, (out + sel)[j]) <= Age(was, (out + sel)[k])
      {
        JoinedInOrder(was, mid, out, sel, j, k);
      }
      assert forall k :: 0 <= k < |out + sel| ==> Unpublished(was, (out + sel)[k]);
    }
    assert LeavesYounger(was, out + sel) by {
      forall i, k | Unpublished(was, i) && i !in out + sel && 0 <= k < |out + sel|
        ensures Age(was, (out + sel)[k]) <= Age(was, i)
      {
        JoinedLeavesYounger(was, mid, out, sel, i, k);
      }
    }
    SelectedFromParts(was, out + sel);
  }

  lemma SelectedFromParts(rows: seq<OutboxRow>, sel: seq<nat>)
    requires Distinct(sel) && InOrder(rows, sel) && LeavesYounger(rows, sel)
    requires forall k :: 0 <= k < |sel| ==> Unpublished(rows, sel[k])
    ensures Selected(rows, sel)
  {
  }

  lemma MarkedSameEvents(was: seq<OutboxRow>, mid: seq<OutboxRow>, now: seq<OutboxRow>, sel: seq<nat>)
    requires SameEvents(was, mid) && MarkedTo(mid, now, sel, |sel|) && |now| == |mid|
    ensures SameEvents(was, now)
  {
  }

  lemma DrainTick(was: seq<OutboxRow>, mid: seq<OutboxRow>, now: seq<OutboxRow>, out: seq<nat>, sel: seq<nat>, t: nat)
    requires Drained(was, mid, out, t) && IsOldest(mid, sel, BatchSize)
    requires MarkedTo(mid, now, sel, |sel|) && |now| == |mid|
    ensures Drained(was, now, out + sel, t + 1)
  {
    hide IsOldest, Selected, Continues, Pending;
    BatchIsLeast(mid, sel);
    MarkedPending(mid, now, sel);
    MarkedSameEvents(was, mid, now, sel);
    hide MarkedTo, SameEvents;
    DrainContinues(was, mid, out, sel, t);
    JoinedSelected(was, mid, out, sel);
    assert Elems(out + sel) == Elems(out) + Elems(sel);
  }

  lemma MessagesJoin(was: seq<OutboxRow>, mid: seq<OutboxRow>, out: seq<nat>, sel: seq<nat>)
    requires |mid| == |was| && forall i :: 0 <= i < |was| ==> mid[i].event == was[i].event
    requires (forall k :: 0 <= k < |out| ==> out[k] < |was|) && (forall k :: 0 <= k < |sel| ==> sel[k] < |was|)
    ensures Messages(was, out, |out|) + Messages(mid, sel, |sel|) == Messages(was, out + sel, |out + sel|)
  {
  }

  // A tick takes fifty events: n / 50 of them, rounded up, leave nothing unpublished, and no
  // fewer.
  lemma DrainedAfter(was: seq<OutboxRow>, now: seq<OutboxRow>, out: seq<nat>, t: nat)
    requires Drained(was, now, out, t)
    ensures |Pending(now)| == if |Pending(was)| <= 50 * t then 0 else |Pending(was)| - 50 * t
    ensures Pending(now) == {} <==> t >= (|Pending(was)| + 49) / 50
    ensures Pending(now) == {} ==> Elems(out) == Pending(was)
  {
  }
}
