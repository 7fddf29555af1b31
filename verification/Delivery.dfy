/**
  From a completed transfer to its one notification, when nothing fails any more: the worker
  drains whatever outbox an arbitrary run has left behind, and the consumer reads whatever
  topic there then is, duplicates and all, into whatever inbox.
 */
module Delivery {
  import opened Wrappers
  import opened Keys
  import T = TransferStore
  import O = Outbox
  import R = OutboxRuns
  import N = Notification
  import opened Platform
  import opened PlatformInv
  import opened PlatformSteps

  ghost predicate Speaking(log: seq<O.Message>) {
    forall i :: 0 <= i < |log| ==> log[i].key != "" && log[i].value.Json?
  }

  ghost function KeysOf(log: seq<O.Message>, start: nat, end: nat): set<string>
    requires start <= end <= |log|
  {
    set i | start <= i < end :: log[i].key
  }

  /******* What the consumer makes of a topic *******/

  lemma HandledOne(log: seq<O.Message>, inbox: N.Inbox, i: nat, id: string)
    requires InboxOk(log, inbox) && i < |log| && log[i].value.Json?
    ensures var after := N.Handled(inbox, log[i].key, log[i].value);
            && InboxOk(log, after) && after.claimed == inbox.claimed + {log[i].key}
            && (N.Noted(after.notes, id) <==> N.Noted(inbox.notes, id) || (id == log[i].key && id !in inbox.claimed))
  {
    var after := N.Handled(inbox, log[i].key, log[i].value);
    if log[i].key !in inbox.claimed {
      N.MayHandleKeepsInv(inbox, after, log[i].key, log[i].value);
      assert NoteFrom(log, N.NoteOf(log[i].key, log[i].value.event));
      assert InTopic(log, log[i].key);
      if N.Noted(inbox.notes, id) {
        var n :| 0 <= n < |inbox.notes| && inbox.notes[n].eventId == id;
        assert after.notes[n].eventId == id;
      }
      if id == log[i].key {
        assert after.notes[|inbox.notes|].eventId == id;
      }
    }
  }

  // Reading on from any inbox, the consumer claims what the messages are keyed by, and notes
  // what was not claimed before; what was claimed and not saved stays so.
  lemma {:induction false} ConsumedNotes(log: seq<O.Message>, inbox: N.Inbox, name: string, partition: nat,
                                         start: nat, end: nat, id: string)
    requires Speaking(log) && InboxOk(log, inbox) && start <= end <= |log|
    ensures var after := N.Consumed(inbox, name, partition, log, start, end);
            && InboxOk(log, after)
            && after.claimed == inbox.claimed + KeysOf(log, start, end)
            && (N.Noted(after.notes, id)
                <==> N.Noted(inbox.notes, id) || (id !in inbox.claimed && id in KeysOf(log, start, end)))
    decreases end - start
  {
    hide InboxOk, N.Handled, N.Noted;
    if start < end {
      ConsumedNotes(log, inbox, name, partition, start, end - 1, id);
      HandledOne(log, N.Consumed(inbox, name, partition, log, start, end - 1), end - 1, id);
      assert KeysOf(log, start, end) == KeysOf(log, start, end - 1) + {log[end - 1].key};
    }
  }

  function NotesFor(notes: seq<N.Note>, id: TransferId): nat {
    if notes == [] then 0
    else NotesFor(notes[..|notes| - 1], id) + if notes[|notes| - 1].transferId == id then 1 else 0
  }

  lemma {:induction false} NotesForNone(notes: seq<N.Note>, id: TransferId)
    requires forall n :: 0 <= n < |notes| ==> notes[n].transferId != id
    ensures NotesFor(notes, id) == 0
    decreases |notes|
  {
    if notes != [] {
      NotesForNone(notes[..|notes| - 1], id);
    }
  }

  ghost predicate Apart(notes: seq<N.Note>) {
    forall i, j ::
      0 <= i < |notes| && 0 <= j < |notes| && notes[i].eventId == notes[j].eventId ==> i == j
  }

  // Notes being distinct and named after their transfers, there is one or none.
  lemma {:induction false} NotesForOne(notes: seq<N.Note>, id: TransferId)
    requires Apart(notes)
    requires forall n :: 0 <= n < |notes| ==> notes[n].transferId == notes[n].eventId
    ensures NotesFor(notes, id) == if N.Noted(notes, id) then 1 else 0
    decreases |notes|
  {
    if notes != [] {
      var init := notes[..|notes| - 1];
      if notes[|notes| - 1].eventId == id {
        NotesForNone(init, id);
      } else {
        NotesForOne(init, id);
        assert N.Noted(notes, id) <==> N.Noted(init, id) by {
          if N.Noted(notes, id) {
            var n :| 0 <= n < |notes| && notes[n].eventId == id;
            assert init[n].eventId == id;
          }
        }
      }
    }
  }

  /******* The state an arbitrary run leaves behind *******/

  ghost predicate Line(db: T.Db, log: seq<O.Message>, inbox: N.Inbox) {
    && T.Consistent(db)
    && (forall r :: 0 <= r < |db.rows| ==> db.rows[r].id != "")
    && (forall m :: m in log ==> R.FromRow(db.outbox, m))
    && InboxOk(log, inbox)
  }

  lemma RunsLeaveALine(run: seq<Action>)
    ensures var s := Exec(run); Line(s.transfers.db, s.pipe.primary, s.pipe.inbox)
  {
    hide Exec, WalletOk, InboxOk, SagasOk, R.WorkerInv;
    InvHolds(run);
    var s := Exec(run);
    assert R.LineInv(LineOf(s));
    forall r | 0 <= r < |s.transfers.db.rows|
      ensures s.transfers.db.rows[r].id != ""
    {
      RowIdIsNotEmpty(s, r);
    }
  }

  lemma RowIdIsNotEmpty(s: Sys, r: nat)
    requires SagasOk(s.wallet, s.transfers) && r < |s.transfers.db.rows|
    ensures s.transfers.db.rows[r].id != ""
  {
  }

  lemma RowMessage(db: T.Db, m: O.Message) returns (r: nat)
    requires T.Consistent(db) && R.FromRow(db.outbox, m)
    ensures r < |db.rows| && m == O.Message(db.rows[r].id, T.PayloadOf(db.rows[r]))
  {
    r :| 0 <= r < |db.outbox| && O.MessageOf(db.outbox[r].event) == m;
    assert T.Paired(db.rows[r], db.outbox[r]);
  }

  lemma LineSpeaks(db: T.Db, log: seq<O.Message>, inbox: N.Inbox)
    requires Line(db, log, inbox)
    ensures Speaking(log)
  {
    forall i | 0 <= i < |log|
      ensures log[i].key != "" && log[i].value.Json?
    {
      var r := RowMessage(db, log[i]);
    }
  }

  // The drained topic: the old one and then one message per row that was pending.
  lemma DrainedLine(db: T.Db, log: seq<O.Message>, inbox: N.Inbox, out: seq<nat>)
    requires Line(db, log, inbox) && forall k :: 0 <= k < |out| ==> out[k] < |db.outbox|
    ensures Line(db, log + O.Messages(db.outbox, out, |out|), inbox)
  {
    var added := O.Messages(db.outbox, out, |out|);
    forall m | m in log + added
      ensures R.FromRow(db.outbox, m)
    {
      if m !in log {
        var k :| 0 <= k < |added| && added[k] == m;
        assert O.MessageOf(db.outbox[out[k]].event) == m;
      }
    }
    hide T.Consistent, R.FromRow, InboxOk;
    InboxOkStable(log, log + added, inbox);
  }

  // The notification of some row, in full.
  ghost predicate OfSomeRow(note: N.Note, rows: seq<T.Transfer>) {
    exists r :: 0 <= r < |rows| && note.eventId == note.transferId == rows[r].id && note.channel == "log"
                && T.Describes(note.payload, rows[r])
  }

  lemma NotesNameTheirTransfers(log: seq<O.Message>, db: T.Db, inbox: N.Inbox)
    requires Line(db, log, inbox)
    ensures forall n :: 0 <= n < |inbox.notes| ==> inbox.notes[n].transferId == inbox.notes[n].eventId
    ensures forall n :: 0 <= n < |inbox.notes| ==> OfSomeRow(inbox.notes[n], db.rows)
  {
    forall n | 0 <= n < |inbox.notes|
      ensures inbox.notes[n].transferId == inbox.notes[n].eventId
      ensures OfSomeRow(inbox.notes[n], db.rows)
    {
      assert NoteFrom(log, inbox.notes[n]);
      var i :| 0 <= i < |log| && log[i].value.Json? && inbox.notes[n] == N.NoteOf(log[i].key, log[i].value.event);
      var r := RowMessage(db, log[i]);
    }
  }

  // Row r will be heard of: it has been notified, or nobody has claimed it yet, and it is still to
  // be published or the topic from start on has its message.
  ghost predicate WillBeHeard(db: T.Db, log: seq<O.Message>, inbox: N.Inbox, start: nat, r: nat)
    requires start <= |log| && r < |db.rows|
  {
    var id := db.rows[r].id;
    N.Noted(inbox.notes, id) || (id !in inbox.claimed
        && (O.Unpublished(db.outbox, r) || id in KeysOf(log, start, |log|)))
  }

  lemma DrainedKeys(db: T.Db, log: seq<O.Message>, inbox: N.Inbox, out: seq<nat>, start: nat, r: nat)
    requires Line(db, log, inbox) && start <= |log| && r < |db.rows|
    requires (forall k :: 0 <= k < |out| ==> out[k] < |db.outbox|) && O.Elems(out) == O.Pending(db.outbox)
    ensures var log' := log + O.Messages(db.outbox, out, |out|);
            db.rows[r].id in KeysOf(log', start, |log'|)
            <==> db.outbox[r].published.None? || db.rows[r].id in KeysOf(log, start, |log|)
  {
    hide InboxOk;
    var log' := log + O.Messages(db.outbox, out, |out|);
    var id := db.rows[r].id;
    if db.outbox[r].published.None? {
      assert r in O.Pending(db.outbox);
      assert r in O.Elems(out);
      var k :| 0 <= k < |out| && out[k] == r;
      assert T.Paired(db.rows[r], db.outbox[r]);
      assert log'[|log| + k].key == id;
    }
    if id in KeysOf(log, start, |log|) {
      var i :| start <= i < |log| && log[i].key == id;
      assert log'[i].key == id;
    }
    if id in KeysOf(log', start, |log'|) {
      var i :| start <= i < |log'| && log'[i].key == id;
      if i >= |log| {
        var q := out[i - |log|];
        assert T.Paired(db.rows[q], db.outbox[q]);
        assert q == r;
        assert q in O.Elems(out);
      } else {
        assert log[i].key == id;
      }
    }
  }

  // Take any outbox, topic and inbox that some run has led to. Drain the outbox, and let the
  // consumer read the topic from start: a transfer has then exactly one notification if it will
  // be heard of, and none if not; and every notification is that of a transfer, in full.
  lemma ExactlyOnce(db: T.Db, log: seq<O.Message>, inbox: N.Inbox, now: seq<T.OutboxRow>, out: seq<nat>, ticks: nat,
                    name: string, partition: nat, start: nat)
    requires Line(db, log, inbox) && start <= |log|
    requires O.Drained(db.outbox, now, out, ticks) && ticks >= (|O.Pending(db.outbox)| + 49) / 50
    ensures var log' := log + O.Messages(db.outbox, out, |out|);
            var after := N.Consumed(inbox, name, partition, log', start, |log'|);
            && (forall r :: 0 <= r < |db.rows| ==>
                  NotesFor(after.notes, db.rows[r].id) == if WillBeHeard(db, log, inbox, start, r) then 1 else 0)
            && (forall n :: 0 <= n < |after.notes| ==> OfSomeRow(after.notes[n], db.rows))
  {
    hide O.Drained, InboxOk, KeysOf, T.Paired, T.DistinctRows, O.Pending, OfSomeRow, N.Noted;
    O.DrainedBounds(db.outbox, now, out, ticks);
    O.DrainedAfter(db.outbox, now, out, ticks);
    var log' := log + O.Messages(db.outbox, out, |out|);
    DrainedLine(db, log, inbox, out);
    LineSpeaks(db, log', inbox);
    ConsumedNotes(log', inbox, name, partition, start, |log'|, "");
    var after := N.Consumed(inbox, name, partition, log', start, |log'|);
    NotesNameTheirTransfers(log', db, after);
    forall r | 0 <= r < |db.rows|
      ensures NotesFor(after.notes, db.rows[r].id) == if WillBeHeard(db, log, inbox, start, r) then 1 else 0
    {
      DrainedKeys(db, log, inbox, out, start, r);
      ConsumedNotes(log', inbox, name, partition, start, |log'|, db.rows[r].id);
      NotesAreApart(log', after);
      NotesForOne(after.notes, db.rows[r].id);
    }
  }

  lemma NotesAreApart(log: seq<O.Message>, inbox: N.Inbox)
    requires InboxOk(log, inbox)
    ensures Apart(inbox.notes)
  {
  }

  // Row r was given up by the broker: its event is marked, but only the dead-letter topic has it.
  ghost predicate OnlyDead(s: Sys, r: nat) {
    && r < |s.transfers.db.rows| && r < |s.transfers.db.outbox|
    && s.transfers.db.outbox[r].published.Some?
    && !InTopic(s.pipe.primary, s.transfers.db.rows[r].id)
    && O.MessageOf(s.transfers.db.outbox[r].event) in s.pipe.dlq
  }

  // Row r was claimed by a consumer that never saved its notification.
  ghost predicate OnlyClaimed(s: Sys, r: nat) {
    && r < |s.transfers.db.rows|
    && s.transfers.db.rows[r].id in s.pipe.inbox.claimed
    && !N.Noted(s.pipe.inbox.notes, s.transfers.db.rows[r].id)
  }

  lemma UnheardMeansLost(s: Sys, r: nat)
    requires Line(s.transfers.db, s.pipe.primary, s.pipe.inbox) && r < |s.transfers.db.rows|
    requires O.Recorded(s.transfers.db.outbox, s.pipe.primary, s.pipe.dlq)
    ensures OnlyDead(s, r) || OnlyClaimed(s, r) <==> !WillBeHeard(s.transfers.db, s.pipe.primary, s.pipe.inbox, 0, r)
  {
  }

  // So from any reachable state, once the outbox is drained and the topic read from the
  // beginning, every completed transfer has its one notification, if and only if none of
  // them has been left to the dead-letter topic alone and none claimed without being saved.
  lemma EveryTransferIsNotified(run: seq<Action>, now: seq<T.OutboxRow>, out: seq<nat>, ticks: nat, name: string,
      partition: nat)
    requires O.Drained(Exec(run).transfers.db.outbox, now, out, ticks)
    requires ticks >= (|O.Pending(Exec(run).transfers.db.outbox)| + 49) / 50
    ensures var s := Exec(run);
            var log := s.pipe.primary + O.Messages(s.transfers.db.outbox, out, |out|);
            var after := N.Consumed(s.pipe.inbox, name, partition, log, 0, |log|);
            forall r :: 0 <= r < |s.transfers.db.rows| ==>
              NotesFor(after.notes, s.transfers.db.rows[r].id) == if OnlyDead(s, r) || OnlyClaimed(s, r) then 0 else 1
  {
    hide Exec, Line, O.Drained, NotesFor, OnlyDead, OnlyClaimed, WillBeHeard, O.Pending;
    var s := Exec(run);
    O.DrainedBounds(s.transfers.db.outbox, now, out, ticks);
    RunsLeaveALine(run);
    RunsRecord(run);
    ExactlyOnce(s.transfers.db, s.pipe.primary, s.pipe.inbox, now, out, ticks, name, partition, 0);
    forall r | 0 <= r < |s.transfers.db.rows|
      ensures OnlyDead(s, r) || OnlyClaimed(s, r) <==> !WillBeHeard(s.transfers.db, s.pipe.primary, s.pipe.inbox, 0, r)
    {
      UnheardMeansLost(s, r);
    }
  }

  lemma RunsRecord(run: seq<Action>)
    ensures var s := Exec(run); O.Recorded(s.transfers.db.outbox, s.pipe.primary, s.pipe.dlq)
  {
    hide Exec, WalletOk, InboxOk, SagasOk, R.WorkerInv, StoresOk;
    InvHolds(run);
    assert R.LineInv(LineOf(Exec(run)));
  }
}
