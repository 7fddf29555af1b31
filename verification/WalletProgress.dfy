/**
  How a wallet call gets on: what it does at each conflict, and how it ends when, at any point
  of any execution, everybody leaves it alone.
 */
module WalletProgress {
  import opened Wrappers
  import opened Keys
  import opened Ledger
  import opened WalletStore
  import opened WalletCalls

  /******* Conflicts *******/

  // The call's commit meets a version that is not the one it has read.
  predicate Conflicts(m: Moment, e: Event) {
    && e.Own? && e.choice.fault != Fails
    && m.call.pc.Committing? && m.call.req.wallet.Some?
    && (m.call.req.wallet.value !in m.db.balances
        || m.db.balances[m.call.req.wallet.value].version != m.call.pc.seen.balance.version)
  }

  function ConflictsIn(start: Moment, h: seq<Event>): nat {
    if h == [] then 0
    else ConflictsIn(start, h[..|h| - 1]) + if Conflicts(Play(start, h[..|h| - 1]), h[|h| - 1]) then 1 else 0
  }

  // After n conflicts.
  predicate Counted(c: Call, n: nat) {
    match c.pc
    case LookUp => n == 0 && c == Begin(c.req)
    case Reading(attempt) => n == attempt < 8
    case Committing(attempt, _, _, _) => n == attempt < 8
    case Done(Failed(RetriesExhausted)) => n == 8
    case Done(Failed(VersionConflict)) => false
    case _ => n < 8
  }

  lemma ConflictStep(m: Moment, choice: Choice)
    requires Knows(m.db, m.call) && m.call.pc.Committing? && Counted(m.call, m.call.pc.attempt)
    requires Conflicts(m, Own(choice))
    ensures Next(m, Own(choice))
         == m.(call := m.call.(pc := if m.call.pc.attempt + 1 < 8 then Reading(m.call.pc.attempt + 1)
                                     else Done(Failed(RetriesExhausted))))
  {
    CommittingKnows(m.db, m.call);
    CommitStepShape(m.db, m.call, choice);
    hide Knows, Step;
  }

  lemma QuietStep(m: Moment, choice: Choice, n: nat)
    requires Knows(m.db, m.call) && Counted(m.call, n) && !Conflicts(m, Own(choice))
    ensures Counted(Next(m, Own(choice)).call, n)
  {
    if m.call.pc.Committing? {
      CommittingKnows(m.db, m.call);
      CommitStepShape(m.db, m.call, choice);
      hide Knows, Step, HasKey, HasId;
    } else {
      hide Mutate, Find, Apply;
    }
  }

  lemma {:induction false} ConflictsAreCounted(start: Moment, h: seq<Event>)
    requires Sound(start.db) && start.call == Begin(start.call.req) && Legal(start, h)
    ensures Counted(Play(start, h).call, ConflictsIn(start, h))
    decreases |h|
  {
    hide Sound, Knows, Step;
    if h != [] {
      var init, e := h[..|h| - 1], h[|h| - 1];
      ConflictsAreCounted(start, init);
      EveryExecution(start, init);
      var m := Play(start, init);
      match e {
        case Others(_) =>
        case Own(choice) =>
          if Conflicts(m, e) {
            ConflictStep(m, choice);
          } else {
            QuietStep(m, choice, ConflictsIn(start, init));
          }
      }
    }
  }

  // In every execution: after each of its first seven conflicts a call reads again; after the
  // eighth, and only then, it answers that its retries are exhausted; and never does it answer
  // with a conflict.
  lemma EveryConflictIsRetried(start: Moment, h: seq<Event>)
    requires Sound(start.db) && start.call == Begin(start.call.req) && Legal(start, h)
    ensures var pc, n := Play(start, h).call.pc, ConflictsIn(start, h);
            && n <= 8
            && (pc == Done(Failed(RetriesExhausted)) <==> n == 8)
            && pc != Done(Failed(VersionConflict))
            && (h != [] && Conflicts(Play(start, h[..|h| - 1]), h[|h| - 1]) && n < 8 ==> pc == Reading(n))
  {
    ConflictsAreCounted(start, h);
    if h != [] && Conflicts(Play(start, h[..|h| - 1]), h[|h| - 1]) {
      ConflictsAreCounted(start, h[..|h| - 1]);
      EveryExecution(start, h[..|h| - 1]);
      ConflictStep(Play(start, h[..|h| - 1]), h[|h| - 1].choice);
    }
    hide Sound, Knows, Step;
  }

  /******* Left alone *******/

  // What a call is answered that has looked its key up before, and reads now: the arithmetic
  // comes first, the key after.
  function Retried(db: Db, req: Request, id: EntryId): Result<EntryId, Error> {
    if req.wallet.None? || req.wallet.value !in db.balances then Err(NotFound)
    else if Exact(db, req) < 0 then Err(InsufficientFunds)
    else if Exact(db, req) > MaxInt64 || db.balances[req.wallet.value].version == MaxInt64 then Err(Rejected)
    else if HasKey(db.ledger, req.key) then Ok(Find(db.ledger, req.key).value.id)
    else if HasId(db.ledger, id) then Err(AlreadyExists)
    else Ok(id)
  }

  // The commit that a call is about to make will meet the version it has read.
  predicate Fresh(db: Db, c: Call)
    requires c.pc.Committing?
  {
    && c.req.wallet.Some? && c.req.wallet.value in db.balances
    && db.balances[c.req.wallet.value].version == c.pc.seen.balance.version
  }

  // The id under which the call, left alone, still tries to make an entry.
  function Tries(db: Db, c: Call, id: EntryId): Option<EntryId> {
    match c.pc
    case LookUp => Some(id)
    case Reading(_) => Some(id)
    case Committing(attempt, _, _, entry) =>
      if Fresh(db, c) then Some(entry.id) else if attempt < 7 then Some(id) else None
    case _ => None
  }

  // How the call, left alone, will be answered.
  function Prospect(db: Db, c: Call, id: EntryId): Result<EntryId, Error> {
    match c.pc
    case LookUp => Verdict(db, c.req, id)
    case Reading(_) => Retried(db, c.req, id)
    case Committing(attempt, _, _, entry) =>
      if Fresh(db, c) then Retried(db, c.req, entry.id)
      else if attempt < 7 then Retried(db, c.req, id)
      else Err(RetriesExhausted)
    case Rechecking =>
      if !HasKey(db.ledger, c.req.key) then Err(AlreadyExists)
      else if c.req.wallet.Some? && c.req.wallet.value in db.balances then Ok(Find(db.ledger, c.req.key).value.id)
      else Err(NotFound)
    case Replaying(entryId, _) =>
      if c.req.wallet.Some? && c.req.wallet.value in db.balances then Ok(entryId) else Err(NotFound)
    case Done(Succeeded(result, _, _)) => Ok(result.entryId)
    case Done(Failed(e)) => Err(e)
  }

  // The call has ended with this answer, and has made the entry it may have tried to make.
  ghost predicate EndsWith(db: Db, req: Request, end: (Db, Call), tried: Option<EntryId>, answer: Result<EntryId,
      Error>) {
    && end.1.pc.Done? && end.1.req == req
    && end.0 == (if tried.Some? then Mutated(db, req, tried.value) else db)
    && Answers(end.0, req, 0, answer, end.1.pc.outcome)
  }

  lemma ReplayingAlone(db: Db, c: Call, id: EntryId)
    requires Acceptable(c.req) && c.pc.Replaying?
    ensures var c' := Step(db, c, Choice(NoFault, id)).1;
            Step(db, c, Choice(NoFault, id)).0 == db && c'.pc.Done? && c'.req == c.req
            && Answers(db, c.req, 0, Prospect(db, c, id), c'.pc.outcome)
  {
  }

  lemma RecheckingAlone(db: Db, c: Call, id: EntryId)
    requires Acceptable(c.req) && c.pc.Rechecking?
    ensures EndsWith(db, c.req, Alone(db, c, id, 2), None, Prospect(db, c, id))
  {
    hide Find, HasKey;
    FoundIsThere(db.ledger, c.req.key);
    var c1 := Step(db, c, Choice(NoFault, id)).1;
    LaterAlone(db, c, id, 1);
    LaterAlone(db, c1, id, 0);
    if c1.pc.Replaying? {
      ReplayingAlone(db, c1, id);
    } else {
      DoneAlone(db, c1, id, 1);
    }
    hide Step, Alone;
  }

  // From the commit on, the version being the one read.
  lemma PoisedAlone(db: Db, c: Call, entryId: EntryId, id: EntryId)
    requires Sound(db) && Poised(db, c, entryId)
    ensures EndsWith(db, c.req, Alone(db, c, id, 3), Some(entryId), Retried(db, c.req, entryId))
  {
    StoredIsSolvent(db, c.req.wallet.value);
    hide Sound, HasKey, HasId, Find;
    CommitAlone(db, c, entryId);
    SameStep(db, c, id, entryId);
    LaterAlone(db, c, id, 2);
    var (db1, c1) := Step(db, c, Choice(NoFault, id));
    hide Step, Poised;
    if c1.pc.Rechecking? {
      RecheckingAlone(db1, c1, id);
    } else {
      DoneAlone(db1, c1, id, 2);
    }
    hide Alone;
  }

  // The fresh id matters to a read only.
  lemma SameStep(db: Db, c: Call, a: EntryId, b: EntryId)
    requires c.pc.Committing?
    ensures Step(db, c, Choice(NoFault, a)) == Step(db, c, Choice(NoFault, b))
  {
    hide Mutate, AfterCommit;
  }

  lemma ReadingAlone(db: Db, c: Call, id: EntryId)
    requires Sound(db) && Acceptable(c.req) && c.pc.Reading?
    ensures EndsWith(db, c.req, Alone(db, c, id, 4), Some(id), Retried(db, c.req, id))
  {
    LaterAlone(db, c, id, 3);
    var c1 := Step(db, c, Choice(NoFault, id)).1;
    if c.req.wallet.value in db.balances {
      StoredIsSolvent(db, c.req.wallet.value);
      hide Sound, HasKey, HasId, Find;
      ReadAlone(db, c, id);
      hide Step;
      if Poised(db, c1, id) {
        PoisedAlone(db, c1, id, id);
      } else {
        DoneAlone(db, c1, id, 3);
      }
      hide Alone, Poised;
    } else {
      hide Sound, HasKey, HasId, Find;
      DoneAlone(db, c1, id, 3);
    }
  }

  // A snapshot whose version is still the stored one is the stored balance.
  lemma FreshIsPoised(db: Db, c: Call)
    requires Sound(db) && Knows(db, c) && c.pc.Committing? && Fresh(db, c)
    ensures Poised(db, c, c.pc.entry.id)
  {
    CommittingKnows(db, c);
    assert Booked(db, c.req.wallet.value);
    QuietSuffix(db.ledger, c.req.wallet.value, c.pc.seen.asOf);
    StoredIsSolvent(db, c.req.wallet.value);
    hide Sound, Knows, KnowsFirst, Net, Moves, Solvent;
  }

  lemma ConflictAlone(m: Moment, id: EntryId)
    requires Sound(m.db) && Knows(m.db, m.call) && m.call.pc.Committing? && !Fresh(m.db, m.call)
    requires Counted(m.call, m.call.pc.attempt)
    ensures EndsWith(m.db, m.call.req, Alone(m.db, m.call, id, 5), Tries(m.db, m.call, id), Prospect(m.db, m.call, id))
  {
    CommittingKnows(m.db, m.call);
    hide Sound, Knows, KnowsFirst, KnowsCommitting, Step, Find, HasKey, HasId;
    ConflictStep(m, Choice(NoFault, id));
    LaterAlone(m.db, m.call, id, 4);
    var c1 := Step(m.db, m.call, Choice(NoFault, id)).1;
    if m.call.pc.attempt < 7 {
      ReadingAlone(m.db, c1, id);
    } else {
      DoneAlone(m.db, c1, id, 4);
    }
    hide Alone;
  }

  lemma LookUpAlone(db: Db, c: Call, id: EntryId)
    requires Sound(db) && c == Begin(c.req) && c.pc.LookUp?
    ensures EndsWith(db, c.req, Alone(db, c, id, 4), Some(id), Verdict(db, c.req, id))
  {
    UndisturbedCallCommitsIff(db, c.req, id);
    hide Sound, Alone, Mutated, Verdict, Begin;
  }

  lemma {:induction false} StaysEnded(db: Db, c: Call, id: EntryId, n: nat, m: nat)
    requires n <= m && Alone(db, c, id, n).1.pc.Done?
    ensures Alone(db, c, id, m) == Alone(db, c, id, n)
    decreases m
  {
    hide Step;
    if n < m {
      StaysEnded(db, c, id, n, m - 1);
      EndedRests(Alone(db, c, id, n).0, Alone(db, c, id, n).1, Choice(NoFault, id));
    }
  }

  lemma EndedRests(db: Db, c: Call, choice: Choice)
    requires c.pc.Done?
    ensures Step(db, c, choice) == (db, c)
  {
  }

  // At any point of any execution, whatever has happened to the call so far: once everybody leaves it
  // alone, it is answered after at most five more accesses, as exact arithmetic says of the
  // database as it then is; and it makes its entry if and only if that is admitted. Only a call that is about
  // to meet its eighth conflict makes none and gives up.
  lemma LeftAloneEnds(start: Moment, h: seq<Event>, id: EntryId)
    requires Sound(start.db) && start.call == Begin(start.call.req) && Legal(start, h)
    requires !Play(start, h).call.pc.Done?
    ensures var m := Play(start, h);
            EndsWith(m.db, start.call.req, Alone(m.db, m.call, id, 5), Tries(m.db, m.call, id),
                Prospect(m.db, m.call, id))
  {
    EveryExecution(start, h);
    ConflictsAreCounted(start, h);
    var m := Play(start, h);
    var c := m.call;
    assert Acceptable(c.req);
    match c.pc {
      case LookUp => LookUpAlone(m.db, c, id); StaysEnded(m.db, c, id, 4, 5);
      case Reading(_) => ReadingAlone(m.db, c, id); StaysEnded(m.db, c, id, 4, 5);
      case Rechecking => RecheckingAlone(m.db, c, id); StaysEnded(m.db, c, id, 2, 5);
      case Replaying(_, _) =>
        ReplayingAlone(m.db, c, id);
        LaterAlone(m.db, c, id, 0);
        StaysEnded(m.db, c, id, 1, 5);
      case Committing(_, _, _, entry) =>
        if Fresh(m.db, c) {
          FreshIsPoised(m.db, c);
          PoisedAlone(m.db, c, entry.id, id);
          StaysEnded(m.db, c, id, 3, 5);
        } else {
          ConflictAlone(m, id);
        }
    }
  }

  // A request is refused at once if and only if a field of it is missing or not positive: whatever
  // else happens, the call makes no change and has this one answer.
  lemma {:induction false} MalformedIsRefused(start: Moment, h: seq<Event>)
    requires start.call == Begin(start.call.req)
    ensures var req, pc := start.call.req, Play(start, h).call.pc;
            && (req.amount <= 0 ==> pc == Done(Failed(InvalidAmount)))
            && (req.amount > 0 && (req.wallet.None? || req.transfer.None? || req.key == Named("")) ==>
                  pc == Done(Failed(InvalidArgument)))
            && (req.amount > 0 && req.wallet.Some? && req.transfer.Some? && req.key != Named("") ==>
                  start.call.pc == LookUp)
            && (!start.call.pc.LookUp? ==> OwnChanges(start, h) == 0)
    decreases |h|
  {
    if h != [] {
      MalformedIsRefused(start, h[..|h| - 1]);
      OnlyAcceptableCallsRead(start, h[..|h| - 1]);
    }
  }

  // A call says that the database is unavailable if and only if one of its statements has
  // failed, or a commit has taken effect and nobody told.
  lemma FaultIsTold(db: Db, c: Call, choice: Choice)
    requires Acceptable(c.req) && !c.pc.Done?
    ensures var (db', c') := Step(db, c, choice);
            && (c'.pc == Done(Failed(Unavailable))
                <==> choice.fault == Fails || (choice.fault == AckLost && (c.pc.Committing? ==> db' != db)))
            && (choice.fault == Fails ==> db' == db)
  {
    hide Find, HasKey, HasId;
    var db' := Step(db, c, choice).0;
    if c.pc.Committing? && Refusal(db, c.req.wallet.value, c.pc.seen.balance.version, c.pc.next.minor,
        c.pc.entry).None? {
      assert choice.fault != Fails ==> |db'.ledger| == |db.ledger| + 1;
    }
  }
}
