/**
  One Credit or Debit call of the wallet service, as a machine that makes one database
  access per step, and as the loop that runs it against a database others are changing.
 */
module WalletCalls {
  import opened Wrappers
  import opened Keys
  import opened Ledger
  import opened WalletStore

  const MaxAttempts: nat := 8

  // An id is None when its text is not a UUID.
  datatype Request = Request(wallet: Option<WalletId>, amount: int64, transfer: Option<TransferId>,
                             key: Key, typ: EntryType)

  datatype MutateResult = MutateResult(balance: Balance, entryId: EntryId)

  // Which of the three ways of succeeding was taken.
  datatype Path = FoundFirst | Committed | FoundAfterConflict

  // A balance together with the length of the ledger when it was read.
  datatype Snapshot = Snapshot(balance: Balance, asOf: nat)

  datatype Outcome =
    | Succeeded(result: MutateResult, path: Path, asOf: nat)
    | Failed(error: Error)

  datatype Pc =
    | LookUp
    | Replaying(entryId: EntryId, path: Path)
    | Reading(attempt: nat)
    | Committing(attempt: nat, seen: Snapshot, next: Balance, entry: Entry)
    | Rechecking
    | Done(outcome: Outcome)

  // first is the snapshot of the first attempt, once it has been taken.
  datatype Call = Call(req: Request, first: Option<Snapshot>, pc: Pc)

  // What one step leaves to chance: the fault it suffers and the id it would give an entry.
  datatype Choice = Choice(fault: Fault, freshId: EntryId)

  predicate Acceptable(req: Request) {
    req.amount > 0 && req.wallet.Some? && req.transfer.Some? && req.key != Named("")
  }

  function Begin(req: Request): Call {
    if req.amount <= 0 then Call(req, None, Done(Failed(InvalidAmount)))
    else if !Acceptable(req) then Call(req, None, Done(Failed(InvalidArgument)))
    else Call(req, None, LookUp)
  }

  function NewEntry(req: Request, id: EntryId): Entry
    requires Acceptable(req)
  {
    Entry(id, req.wallet.value, req.transfer.value, req.typ, req.amount, req.key)
  }

  function Fail(c: Call, e: Error): Call {
    c.(pc := Done(Failed(e)))
  }

  // After GetBalance in the retry loop.
  function AfterRead(c: Call, attempt: nat, read: Result<Balance, Error>, asOf: nat, id: EntryId): Call
    requires Acceptable(c.req)
  {
    if read.Err? then Fail(c, read.error)
    else
      var seen := Snapshot(read.value, asOf);
      var next := Apply(c.req.typ, read.value, c.req.amount);
      var c' := if attempt == 0 then c.(first := Some(seen)) else c;
      if next.Err? then Fail(c', next.error)
      else c'.(pc := Committing(attempt, seen, next.value, NewEntry(c.req, id)))
  }

  // After MutateBalance.
  function AfterCommit(c: Call, attempt: nat, next: Balance, id: EntryId, err: Option<Error>, asOf: nat): Call {
    match err
    case None => c.(pc := Done(Succeeded(MutateResult(next, id), Committed, asOf)))
    case Some(VersionConflict) =>
      if attempt + 1 < MaxAttempts then c.(pc := Reading(attempt + 1)) else Fail(c, RetriesExhausted)
    case Some(AlreadyExists) => c.(pc := Rechecking)
    case Some(e) => Fail(c, e)
  }

  function Step(db: Db, c: Call, choice: Choice): (Db, Call) {
    if !Acceptable(c.req) then (db, c) else
    match c.pc
    case LookUp =>
      var found := ReadEntry(db, c.req.key, choice.fault);
      (db, if found.Err? then Fail(c, found.error)
           else if found.value.Some? then c.(pc := Replaying(found.value.value.id, FoundFirst))
           else c.(pc := Reading(0)))
    case Replaying(id, path) =>
      var read := Read(db, c.req.wallet.value, choice.fault);
      (db, if read.Err? then Fail(c, read.error)
           else c.(pc := Done(Succeeded(MutateResult(read.value, id), path, |db.ledger|))))
    case Reading(attempt) =>
      (db, AfterRead(c, attempt, Read(db, c.req.wallet.value, choice.fault), |db.ledger|, choice.freshId))
    case Committing(attempt, seen, next, entry) =>
      var (db', err) := Mutate(db, c.req.wallet.value, seen.balance.version, next.minor, entry, choice.fault);
      (db', AfterCommit(c, attempt, next, entry.id, err, |db'.ledger|))
    case Rechecking =>
      var found := ReadEntry(db, c.req.key, choice.fault);
      (db, if found.Err? then Fail(c, found.error)
           else if found.value.Some? then c.(pc := Replaying(found.value.value.id, FoundAfterConflict))
           else Fail(c, AlreadyExists))
    case Done(_) => (db, c)
  }

  /******* What a call knows of the database, however much others have changed it *******/

  ghost predicate FoundAt(l: seq<Entry>, n: nat, key: Key, id: EntryId) {
    n <= |l| && Find(l[..n], key).Some? && Find(l[..n], key).value.id == id
  }

  ghost predicate KnowsFirst(db: Db, c: Call) {
    c.first.Some? ==>
      && c.req.wallet.Some?
      && c.req.wallet.value in db.balances
      && AsOf(db.ledger, c.first.value.asOf, c.req.wallet.value, c.first.value.balance)
  }

  // After n conflicts the version has risen by at least n since the first read.
  ghost predicate Overtaken(db: Db, c: Call, n: nat) {
    c.first.Some? && c.req.wallet.Some? &&
    c.first.value.balance.version + n <= Moves(db.ledger, c.req.wallet.value)
  }

  ghost predicate KnowsCommitting(db: Db, c: Call)
    requires c.pc.Committing? && Acceptable(c.req)
  {
    && c.pc.attempt < MaxAttempts
    && c.req.wallet.value in db.balances
    && AsOf(db.ledger, c.pc.seen.asOf, c.req.wallet.value, c.pc.seen.balance)
    && Apply(c.req.typ, c.pc.seen.balance, c.req.amount) == Ok(c.pc.next)
    && c.pc.entry == NewEntry(c.req, c.pc.entry.id)
    && c.first.Some?
    && c.first.value.balance.version + c.pc.attempt <= c.pc.seen.balance.version
  }

  ghost predicate KnowsOutcome(db: Db, c: Call, o: Outcome) {
    match o
    case Succeeded(result, path, asOf) =>
      && Acceptable(c.req)
      && c.req.wallet.value in db.balances
      && AsOf(db.ledger, asOf, c.req.wallet.value, result.balance)
      && FoundAt(db.ledger, asOf, c.req.key, result.entryId)
      && (path == Committed ==> 0 < asOf && db.ledger[asOf - 1] == NewEntry(c.req, result.entryId))
    case Failed(RetriesExhausted) => Overtaken(db, c, MaxAttempts)
    case Failed(_) => true
  }

  ghost predicate Knows(db: Db, c: Call) {
    && KnowsFirst(db, c)
    && (c.pc.Done? || Acceptable(c.req))
    && match c.pc
       case LookUp => true
       case Replaying(id, path) => path != Committed && FoundAt(db.ledger, |db.ledger|, c.req.key, id)
       case Reading(attempt) => attempt < MaxAttempts && (attempt > 0 ==> Overtaken(db, c, attempt))
       case Committing(_, _, _, _) => KnowsCommitting(db, c)
       case Rechecking => true
       case Done(o) => KnowsOutcome(db, c, o)
  }

  lemma AsOfIsStable(a: seq<Entry>, b: seq<Entry>, n: nat, w: WalletId, bal: Balance)
    requires a <= b && AsOf(a, n, w, bal)
    ensures AsOf(b, n, w, bal)
  {
    assert a[..n] == b[..n];
  }

  lemma FoundIsStable(a: seq<Entry>, b: seq<Entry>, n: nat, key: Key, id: EntryId)
    requires a <= b && FoundAt(a, n, key, id)
    ensures FoundAt(b, n, key, id)
    ensures FoundAt(b, |b|, key, id)
  {
    assert a[..n] == b[..n];
    assert b[..|b|] == b;
    FindIsStable(a[..n], b, key);
  }

  lemma OvertakenIsStable(a: Db, b: Db, c: Call, n: nat)
    requires a.ledger <= b.ledger && Overtaken(a, c, n)
    ensures Overtaken(b, c, n)
  {
    assert b.ledger[..|a.ledger|] == a.ledger;
    MovesGrow(b.ledger, c.req.wallet.value, |a.ledger|);
  }

  // Nothing that others do can make a call's knowledge wrong.
  lemma EvolutionKeepsKnowledge(a: Db, b: Db, c: Call)
    requires Evolves(a, b) && Knows(a, c)
    ensures Knows(b, c)
  {
    if c.first.Some? {
      AsOfIsStable(a.ledger, b.ledger, c.first.value.asOf, c.req.wallet.value, c.first.value.balance);
    }
    match c.pc {
      case LookUp =>
      case Replaying(id, _) => FoundIsStable(a.ledger, b.ledger, |a.ledger|, c.req.key, id);
      case Reading(attempt) => if attempt > 0 { OvertakenIsStable(a, b, c, attempt); }
      case Committing(_, seen, _, _) =>
        AsOfIsStable(a.ledger, b.ledger, seen.asOf, c.req.wallet.value, seen.balance);
      case Rechecking =>
      case Done(Succeeded(result, _, asOf)) =>
        AsOfIsStable(a.ledger, b.ledger, asOf, c.req.wallet.value, result.balance);
        FoundIsStable(a.ledger, b.ledger, asOf, c.req.key, result.entryId);
      case Done(Failed(e)) => if e == RetriesExhausted { OvertakenIsStable(a, b, c, MaxAttempts); }
    }
  }

  lemma StoredIsAsOfNow(db: Db, w: WalletId)
    requires Sound(db) && w in db.balances
    ensures AsOf(db.ledger, |db.ledger|, w, db.balances[w])
  {
    assert Booked(db, w);
    assert db.ledger[..|db.ledger|] == db.ledger;
  }

  lemma LookUpStep(db: Db, c: Call, choice: Choice)
    requires Sound(db) && Knows(db, c) && (c.pc.LookUp? || c.pc.Rechecking?)
    ensures Step(db, c, choice).0 == db
    ensures Knows(db, Step(db, c, choice).1)
  {
    assert db.ledger[..|db.ledger|] == db.ledger;
  }

  lemma ReplayStep(db: Db, c: Call, choice: Choice)
    requires Sound(db) && Knows(db, c) && c.pc.Replaying?
    ensures Step(db, c, choice).0 == db
    ensures Knows(db, Step(db, c, choice).1)
  {
    if c.req.wallet.value in db.balances {
      StoredIsAsOfNow(db, c.req.wallet.value);
    }
    hide Sound, AsOf, FoundAt;
  }

  lemma ReadStep(db: Db, c: Call, choice: Choice)
    requires Sound(db) && Knows(db, c) && c.pc.Reading?
    ensures Step(db, c, choice).0 == db
    ensures Knows(db, Step(db, c, choice).1)
  {
    if c.req.wallet.value in db.balances {
      StoredIsAsOfNow(db, c.req.wallet.value);
      assert db.ledger[..|db.ledger|] == db.ledger;
    }
    hide Sound, Apply;
  }

  lemma CommittedStep(db: Db, c: Call)
    requires Sound(db) && Knows(db, c) && c.pc.Committing?
    requires Refusal(db, c.req.wallet.value, c.pc.seen.balance.version, c.pc.next.minor, c.pc.entry).None?
    ensures SerialEnabled(db, c.pc.entry)
    ensures Commit(db, c.req.wallet.value, c.pc.seen.balance.version, c.pc.next.minor, c.pc.entry)
         == Serial(db, c.pc.entry)
    ensures var after := Serial(db, c.pc.entry);
            && Evolves(db, after)
            && KnowsOutcome(after, c, Succeeded(MutateResult(c.pc.next, c.pc.entry.id), Committed, |after.ledger|))
  {
    CommitIsSerial(db, c.pc.seen.asOf, c.pc.entry, c.pc.seen.balance, c.pc.next);
    SerialKeepsSound(db, c.pc.entry);
    var after := Serial(db, c.pc.entry);
    StoredIsAsOfNow(after, c.req.wallet.value);
    FindIsOnly(after.ledger, |db.ledger|);
    assert after.ledger[..|after.ledger|] == after.ledger;
  }

  lemma RefusedStep(db: Db, c: Call, choice: Choice)
    requires Sound(db) && Knows(db, c) && c.pc.Committing?
    requires choice.fault == Fails
          || Refusal(db, c.req.wallet.value, c.pc.seen.balance.version, c.pc.next.minor, c.pc.entry).Some?
    ensures Step(db, c, choice).0 == db
    ensures Knows(db, Step(db, c, choice).1)
  {
    hide Sound, Knows, KnowsFirst, KnowsCommitting, Step, HasKey, HasId, Apply, Acceptable;
    CommittingKnows(db, c);
    CommitStepShape(db, c, choice);
    if Refusal(db, c.req.wallet.value, c.pc.seen.balance.version, c.pc.next.minor, c.pc.entry)
        == Some(VersionConflict) {
      ConflictMeansMoved(db, c);
    }
    var err := Mutate(db, c.req.wallet.value, c.pc.seen.balance.version, c.pc.next.minor, c.pc.entry, choice.fault).1;
    RefusedKnows(db, c, err.value);
  }

  lemma RefusedKnows(db: Db, c: Call, e: Error)
    requires Knows(db, c) && c.pc.Committing? && !e.RetriesExhausted?
    requires e == VersionConflict ==> Overtaken(db, c, c.pc.attempt + 1)
    ensures Knows(db, AfterCommit(c, c.pc.attempt, c.pc.next, c.pc.entry.id, Some(e), |db.ledger|))
  {
  }

  lemma CommittingKnows(db: Db, c: Call)
    requires Knows(db, c) && c.pc.Committing?
    ensures Acceptable(c.req) && KnowsFirst(db, c) && KnowsCommitting(db, c) && c.first.Some?
    ensures c.req.wallet.value in db.balances
  {
  }

  lemma CommitStepShape(db: Db, c: Call, choice: Choice)
    requires Acceptable(c.req) && c.pc.Committing?
    ensures var (db', err) := Mutate(db, c.req.wallet.value, c.pc.seen.balance.version, c.pc.next.minor, c.pc.entry,
        choice.fault);
            Step(db, c, choice) == (db', AfterCommit(c, c.pc.attempt, c.pc.next, c.pc.entry.id, err, |db'.ledger|))
  {
  }

  // A version that is not the one seen is a later one.
  lemma ConflictMeansMoved(db: Db, c: Call)
    requires Sound(db) && c.pc.Committing? && Acceptable(c.req) && KnowsCommitting(db, c)
    requires db.balances[c.req.wallet.value].version != c.pc.seen.balance.version
    ensures Overtaken(db, c, c.pc.attempt + 1)
  {
    assert Booked(db, c.req.wallet.value);
    MovesGrow(db.ledger, c.req.wallet.value, c.pc.seen.asOf);
  }

  // The database after a call's step is the one before it, or the call's own entry has
  // been applied, as the serial wallet would, to what was stored at that instant.
  ghost predicate QuietOrSerial(db: Db, c: Call, db': Db, c': Call) {
    db' != db ==>
      && c.pc.Committing?
      && SerialEnabled(db, c.pc.entry)
      && db' == Serial(db, c.pc.entry)
      && (c'.pc == Done(Failed(Unavailable))
          || c'.pc == Done(Succeeded(MutateResult(c.pc.next, c.pc.entry.id), Committed, |db'.ledger|)))
  }

  lemma AcknowledgedStep(db: Db, c: Call, choice: Choice)
    requires Sound(db) && Knows(db, c) && c.pc.Committing? && choice.fault != Fails
    requires Refusal(db, c.req.wallet.value, c.pc.seen.balance.version, c.pc.next.minor, c.pc.entry).None?
    ensures var (db', c') := Step(db, c, choice);
            Evolves(db, db') && Knows(db', c') && QuietOrSerial(db, c, db', c')
  {
    hide Refusal, Sound, Knows, KnowsOutcome, KnowsFirst, KnowsCommitting, Step, Serial, SerialEnabled, Evolves,
        Acceptable, Apply;
    CommittingKnows(db, c);
    CommitStepShape(db, c, choice);
    CommittedStep(db, c);
    var db' := Serial(db, c.pc.entry);
    FirstIsStable(db, db', c);
    DoneKnows(db', c, Succeeded(MutateResult(c.pc.next, c.pc.entry.id), Committed, |db'.ledger|));
    DoneKnows(db', c, Failed(Unavailable));
  }

  lemma FirstIsStable(a: Db, b: Db, c: Call)
    requires Evolves(a, b) && KnowsFirst(a, c)
    ensures KnowsFirst(b, c)
  {
    if c.first.Some? {
      AsOfIsStable(a.ledger, b.ledger, c.first.value.asOf, c.req.wallet.value, c.first.value.balance);
    }
    hide Sound, AsOf;
  }

  lemma DoneKnows(db: Db, c: Call, o: Outcome)
    requires KnowsFirst(db, c) && (KnowsOutcome(db, c, o) || o == Failed(Unavailable))
    ensures Knows(db, c.(pc := Done(o)))
  {
  }

  lemma CommittingStep(db: Db, c: Call, choice: Choice)
    requires Sound(db) && Knows(db, c) && c.pc.Committing?
    ensures var (db', c') := Step(db, c, choice);
            Evolves(db, db') && Knows(db', c') && QuietOrSerial(db, c, db', c')
  {
    if choice.fault == Fails
       || Refusal(db, c.req.wallet.value, c.pc.seen.balance.version, c.pc.next.minor, c.pc.entry).Some? {
      RefusedStep(db, c, choice);
    } else {
      AcknowledgedStep(db, c, choice);
    }
  }

  // One step of any call, from any state the call may be in.
  lemma StepIsSerial(db: Db, c: Call, choice: Choice)
    requires Sound(db) && Knows(db, c)
    ensures var (db', c') := Step(db, c, choice);
            Evolves(db, db') && Knows(db', c') && QuietOrSerial(db, c, db', c')
  {
    match c.pc {
      case LookUp => LookUpStep(db, c, choice);
      case Rechecking => LookUpStep(db, c, choice);
      case Replaying(_, _) => ReplayStep(db, c, choice);
      case Reading(_) => ReadStep(db, c, choice);
      case Committing(_, _, _, _) => CommittingStep(db, c, choice);
      case Done(_) =>
    }
  }

  /******* Whole executions of one call *******/

  // Others change the database, or the call takes a step.
  datatype Event = Others(db: Db) | Own(choice: Choice)

  datatype Moment = Moment(db: Db, call: Call)

  function Next(m: Moment, e: Event): Moment {
    match e
    case Others(db) => m.(db := db)
    case Own(choice) => var (db, c) := Step(m.db, m.call, choice); Moment(db, c)
  }

  function Play(start: Moment, h: seq<Event>): Moment {
    if h == [] then start else Next(Play(start, h[..|h| - 1]), h[|h| - 1])
  }

  ghost predicate Legal(start: Moment, h: seq<Event>) {
    h == [] ||
    (Legal(start, h[..|h| - 1]) &&
     (h[|h| - 1].Others? ==> Evolves(Play(start, h[..|h| - 1]).db, h[|h| - 1].db)))
  }

  // How often the call itself changed the database.
  function OwnChanges(start: Moment, h: seq<Event>): nat {
    if h == [] then 0
    else
      var before := Play(start, h[..|h| - 1]);
      OwnChanges(start, h[..|h| - 1])
      + if h[|h| - 1].Own? && Next(before, h[|h| - 1]).db != before.db then 1 else 0
  }

  predicate MayHaveCommitted(c: Call) {
    c.pc == Done(Failed(Unavailable)) || (c.pc.Done? && c.pc.outcome.Succeeded? && c.pc.outcome.path == Committed)
  }

  predicate DidCommit(c: Call) {
    c.pc.Done? && c.pc.outcome.Succeeded? && c.pc.outcome.path == Committed
  }

  lemma BeginKnows(db: Db, req: Request)
    ensures Knows(db, Begin(req))
    ensures !MayHaveCommitted(Begin(req))
  {
  }

  // A step reports a commit only if it has made one; what is done stays done.
  lemma OnlyCommittingCommits(db: Db, c: Call, choice: Choice)
    requires Knows(db, c)
    ensures var (db', c') := Step(db, c, choice);
            && (DidCommit(c') ==> DidCommit(c) || db' != db)
            && (MayHaveCommitted(c) ==> c' == c && db' == db)
  {
  }

  lemma CommittedAtMostOnce(m: Moment, choice: Choice, n: nat)
    requires Sound(m.db) && Knows(m.db, m.call)
    requires n == 0 || (n == 1 && MayHaveCommitted(m.call))
    requires DidCommit(m.call) ==> n == 1
    ensures var m' := Next(m, Own(choice));
            var n' := n + if m'.db != m.db then 1 else 0;
            && (n' == 0 || (n' == 1 && MayHaveCommitted(m'.call)))
            && (DidCommit(m'.call) ==> n' == 1)
  {
    StepIsSerial(m.db, m.call, choice);
    OnlyCommittingCommits(m.db, m.call, choice);
    hide Knows, Sound, Evolves, Step, Serial, SerialEnabled;
  }

  lemma StepKeepsRequest(db: Db, c: Call, choice: Choice)
    ensures Step(db, c, choice).1.req == c.req
  {
  }

  // Rely and guarantee together: whatever others do, the database stays sound, the call's
  // knowledge stays right, and it commits exactly once if it reports a commit, never if it
  // reports a replay or any error but a lost connection.
  lemma {:induction false} EveryExecution(start: Moment, h: seq<Event>)
    requires Sound(start.db) && start.call == Begin(start.call.req) && Legal(start, h)
    ensures var end := Play(start, h);
            && Sound(end.db)
            && start.db.ledger <= end.db.ledger
            && Knows(end.db, end.call)
            && end.call.req == start.call.req
            && OwnChanges(start, h) <= 1
            && (DidCommit(end.call) ==> OwnChanges(start, h) == 1)
            && (!MayHaveCommitted(end.call) ==> OwnChanges(start, h) == 0)
    decreases |h|
  {
    if h == [] {
      BeginKnows(start.db, start.call.req);
    } else {
      var init, e := h[..|h| - 1], h[|h| - 1];
      EveryExecution(start, init);
      var m := Play(start, init);
      match e {
        case Others(db) => EvolutionKeepsKnowledge(m.db, db, m.call);
        case Own(choice) =>
          StepIsSerial(m.db, m.call, choice);
          StepKeepsRequest(m.db, m.call, choice);
          CommittedAtMostOnce(m, choice, OwnChanges(start, init));
      }
      hide Step, Serial, SerialEnabled, Knows, Sound;
    }
  }

  lemma {:induction false} EveryExecutionEvolves(start: Moment, h: seq<Event>)
    requires Sound(start.db) && start.call == Begin(start.call.req) && Legal(start, h)
    ensures Evolves(start.db, Play(start, h).db)
    decreases |h|
  {
    if h != [] {
      var init, e := h[..|h| - 1], h[|h| - 1];
      EveryExecutionEvolves(start, init);
      EveryExecution(start, init);
      if e.Own? {
        StepIsSerial(Play(start, init).db, Play(start, init).call, e.choice);
      }
    }
  }

  // A call that gives up was overtaken at least eight times after its first read.
  lemma ExhaustionMeansEightOthers(start: Moment, h: seq<Event>)
    requires Sound(start.db) && start.call == Begin(start.call.req) && Legal(start, h)
    requires Play(start, h).call.pc == Done(Failed(RetriesExhausted))
    ensures var end := Play(start, h);
            && end.call.first.Some?
            && Acceptable(start.call.req)
            && end.call.first.value.asOf <= |end.db.ledger|
            && Moves(end.db.ledger, start.call.req.wallet.value)
               >= Moves(end.db.ledger[..end.call.first.value.asOf], start.call.req.wallet.value) + 8
            && OwnChanges(start, h) == 0
  {
    EveryExecution(start, h);
    OnlyAcceptableCallsRead(start, h);
  }

  lemma {:induction false} OnlyAcceptableCallsRead(start: Moment, h: seq<Event>)
    requires start.call == Begin(start.call.req)
    ensures !Acceptable(start.call.req) ==> Play(start, h).call == start.call
    ensures Play(start, h).call.req == start.call.req
    decreases |h|
  {
    if h != [] {
      OnlyAcceptableCallsRead(start, h[..|h| - 1]);
    }
  }

  /******* A call that nobody disturbs *******/

  function Alone(db: Db, c: Call, id: EntryId, n: nat): (Db, Call) {
    if n == 0 then (db, c)
    else
      var (db', c') := Alone(db, c, id, n - 1);
      Step(db', c', Choice(NoFault, id))
  }

  // The wallet's balance after the mutation, in exact arithmetic.
  function Exact(db: Db, req: Request): int
    requires req.wallet.Some? && req.wallet.value in db.balances
  {
    db.balances[req.wallet.value].minor as int + if req.typ == EntryType.Credit then req.amount as int
        else -(req.amount as int)
  }

  // The mutation may be made: nothing stands under its key or id, and the exact balance fits.
  predicate Admits(db: Db, req: Request, id: EntryId) {
    && req.amount > 0 && req.wallet.Some? && req.transfer.Some? && req.key != Named("")
    && req.wallet.value in db.balances
    && !HasKey(db.ledger, req.key) && !HasId(db.ledger, id)
    && 0 <= Exact(db, req) <= MaxInt64
    && db.balances[req.wallet.value].version < MaxInt64
  }

  function Mutated(db: Db, req: Request, id: EntryId): Db {
    if Admits(db, req, id) then
      Db(db.balances[req.wallet.value := Balance(Exact(db, req), db.balances[req.wallet.value].version + 1)],
         db.ledger + [NewEntry(req, id)])
    else db
  }

  // The id of the entry that answers the call, or why there is none.
  function Verdict(db: Db, req: Request, id: EntryId): Result<EntryId, Error> {
    if req.amount <= 0 then Err(InvalidAmount)
    else if req.wallet.None? || req.transfer.None? || req.key == Named("") then Err(InvalidArgument)
    else if req.wallet.value !in db.balances then Err(NotFound)
    else if HasKey(db.ledger, req.key) then Ok(Find(db.ledger, req.key).value.id)
    else if Exact(db, req) < 0 then Err(InsufficientFunds)
    else if Exact(db, req) > MaxInt64 || db.balances[req.wallet.value].version == MaxInt64 then Err(Rejected)
    else if HasId(db.ledger, id) then Err(AlreadyExists)
    else Ok(id)
  }

  predicate Answers(db: Db, req: Request, id: EntryId, verdict: Result<EntryId, Error>, o: Outcome) {
    match verdict
    case Err(e) => o == Failed(e)
    case Ok(entry) => o.Succeeded? && o.result.entryId == entry && req.wallet.Some? && req.wallet.value in db.balances
                      && o.result.balance == db.balances[req.wallet.value]
  }

  // The call has read the balance that is stored, and computed the next one.
  predicate Poised(db: Db, c: Call, id: EntryId) {
    && Acceptable(c.req) && c.req.wallet.value in db.balances && c.pc.Committing?
    && c.pc.seen.balance == db.balances[c.req.wallet.value]
    && Exact(db, c.req) >= 0
    && c.pc.next == Balance(Wrap(Exact(db, c.req)), Wrap(db.balances[c.req.wallet.value].version + 1))
    && c.pc.entry == NewEntry(c.req, id)
  }

  lemma ReadAlone(db: Db, c: Call, id: EntryId)
    requires Acceptable(c.req) && c.req.wallet.value in db.balances && c.pc.Reading?
    ensures var (db', c') := Step(db, c, Choice(NoFault, id));
            && db' == db && c'.req == c.req
            && if Exact(db, c.req) < 0 && c.req.typ == EntryType.Debit then c'.pc == Done(Failed(InsufficientFunds))
               else Exact(db, c.req) >= 0 ==> Poised(db, c', id)
  {
    hide Find, Wrap;
  }

  lemma CommitAlone(db: Db, c: Call, id: EntryId)
    requires Poised(db, c, id) && db.balances[c.req.wallet.value].version >= 0
    requires Exact(db, c.req) <= 2 * MaxInt64
    ensures var (db', c') := Step(db, c, Choice(NoFault, id));
            && db' == Mutated(db, c.req, id) && c'.req == c.req
            && (Admits(db, c.req, id) ==> DidCommit(c') && Answers(db', c.req, id, Ok(id), c'.pc.outcome))
            && (!Admits(db, c.req, id) ==>
                  c'.pc == if Exact(db, c.req) > MaxInt64 || db.balances[c.req.wallet.value].version == MaxInt64
                           then Done(Failed(Rejected)) else Rechecking)
  {
  }

  lemma RecheckAlone(db: Db, c: Call, id: EntryId)
    requires Acceptable(c.req) && c.pc == Rechecking && !HasKey(db.ledger, c.req.key)
    ensures Step(db, c, Choice(NoFault, id)) == (db, Fail(c, AlreadyExists))
  {
  }

  // One attempt of the loop: read, commit, and look the entry up again if its id was taken.
  lemma UndisturbedAttempt(db: Db, c: Call, id: EntryId)
    requires Sound(db) && Acceptable(c.req) && c.req.wallet.value in db.balances && c.pc.Reading?
    requires !HasKey(db.ledger, c.req.key)
    ensures var (after, end) := Alone(db, c, id, 3);
            && end.pc.Done? && end.req == c.req
            && after == Mutated(db, c.req, id)
            && Answers(after, c.req, id, Verdict(db, c.req, id), end.pc.outcome)
            && (Admits(db, c.req, id) <==> DidCommit(end))
  {
    StoredIsSolvent(db, c.req.wallet.value);
    hide Sound, HasKey, HasId;
    var choice := Choice(NoFault, id);
    ReadAlone(db, c, id);
    var one := Step(db, c, choice);
    var two := Step(one.0, one.1, choice);
    assert Alone(db, c, id, 1) == one;
    assert Alone(db, c, id, 2) == two;
    assert Alone(db, c, id, 3) == Step(two.0, two.1, choice);
    hide Alone;
    if Poised(db, one.1, id) {
      CommitAlone(db, one.1, id);
      if two.1.pc.Rechecking? {
        hide Step, Poised;
        RecheckAlone(db, two.1, id);
      }
    }
  }

  // The commit goes through, and its acknowledgement is lost: the call fails, the entry is there.
  lemma UnacknowledgedCommit(db: Db, req: Request, id: EntryId)
    requires Sound(db) && Admits(db, req, id)
    ensures var (db2, c2) := Alone(db, Begin(req), id, 2);
            var (after, end) := Step(db2, c2, Choice(AckLost, id));
            after == Mutated(db, req, id) && end.pc == Done(Failed(Unavailable))
  {
    StoredIsSolvent(db, req.wallet.value);
    hide Sound, HasId;
    FoundIsThere(db.ledger, req.key);
    var c1 := Step(db, Begin(req), Choice(NoFault, id)).1;
    LaterAlone(db, Begin(req), id, 1);
    LaterAlone(db, c1, id, 0);
    hide HasKey, Find;
    ReadAlone(db, c1, id);
    var c2 := Step(db, c1, Choice(NoFault, id)).1;
    CommitStepShape(db, c2, Choice(AckLost, id));
    hide Alone, Step;
  }

  lemma StoredIsSolvent(db: Db, w: WalletId)
    requires Sound(db) && w in db.balances
    ensures 0 <= db.balances[w].minor && 0 <= db.balances[w].version
  {
    assert Booked(db, w);
    assert db.ledger[..|db.ledger|] == db.ledger;
    assert 0 <= Net(db.ledger[..|db.ledger|], w);
  }

  lemma DoneAlone(db: Db, c: Call, id: EntryId, n: nat)
    requires c.pc.Done?
    ensures Alone(db, c, id, n) == (db, c)
  {
  }

  lemma LaterAlone(db: Db, c: Call, id: EntryId, n: nat)
    ensures var (db', c') := Step(db, c, Choice(NoFault, id));
            Alone(db, c, id, n + 1) == Alone(db', c', id, n)
  {
    hide Step;
    if n > 0 {
      LaterAlone(db, c, id, n - 1);
    }
  }

  // Alone and without faults, a call is done after four accesses. It commits if and only if
  // key and entry id are new and the exact balance fits: a credit that would wrap, like a debit that
  // would overdraw, leaves everything as it was. Every answer is the one that exact
  // arithmetic gives.
  lemma UndisturbedCallCommitsIff(db: Db, req: Request, id: EntryId)
    requires Sound(db)
    ensures var (after, end) := Alone(db, Begin(req), id, 4);
            && end.pc.Done? && end.req == req
            && after == Mutated(db, req, id)
            && Answers(after, req, id, Verdict(db, req, id), end.pc.outcome)
            && (Admits(db, req, id) <==> DidCommit(end))
  {
    hide Sound, Apply, Alone;
    var c1 := Step(db, Begin(req), Choice(NoFault, id)).1;
    LaterAlone(db, Begin(req), id, 3);
    FoundIsThere(db.ledger, req.key);
    if !Acceptable(req) {
      DoneAlone(db, Begin(req), id, 4);
    } else if HasKey(db.ledger, req.key) {
      var c2 := Step(db, c1, Choice(NoFault, id)).1;
      LaterAlone(db, c1, id, 2);
      hide HasKey, Find;
      DoneAlone(db, c2, id, 2);
    } else if req.wallet.value in db.balances {
      hide HasKey, Find;
      UndisturbedAttempt(db, c1, id);
    } else {
      var c2 := Step(db, c1, Choice(NoFault, id)).1;
      LaterAlone(db, c1, id, 2);
      hide HasKey, Find;
      DoneAlone(db, c2, id, 2);
    }
  }

  lemma Extended(start: Moment, h: seq<Event>, e: Event)
    ensures Play(start, h + [e]) == Next(Play(start, h), e)
    ensures Legal(start, h) && (e.Others? ==> Evolves(Play(start, h).db, e.db)) ==> Legal(start, h + [e])
  {
  }

  function Reported(o: Outcome): Result<MutateResult, Error> {
    match o
    case Succeeded(result, _, _) => Ok(result)
    case Failed(e) => Err(e)
  }

  /** The wallet service: Credit and Debit, against a database that others change between any two accesses. */
  class Service {
    const repo: Repo

    constructor (repo: Repo)
      ensures this.repo == repo
    {
      this.repo := repo;
    }

    // If the database is healthy, none of the call's own steps has suffered a fault.
    predicate Smooth(h: seq<Event>) {
      repo.healthy ==> forall k :: 0 <= k < |h| && h[k].Own? ==> h[k].choice.fault == NoFault
    }

    // h is the execution so far, and the database is the one it leads to.
    ghost predicate Tracks(start: Moment, h: seq<Event>)
      reads repo
    {
      && Sound(start.db)
      && start.call == Begin(start.call.req)
      && Legal(start, h)
      && Play(start, h).db == repo.Contents()
    }

    // r is the answer of a call for req that began on db, h being its whole execution.
    ghost predicate Answered(db: Db, req: Request, h: seq<Event>, r: Result<MutateResult, Error>)
      reads repo
    {
      && Tracks(Moment(db, Begin(req)), h)
      && Play(Moment(db, Begin(req)), h).call.pc.Done?
      && Reported(Play(Moment(db, Begin(req)), h).call.pc.outcome) == r
    }

    method Wait(ghost start: Moment, ghost h: seq<Event>) returns (ghost h': seq<Event>)
      requires Tracks(start, h)
      modifies repo
      ensures Tracks(start, h') && Play(start, h').call == Play(start, h).call && (Smooth(h) ==> Smooth(h'))
      ensures Sound(repo.Contents())
    {
      EveryExecution(start, h);
      repo.Interfere();
      h' := h + [Others(repo.Contents())];
      Extended(start, h, Others(repo.Contents()));
    }

    method FindEntry(key: Key, ghost start: Moment, ghost h: seq<Event>)
      returns (r: Result<Option<Entry>, Error>, ghost h': seq<Event>)
      requires Tracks(start, h)
      requires var c := Play(start, h).call; Acceptable(c.req) && c.req.key == key && (c.pc.LookUp? || c.pc.Rechecking?)
      modifies repo
      ensures Tracks(start, h') && (Smooth(h) ==> Smooth(h'))
      ensures var c, c' := Play(start, h).call, Play(start, h').call;
              c' == if r.Err? then Fail(c, r.error)
                    else if r.value.Some?
                    then c.(pc := Replaying(r.value.value.id, if c.pc.LookUp? then FoundFirst else FoundAfterConflict))
                    else if c.pc.LookUp? then c.(pc := Reading(0)) else Fail(c, AlreadyExists)
    {
      ghost var h1 := Wait(start, h);
      ghost var fault: Fault;
      r, fault := repo.GetEntryByIdempotency(key);
      h' := h1 + [Own(Choice(fault, 0))];
      Extended(start, h1, Own(Choice(fault, 0)));
    }

    method ReadBalance(w: WalletId, id: EntryId, ghost start: Moment, ghost h: seq<Event>)
      returns (r: Result<Balance, Error>, ghost h': seq<Event>)
      requires Tracks(start, h)
      requires var c := Play(start, h).call;
               Acceptable(c.req) && c.req.wallet.value == w && (c.pc.Replaying? || c.pc.Reading?)
      modifies repo
      ensures Tracks(start, h') && (Smooth(h) ==> Smooth(h'))
      ensures var c, m := Play(start, h).call, Play(start, h');
              m.call == if c.pc.Reading? then AfterRead(c, c.pc.attempt, r, |m.db.ledger|, id)
                        else if r.Err? then Fail(c, r.error)
                        else c.(pc := Done(Succeeded(MutateResult(r.value, c.pc.entryId), c.pc.path, |m.db.ledger|)))
    {
      ghost var h1 := Wait(start, h);
      ghost var fault: Fault;
      r, fault := repo.GetBalance(w);
      h' := h1 + [Own(Choice(fault, id))];
      Extended(start, h1, Own(Choice(fault, id)));
    }

    method CommitEntry(w: WalletId, expected: int64, newMinor: int64, e: Entry, ghost start: Moment,
        ghost h: seq<Event>)
      returns (err: Option<Error>, ghost h': seq<Event>)
      requires Tracks(start, h)
      requires var c := Play(start, h).call;
               && Acceptable(c.req) && c.req.wallet.value == w && c.pc.Committing?
               && c.pc.seen.balance.version == expected && c.pc.next.minor == newMinor && c.pc.entry == e
      modifies repo
      ensures Tracks(start, h') && (Smooth(h) ==> Smooth(h'))
      ensures var c, m := Play(start, h).call, Play(start, h');
              m.call == AfterCommit(c, c.pc.attempt, c.pc.next, e.id, err, |m.db.ledger|)
    {
      ghost var h1 := Wait(start, h);
      ghost var fault: Fault;
      err, fault := repo.MutateBalance(w, expected, newMinor, e);
      h' := h1 + [Own(Choice(fault, 0))];
      Extended(start, h1, Own(Choice(fault, 0)));
    }

    // Look the entry up and, if it is there, answer with the wallet's current balance.
    method Replay(req: Request, id: EntryId, ghost start: Moment, ghost h: seq<Event>)
      returns (r: Result<MutateResult, Error>, ghost h': seq<Event>)
      requires Tracks(start, h) && Acceptable(req) && Play(start, h).call.req == req
      requires Play(start, h).call.pc.Replaying? && Play(start, h).call.pc.entryId == id
      modifies repo
      ensures Tracks(start, h') && (Smooth(h) ==> Smooth(h'))
      ensures var c := Play(start, h').call; c.pc.Done? && Reported(c.pc.outcome) == r
    {
      var b: Result<Balance, Error>;
      b, h' := ReadBalance(req.wallet.value, 0, start, h);
      r := if b.Err? then Err(b.error) else Ok(MutateResult(b.value, id));
    }

    // The key was taken while the call was trying: answer with the entry under it, if there is one.
    method Recheck(req: Request, ghost start: Moment, ghost h: seq<Event>)
      returns (r: Result<MutateResult, Error>, ghost h': seq<Event>)
      requires Tracks(start, h) && Acceptable(req) && Play(start, h).call.req == req
          && Play(start, h).call.pc.Rechecking?
      modifies repo
      ensures Tracks(start, h') && (Smooth(h) ==> Smooth(h'))
      ensures var c := Play(start, h').call; c.pc.Done? && Reported(c.pc.outcome) == r
    {
      hide Tracks, Play, Smooth;
      var existing: Result<Option<Entry>, Error>;
      existing, h' := FindEntry(req.key, start, h);
      if existing.Err? {
        return Err(existing.error), h';
      }
      if existing.value.None? {
        return Err(AlreadyExists), h';
      }
      r, h' := Replay(req, existing.value.value.id, start, h');
    }

    // The execution h leads from the call's beginning to its answer, and is one of the
    // executions that EveryExecution speaks of.
    method Mutate(req: Request) returns (r: Result<MutateResult, Error>, ghost h: seq<Event>)
      requires Sound(repo.Contents())
      modifies repo
      ensures Answered(old(repo.Contents()), req, h, r) && Smooth(h)
      ensures req.amount <= 0 ==> r == Err(InvalidAmount)
      ensures req.amount > 0 && (req.wallet.None? || req.transfer.None? || req.key == Named("")) ==>
                r == Err(InvalidArgument)
      ensures req.amount <= 0 || req.wallet.None? || req.transfer.None? || req.key == Named("") ==>
                h == [] && repo.Contents() == old(repo.Contents())
    {
      hide Sound, Evolves, Apply;
      ghost var start := Moment(repo.Contents(), Begin(req));
      h := [];
      assert Tracks(start, h) && Smooth(h) && Play(start, h) == start;
      hide Play, Legal, Tracks, Smooth;
      if req.amount <= 0 {
        return Err(InvalidAmount), h;
      }
      if req.wallet.None? || req.transfer.None? || req.key == Named("") {
        return Err(InvalidArgument), h;
      }
      var existing: Result<Option<Entry>, Error>;
      existing, h := FindEntry(req.key, start, h);
      if existing.Err? {
        return Err(existing.error), h;
      }
      if existing.value.Some? {
        r, h := Replay(req, existing.value.value.id, start, h);
        return;
      }
      var attempt := 0;
      while attempt < MaxAttempts
        invariant attempt <= MaxAttempts
        invariant Tracks(start, h) && Smooth(h) && Play(start, h).call.req == req
        invariant Play(start, h).call.pc
               == if attempt < MaxAttempts then Reading(attempt) else Done(Failed(RetriesExhausted))
      {
        var id: EntryId := *;
        var b: Result<Balance, Error>;
        b, h := ReadBalance(req.wallet.value, id, start, h);
        if b.Err? {
          return Err(b.error), h;
        }
        var next := Apply(req.typ, b.value, req.amount);
        if next.Err? {
          return Err(next.error), h;
        }
        var err: Option<Error>;
        err, h := CommitEntry(req.wallet.value, b.value.version, next.value.minor, NewEntry(req, id), start, h);
        if err.None? {
          return Ok(MutateResult(next.value, id)), h;
        }
        if err.value.VersionConflict? {
          attempt := attempt + 1;
        } else if err.value.AlreadyExists? {
          r, h := Recheck(req, start, h);
          return;
        } else {
          return Err(err.value), h;
        }
      }
      return Err(RetriesExhausted), h;
    }

    method Credit(wallet: Option<WalletId>, amount: int64, transfer: Option<TransferId>, key: Key)
      returns (r: Result<MutateResult, Error>, ghost h: seq<Event>)
      requires Sound(repo.Contents())
      modifies repo
      ensures Answered(old(repo.Contents()), Request(wallet, amount, transfer, key, EntryType.Credit), h, r)
          && Smooth(h)
      ensures Sound(repo.Contents()) && old(repo.Contents()).ledger <= repo.Contents().ledger
      ensures r.Ok? ==> Find(repo.ledger, key).Some? && Find(repo.ledger, key).value.id == r.value.entryId
    {
      var req := Request(wallet, amount, transfer, key, EntryType.Credit);
      r, h := Mutate(req);
      AnswerIsTheEntry(Moment(old(repo.Contents()), Begin(req)), h);
    }

    method Debit(wallet: Option<WalletId>, amount: int64, transfer: Option<TransferId>, key: Key)
      returns (r: Result<MutateResult, Error>, ghost h: seq<Event>)
      requires Sound(repo.Contents())
      modifies repo
      ensures Answered(old(repo.Contents()), Request(wallet, amount, transfer, key, EntryType.Debit), h, r) && Smooth(h)
      ensures Sound(repo.Contents()) && old(repo.Contents()).ledger <= repo.Contents().ledger
      ensures r.Ok? ==> Find(repo.ledger, key).Some? && Find(repo.ledger, key).value.id == r.value.entryId
    {
      var req := Request(wallet, amount, transfer, key, EntryType.Debit);
      r, h := Mutate(req);
      AnswerIsTheEntry(Moment(old(repo.Contents()), Begin(req)), h);
    }
  }

  lemma AnswerStands(db: Db, c: Call)
    requires Knows(db, c) && c.pc.Done? && c.pc.outcome.Succeeded?
    ensures Find(db.ledger, c.req.key).Some? && Find(db.ledger, c.req.key).value.id == c.pc.outcome.result.entryId
  {
    FoundIsStable(db.ledger, db.ledger, c.pc.outcome.asOf, c.req.key, c.pc.outcome.result.entryId);
    assert db.ledger[..|db.ledger|] == db.ledger;
  }

  // Whichever path a call takes to success, it answers with the one entry under its key.
  lemma AnswerIsTheEntry(start: Moment, h: seq<Event>)
    requires Sound(start.db) && start.call == Begin(start.call.req) && Legal(start, h)
    ensures var end := Play(start, h);
            && Sound(end.db) && start.db.ledger <= end.db.ledger
            && (end.call.pc.Done? && end.call.pc.outcome.Succeeded? ==>
                  Find(end.db.ledger, start.call.req.key).Some?
                  && Find(end.db.ledger, start.call.req.key).value.id == end.call.pc.outcome.result.entryId)
  {
    EveryExecution(start, h);
    hide Knows, Sound, Play, Legal, OwnChanges, Find;
    var end := Play(start, h);
    if end.call.pc.Done? && end.call.pc.outcome.Succeeded? {
      AnswerStands(end.db, end.call);
    }
  }
}
