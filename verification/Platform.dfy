/**
  The whole platform as one machine: the wallet with all its calls, every Create call with
  its process's breaker, the transfer database and cache, the outbox workers, the two topics
  and the notification consumers. Each action is one access of one of them to a store, to the
  network or to the broker; anything may happen between two of them, and a disabled action
  does nothing. A run starts with everything empty.
 */
module Platform {
  import opened Wrappers
  import opened Keys
  import C = WalletCalls
  import W = WalletRuns
  import B = Breaker
  import opened WalletClient
  import T = TransferStore
  import S = Saga
  import O = Outbox
  import R = OutboxRuns
  import N = Notification

  const Threshold: nat := 5
  const Cooldown: nat := 5_000_000_000

  // One Create call. issued: its present leg is on the wire. mark: the length of its
  // breaker's trace just after its debit succeeded. dead: its process has died.
  datatype Running = Running(saga: S.Saga, proc: nat, issued: bool, mark: nat, dead: bool)

  // owner remembers which Create call made a transfer id.
  datatype Transfers = Transfers(db: T.Db, cache: map<string, TransferId>, sagas: seq<Running>,
                                 owner: map<TransferId, nat>, circuits: map<nat, seq<B.Signal>>)

  datatype ConsumerPc = Polling | Claiming(msg: O.Message) | Saving(msg: O.Message)

  datatype Pipe = Pipe(primary: seq<O.Message>, dlq: seq<O.Message>, workers: map<nat, R.Pc>,
                       inbox: N.Inbox, consumers: map<nat, ConsumerPc>)

  datatype Sys = Sys(wallet: W.Sys, transfers: Transfers, pipe: Pipe)

  // How a leg's remote call ends for its caller: with the service's answer, or broken, in
  // which case the service may be stopped by it or may carry on unseen.
  datatype Ending = Answered | Broken(outcome: Outcome, stops: bool)

  datatype ConsumerAction = Poll(offset: nat) | Claim(claimFault: T.Fault) | Save(saveFault: T.Fault) | ConsumerDies

  datatype Action =
    | Wallet(act: W.Action)
    | NewSaga(req: S.CreateRequest, proc: nat)
    | CacheAnswers(saga: nat, down: bool)
    | LoadAnswers(saga: nat, down: bool)
    | RowAnswers(saga: nat, down: bool, freshId: TransferId)
    | CacheFills(saga: nat, stores: bool)
    | Issue(saga: nat, now: nat)
    | End(saga: nat, ending: Ending, now: nat)
    | InsertAnswers(saga: nat, eventId: T.EventId, at: nat, fault: T.Fault)
    | Die(saga: nat)
    | Expire(key: string)
    | Work(worker: nat, work: R.Action)
    | Consume(consumer: nat, consume: ConsumerAction)

  const Empty: Sys := Sys(W.Empty, Transfers(T.Db([], []), map[], [], map[], map[]),
                          Pipe([], [], map[], N.Inbox({}, []), map[]))

  function TraceOf(t: Transfers, proc: nat): seq<B.Signal> {
    if proc in t.circuits then t.circuits[proc] else []
  }

  // Callers other than the transfer service name their own keys.
  predicate External(a: W.Action) {
    a.Arrive? ==> a.id.External? && a.req.key.Named? && WellNamed(a.req.key)
  }

  predicate Live(t: Transfers, i: nat) {
    i < |t.sagas| && !t.sagas[i].dead
  }

  function Put(s: Sys, i: nat, r: Running): Sys
    requires i < |s.transfers.sagas|
  {
    s.(transfers := s.transfers.(sagas := s.transfers.sagas[i := r]))
  }

  // The call learns an answer.
  function Hear(s: Sys, i: nat, a: S.Answer): Sys
    requires i < |s.transfers.sagas|
  {
    var r := s.transfers.sagas[i];
    Put(s, i, r.(saga := S.On(r.saga, a)))
  }

  function LegCallOf(r: Running): W.CallId
    requires r.saga.tr.Some? && S.LegOf(r.saga.pc).Some?
  {
    W.LegCall(r.saga.tr.value.id, S.LegOf(r.saga.pc).value)
  }

  predicate AtLeg(t: Transfers, i: nat) {
    Live(t, i) && t.sagas[i].saga.tr.Some? && S.LegOf(t.sagas[i].saga.pc).Some?
  }

  function CacheAnswer(s: Sys, i: nat, down: bool): S.Answer
    requires i < |s.transfers.sagas|
  {
    var key := s.transfers.sagas[i].saga.req.key;
    S.CacheSaid(if down then Err(T.StoreDown)
                else Ok(if key in s.transfers.cache then Some(s.transfers.cache[key]) else None))
  }

  function LoadAnswer(s: Sys, id: TransferId, down: bool): S.Answer {
    var row := T.ById(s.transfers.db.rows, id);
    S.Loaded(if down then Err(T.StoreDown) else if row.None? then Err(T.NoSuchRow) else Ok(row.value))
  }

  // The lookup by key. If it finds nothing and the request is sound, a transfer is made
  // under an id that no other has.
  function HearRow(s: Sys, i: nat, down: bool, id: TransferId): Sys
    requires i < |s.transfers.sagas|
  {
    var r := s.transfers.sagas[i];
    var found: Result<Option<T.Transfer>, T.StoreError> :=
      if down then Err(T.StoreDown) else Ok(T.ByKey(s.transfers.db.rows, r.saga.req.key));
    var s' := Hear(s, i, S.RowSaid(found, id));
    if s'.transfers.sagas[i].saga.tr.None? then s'
    else if id == "" || id in s.transfers.owner then s
    else s'.(transfers := s'.transfers.(owner := s.transfers.owner[id := i]))
  }

  // cache.Set, whose result nobody looks at.
  function Fill(s: Sys, i: nat, id: TransferId, stores: bool): Sys
    requires i < |s.transfers.sagas|
  {
    var s' := Hear(s, i, S.CacheFilled);
    if stores
        then s'.(transfers := s'.transfers.(cache := s.transfers.cache[s.transfers.sagas[i].saga.req.key := id]))
        else s'
  }

  ghost function IssueLeg(s: Sys, i: nat, now: nat): Sys
    requires AtLeg(s.transfers, i)
  {
    var r := s.transfers.sagas[i];
    if B.Refuses(TraceOf(s.transfers, r.proc), now, Threshold, Cooldown) then
      Hear(s, i, S.WalletSaid(Some(CircuitOpen)))
    else
      Put(s, i, r.(issued := true)).(wallet :=
        W.Act(s.wallet, W.Arrive(LegCallOf(r), S.LegRequest(r.saga.tr.value, S.LegOf(r.saga.pc).value))))
  }

  predicate MayEnd(s: Sys, i: nat, ending: Ending) {
    && AtLeg(s.transfers, i) && s.transfers.sagas[i].issued
    && match ending
       case Answered =>
         LegCallOf(s.transfers.sagas[i]) in s.wallet.calls && s.wallet.calls[LegCallOf(s.transfers.sagas[i])].pc.Done?
       case Broken(o, _) => !o.Replied?
  }

  function OutcomeOf(s: Sys, i: nat, ending: Ending): Outcome
    requires MayEnd(s, i, ending)
  {
    match ending
    case Answered => Reply(C.Reported(s.wallet.calls[LegCallOf(s.transfers.sagas[i])].pc.outcome))
    case Broken(o, _) => o
  }

  function EndLeg(s: Sys, i: nat, ending: Ending, now: nat): Sys
    requires MayEnd(s, i, ending)
  {
    var r := s.transfers.sagas[i];
    var o := OutcomeOf(s, i, ending);
    var trace := TraceOf(s.transfers, r.proc) + Signals(o, i, now);
    var r' := r.(saga := S.On(r.saga, S.WalletSaid(MapErr(o))), issued := false,
                 mark := if r.saga.pc.Debiting? && o.Replied? then |trace| else r.mark);
    var wallet := if ending.Broken? && ending.stops then W.Act(s.wallet, W.Kill(LegCallOf(r))) else s.wallet;
    Sys(wallet, s.transfers.(sagas := s.transfers.sagas[i := r'], circuits := s.transfers.circuits[r.proc := trace]),
        s.pipe)
  }

  function InsertRow(s: Sys, i: nat, eventId: T.EventId, at: nat, fault: T.Fault): Sys
    requires i < |s.transfers.sagas| && s.transfers.sagas[i].saga.tr.Some?
  {
    var tr := S.Complete(s.transfers.sagas[i].saga.tr.value);
    var (db, failure) := T.Insert(s.transfers.db, tr, T.CompletedEvent(tr, eventId, at), fault);
    var s' := Hear(s, i, S.Inserted(failure));
    s'.(transfers := s'.transfers.(db := db))
  }

  ghost function WorkerActs(s: Sys, w: nat, a: R.Action): Sys {
    var pc := if w in s.pipe.workers then s.pipe.workers[w] else R.Idle;
    var (l, pc') := R.Step(R.Line(s.transfers.db.outbox, s.pipe.primary, s.pipe.dlq), pc, a);
    Sys(s.wallet, s.transfers.(db := s.transfers.db.(outbox := l.rows)),
        s.pipe.(primary := l.primary, dlq := l.dlq, workers := s.pipe.workers[w := pc']))
  }

  // Poll may deliver any message of the topic again; a commit only narrows that, so it is not a step.
  function ConsumerStep(p: Pipe, pc: ConsumerPc, a: ConsumerAction): (N.Inbox, ConsumerPc) {
    match (pc, a)
    case (_, ConsumerDies) => (p.inbox, Polling)
    case (Polling, Poll(offset)) => (p.inbox, if offset < |p.primary| then Claiming(p.primary[offset]) else Polling)
    case (Claiming(m), Claim(fault)) =>
      var (inbox, claimed) := N.TryClaim(p.inbox, m.key, fault);
      (inbox, if claimed == Some(true) && m.value.Json? then Saving(m) else Polling)
    case (Saving(m), Save(fault)) =>
      (if m.value.Json? then N.Save(p.inbox, N.NoteOf(m.key, m.value.event), fault).0 else p.inbox, Polling)
    case (_, _) => (p.inbox, pc)
  }

  function ConsumerActs(s: Sys, c: nat, a: ConsumerAction): Sys {
    var pc := if c in s.pipe.consumers then s.pipe.consumers[c] else Polling;
    var (inbox, pc') := ConsumerStep(s.pipe, pc, a);
    s.(pipe := s.pipe.(inbox := inbox, consumers := s.pipe.consumers[c := pc']))
  }

  ghost function Act(s: Sys, a: Action): Sys {
    var t := s.transfers;
    match a
    case Wallet(act) => if External(act) then s.(wallet := W.Act(s.wallet, act)) else s
    case NewSaga(req, proc) => s.(transfers := t.(sagas := t.sagas + [Running(S.Start(req), proc, false, 0, false)]))
    case CacheAnswers(i, down) =>
      if Live(t, i) && t.sagas[i].saga.pc.AskingCache? then Hear(s, i, CacheAnswer(s, i, down)) else s
    case LoadAnswers(i, down) =>
      if Live(t, i) && t.sagas[i].saga.pc.Loading? then Hear(s, i, LoadAnswer(s, t.sagas[i].saga.pc.id, down)) else s
    case RowAnswers(i, down, id) =>
      if Live(t, i) && t.sagas[i].saga.pc.AskingRow? then HearRow(s, i, down, id) else s
    case CacheFills(i, stores) =>
      if !Live(t, i) then s
      else if t.sagas[i].saga.pc.FillingReplay? then Fill(s, i, t.sagas[i].saga.pc.found.id, stores)
      else if t.sagas[i].saga.pc.Filling? && t.sagas[i].saga.tr.Some?
          then Fill(s, i, t.sagas[i].saga.tr.value.id, stores)
      else s
    case Issue(i, now) => if AtLeg(t, i) && !t.sagas[i].issued then IssueLeg(s, i, now) else s
    case End(i, ending, now) => if MayEnd(s, i, ending) then EndLeg(s, i, ending, now) else s
    case InsertAnswers(i, eventId, at, fault) =>
      if Live(t, i) && t.sagas[i].saga.pc.Inserting? && t.sagas[i].saga.tr.Some?
          then InsertRow(s, i, eventId, at, fault) else s
    case Die(i) => if Live(t, i) then Put(s, i, t.sagas[i].(dead := true)) else s
    case Expire(key) => s.(transfers := t.(cache := t.cache - {key}))
    case Work(w, work) => WorkerActs(s, w, work)
    case Consume(c, consume) => ConsumerActs(s, c, consume)
  }

  ghost function Exec(run: seq<Action>): Sys {
    if run == [] then Empty else Act(Exec(run[..|run| - 1]), run[|run| - 1])
  }
}
