/**
  Create of the transfer service, as a machine driven by the answers of the cache, the
  transfer database and the wallet, and as the method that asks them.
 */
module Saga {
  import opened Wrappers
  import opened Keys
  import L = Ledger
  import W = WalletStore
  import C = WalletCalls
  import opened WalletClient
  import opened T = TransferStore

  // An id is None when its text is not a UUID.
  datatype CreateRequest = CreateRequest(from: Option<L.WalletId>, to: Option<L.WalletId>, amount: L.int64,
                                         currency: string, key: string, user: Option<UserId>)

  datatype CreateError =
    | Invalid
    | SameWallet
    | InvalidTransfer
    | CacheFailed
    | Store(error: StoreError)
    | Wallet(cause: ClientError)

  datatype CreateResult = CreateResult(transfer: Transfer, replay: bool)

  datatype Pc =
    | AskingCache
    | Loading(id: TransferId)
    | AskingRow
    | FillingReplay(found: Transfer)
    | Debiting
    | Crediting
    | Compensating(cause: ClientError)
    | Inserting
    | Filling
    | Finished(result: Result<CreateResult, CreateError>)

  // tr is the transfer once NewTransfer has made it; repaid is the compensation's outcome,
  // which the service discards.
  datatype Saga = Saga(req: CreateRequest, tr: Option<Transfer>, pc: Pc, repaid: Option<bool>)

  datatype Answer =
    | CacheSaid(cached: Result<Option<TransferId>, StoreError>)
    | Loaded(row: Result<Transfer, StoreError>)
    | RowSaid(found: Result<Option<Transfer>, StoreError>, freshId: TransferId)
    | CacheFilled
    | WalletSaid(err: Option<ClientError>)
    | Inserted(failure: Option<StoreError>)

  function Fail(s: Saga, e: CreateError): Saga {
    s.(pc := Finished(Err(e)))
  }

  function NewTransfer(from: L.WalletId, to: L.WalletId, amount: L.int64, currency: string, key: string,
                       user: UserId, id: TransferId): Result<Transfer, CreateError> {
    if from == to then Err(SameWallet)
    else if amount <= 0 then Err(InvalidTransfer)
    else if currency == "" || key == "" then Err(InvalidTransfer)
    else Ok(Transfer(id, from, to, amount, currency, Pending, user, key))
  }

  function Start(req: CreateRequest): Saga {
    var s := Saga(req, None, AskingCache, None);
    if req.key == "" then Fail(s, Invalid) else s
  }

  // Past both lookups: validate, and make the transfer that will be attempted.
  function Attempt(s: Saga, id: TransferId): Saga {
    if s.req.from.None? || s.req.to.None? || s.req.user.None? then Fail(s, Invalid)
    else
      var currency := if s.req.currency == "" then "RUB" else s.req.currency;
      var made := NewTransfer(s.req.from.value, s.req.to.value, s.req.amount, currency, s.req.key, s.req.user.value,
          id);
      if made.Err? then Fail(s, made.error)
      else s.(tr := Some(made.value), pc := Debiting)
  }

  function Complete(tr: Transfer): Transfer {
    tr.(status := Completed)
  }

  // How the saga goes on from an answer; an answer it did not ask for changes nothing.
  function On(s: Saga, a: Answer): Saga {
    match (s.pc, a)
    case (AskingCache, CacheSaid(Err(_))) => Fail(s, CacheFailed)
    case (AskingCache, CacheSaid(Ok(Some(id)))) => s.(pc := Loading(id))
    case (AskingCache, CacheSaid(Ok(None))) => s.(pc := AskingRow)
    case (Loading(_), Loaded(Err(e))) => Fail(s, Store(e))
    case (Loading(_), Loaded(Ok(tr))) => s.(pc := Finished(Ok(CreateResult(tr, true))))
    case (AskingRow, RowSaid(Err(e), _)) => Fail(s, Store(e))
    case (AskingRow, RowSaid(Ok(Some(tr)), _)) => s.(pc := FillingReplay(tr))
    case (AskingRow, RowSaid(Ok(None), id)) => Attempt(s, id)
    case (FillingReplay(tr), CacheFilled) => s.(pc := Finished(Ok(CreateResult(tr, true))))
    case (Debiting, WalletSaid(Some(e))) => Fail(s, Wallet(e))
    case (Debiting, WalletSaid(None)) => s.(pc := Crediting)
    case (Crediting, WalletSaid(Some(e))) => s.(pc := Compensating(e))
    case (Crediting, WalletSaid(None)) => s.(pc := Inserting)
    case (Compensating(e), WalletSaid(err)) => Fail(s, Wallet(e)).(repaid := Some(err.None?))
    case (Inserting, Inserted(Some(e))) => Fail(s, Store(e))
    case (Inserting, Inserted(None)) => s.(pc := Filling)
    case (Filling, CacheFilled) =>
      if s.tr.Some? then s.(pc := Finished(Ok(CreateResult(Complete(s.tr.value), false)))) else s
    case (_, _) => s
  }

  function Follow(s: Saga, answers: seq<Answer>): Saga {
    if answers == [] then s else On(Follow(s, answers[..|answers| - 1]), answers[|answers| - 1])
  }

  /******* What Create promises, said without the machine *******/

  // The transfer that was asked for, under its new id.
  function Requested(req: CreateRequest, id: TransferId): Transfer
    requires Flaw(req).None?
  {
    Transfer(id, req.from.value, req.to.value, req.amount, if req.currency == "" then "RUB" else req.currency,
             Pending, req.user.value, req.key)
  }

  // What is wrong with a request that has found no row.
  function Flaw(req: CreateRequest): Option<CreateError> {
    if req.from.None? || req.to.None? || req.user.None? then Some(Invalid)
    else if req.from == req.to then Some(SameWallet)
    else if req.amount <= 0 then Some(InvalidTransfer)
    else None
  }

  // The transfer is the one that the request describes.
  predicate AsRequested(req: CreateRequest, tr: Transfer) {
    && req.from == Some(tr.from) && req.to == Some(tr.to) && tr.from != tr.to
    && tr.amount == req.amount > 0
    && req.user == Some(tr.user)
    && tr.currency == (if req.currency == "" then "RUB" else req.currency)
    && tr.key == req.key
  }

  // A payment, answer by answer, and what Create returns: an error of the debit; the credit's
  // error, whatever became of the compensation; an error of the insert; or the transfer.
  ghost predicate PaidBy(tr: Transfer, said: seq<Answer>, r: Result<CreateResult, CreateError>) {
    && |said| >= 1 && said[0].WalletSaid?
    && if said[0].err.Some? then |said| == 1 && r == Err(Wallet(said[0].err.value)) else
    && |said| >= 2 && said[1].WalletSaid?
    && if said[1].err.Some? then |said| == 3 && said[2].WalletSaid? && r == Err(Wallet(said[1].err.value)) else
    && |said| >= 3 && said[2].Inserted?
    && if said[2].failure.Some? then |said| == 3 && r == Err(Store(said[2].failure.value)) else
    && |said| == 4 && said[3] == CacheFilled && r == Ok(CreateResult(tr.(status := Completed), false))
  }

  // A whole call: first the cache, then the row it names or the row under the key, then the payment.
  ghost predicate Conversation(req: CreateRequest, said: seq<Answer>, r: Result<CreateResult, CreateError>) {
    if req.key == "" then said == [] && r == Err(Invalid) else
    && |said| >= 1 && said[0].CacheSaid?
    && match said[0].cached
       case Err(_) => |said| == 1 && r == Err(CacheFailed)
       case Ok(Some(_)) =>
         && |said| == 2 && said[1].Loaded?
         && r == (if said[1].row.Err? then Err(Store(said[1].row.error)) else Ok(CreateResult(said[1].row.value, true)))
       case Ok(None) =>
         && |said| >= 2 && said[1].RowSaid?
         && match said[1].found
            case Err(e) => |said| == 2 && r == Err(Store(e))
            case Ok(Some(tr)) => |said| == 3 && said[2] == CacheFilled && r == Ok(CreateResult(tr, true))
            case Ok(None) =>
              if Flaw(req).Some? then |said| == 2 && r == Err(Flaw(req).value)
              else PaidBy(Requested(req, said[1].freshId), said[2..], r)
  }

  // Create's own checks find the flaw, and make the requested transfer if there is none.
  lemma NewTransferIsRequested(req: CreateRequest, id: TransferId)
    requires req.key != "" && req.from.Some? && req.to.Some? && req.user.Some?
    ensures NewTransfer(req.from.value, req.to.value, req.amount, if req.currency == "" then "RUB" else req.currency,
                        req.key, req.user.value, id)
         == if Flaw(req).Some? then Err(Flaw(req).value) else Ok(Requested(req, id))
    ensures Flaw(req).None? ==> AsRequested(req, Requested(req, id))
  {
  }

  lemma NoKeyIsAnswered(req: CreateRequest)
    requires req.key == ""
    ensures Start(req).pc == Finished(Err(Invalid)) && Conversation(req, [], Err(Invalid))
  {
  }

  lemma MissingIsFlaw(req: CreateRequest)
    requires req.from.None? || req.to.None? || req.user.None?
    ensures Flaw(req) == Some(Invalid)
    ensures Attempt(Start(req).(pc := AskingRow), "").pc == Finished(Err(Invalid))
  {
  }

  lemma AttemptIsMade(req: CreateRequest, id: TransferId)
    requires req.key != "" && req.from.Some? && req.to.Some? && req.user.Some? && Flaw(req).None?
    ensures var cur := Attempt(Start(req).(pc := AskingRow), id);
            cur.tr == Some(Requested(req, id)) && cur.pc == Debiting && Requested(req, id).key == req.key
  {
  }

  lemma CompletedAsRequested(req: CreateRequest, tr: Transfer)
    requires AsRequested(req, tr)
    ensures AsRequested(req, Complete(tr)) && Complete(tr).status == Completed && Complete(tr).key == req.key
  {
  }

  // A replay from the row is answered after the cache was filled, one from the cache is not.
  lemma ShortAnswer(req: CreateRequest, said: seq<Answer>, tr: Transfer)
    requires req.key != "" && Conversation(req, said, Ok(CreateResult(tr, true)))
    ensures said != [] && (said[|said| - 1] == CacheFilled ==> |said| == 3)
  {
  }

  // Past both lookups, an error of a store is the insert's.
  lemma LateErrorIsTheInsert(req: CreateRequest, id: TransferId, said: seq<Answer>, e: CreateError)
    requires req.key != "" && Conversation(req, said, Err(e)) && [CacheSaid(Ok(None)), RowSaid(Ok(None), id)] <= said
    ensures !e.CacheFailed? && (e.Store? ==> said[|said| - 1] == Inserted(Some(e.error)))
  {
    assert said[0] == CacheSaid(Ok(None)) && said[1] == RowSaid(Ok(None), id);
    hide Requested;
  }

  lemma CacheIsAnswered(req: CreateRequest, cached: Result<Option<TransferId>, StoreError>, row: Result<Transfer,
      StoreError>)
    requires req.key != ""
    ensures cached.Err? ==> Conversation(req, [CacheSaid(cached)], Err(CacheFailed))
    ensures cached.Ok? && cached.value.Some? ==>
              Conversation(req, [CacheSaid(cached)] + [Loaded(row)],
                           if row.Err? then Err(Store(row.error)) else Ok(CreateResult(row.value, true)))
  {
  }

  lemma RowIsAnswered(req: CreateRequest, found: Result<Option<Transfer>, StoreError>, id: TransferId)
    requires req.key != ""
    ensures found.Err? ==> Conversation(req, [CacheSaid(Ok(None))] + [RowSaid(found, id)], Err(Store(found.error)))
    ensures found.Ok? && found.value.Some? ==>
              Conversation(req, [CacheSaid(Ok(None))] + [RowSaid(found, id)] + [CacheFilled],
                           Ok(CreateResult(found.value.value, true)))
  {
  }

  lemma FlawIsAnswered(req: CreateRequest, id: TransferId, said: seq<Answer>)
    requires req.key != "" && said == [CacheSaid(Ok(None)), RowSaid(Ok(None), id)] && Flaw(req).Some?
    ensures Conversation(req, said, Err(Flaw(req).value))
  {
  }

  lemma PaymentIsAnswered(req: CreateRequest, id: TransferId, asked: seq<Answer>, said: seq<Answer>,
                          r: Result<CreateResult, CreateError>)
    requires req.key != "" && asked == [CacheSaid(Ok(None)), RowSaid(Ok(None), id)] && asked <= said && Flaw(req).None?
    requires PaidBy(Requested(req, id), said[|asked|..], r)
    ensures Conversation(req, said, r)
  {
    assert said[0] == asked[0] && said[1] == asked[1];
    hide PaidBy, Requested, Flaw;
  }

  lemma DebitAnswered(tr: Transfer, asked: seq<Answer>, e: ClientError)
    ensures PaidBy(tr, (asked + [WalletSaid(Some(e))])[|asked|..], Err(Wallet(e)))
  {
    assert (asked + [WalletSaid(Some(e))])[|asked|..] == [WalletSaid(Some(e))];
  }

  lemma CreditAnswered(tr: Transfer, asked: seq<Answer>, e: ClientError, repaid: Option<ClientError>)
    ensures PaidBy(tr, (asked + [WalletSaid(None)] + [WalletSaid(Some(e))] + [WalletSaid(repaid)])[|asked|..],
        Err(Wallet(e)))
  {
    var said := [WalletSaid(None)] + [WalletSaid(Some(e))] + [WalletSaid(repaid)];
    assert (asked + [WalletSaid(None)] + [WalletSaid(Some(e))] + [WalletSaid(repaid)])[|asked|..] == said;
  }

  lemma InsertAnswered(tr: Transfer, asked: seq<Answer>, r: Result<CreateResult, CreateError>)
    requires if r.Err? then r.error.Store? else r.value == CreateResult(Complete(tr), false)
    ensures var last := if r.Err? then [Inserted(Some(r.error.error))] else [Inserted(None), CacheFilled];
            PaidBy(tr, (asked + [WalletSaid(None)] + [WalletSaid(None)] + last)[|asked|..], r)
  {
    var last := if r.Err? then [Inserted(Some(r.error.error))] else [Inserted(None), CacheFilled];
    var said := [WalletSaid(None)] + [WalletSaid(None)] + last;
    assert (asked + [WalletSaid(None)] + [WalletSaid(None)] + last)[|asked|..] == said;
  }

  lemma OnePayment(s: Saga, said: seq<Answer>, r: Result<CreateResult, CreateError>)
    requires s.pc.Debiting? && s.tr.Some? && PaidBy(s.tr.value, said, r)
    ensures Follow(s, said).pc == Finished(r)
  {
    assert said[..1] == [said[0]] && [said[0]][..0] == [];
    assert Follow(s, said[..1]) == On(s, said[0]);
    if said[0].err.None? {
      assert said[..2][..1] == said[..1];
      assert Follow(s, said[..2]) == On(Follow(s, said[..1]), said[1]);
      assert said[..3][..2] == said[..2];
      assert Follow(s, said[..3]) == On(Follow(s, said[..2]), said[2]);
      assert |said| == 3 ==> said[..3] == said;
      assert |said| == 4 ==> said[..|said| - 1] == said[..3];
    } else {
      assert said == said[..1];
    }
  }

  lemma {:induction false} FollowJoins(s: Saga, a: seq<Answer>, b: seq<Answer>)
    ensures Follow(s, a + b) == Follow(Follow(s, a), b)
    decreases |b|
  {
    hide On;
    if b == [] {
      assert a + b == a;
    } else {
      FollowJoins(s, a, b[..|b| - 1]);
      assert (a + b)[..|a + b| - 1] == a + b[..|b| - 1];
    }
  }

  // The machine answers every conversation as it should.
  lemma MachineConverses(req: CreateRequest, said: seq<Answer>, r: Result<CreateResult, CreateError>)
    requires Conversation(req, said, r)
    ensures Follow(Start(req), said).pc == Finished(r)
  {
    var s := Start(req);
    if req.key != "" {
      assert said[..1] == [said[0]] && [said[0]][..0] == [];
      assert Follow(s, said[..1]) == On(s, said[0]);
      if said[0].cached.Ok? {
        assert said[..2][..1] == said[..1];
        var s2 := Follow(s, said[..2]);
        assert s2 == On(Follow(s, said[..1]), said[1]);
        assert said == said[..2] + said[2..];
        FollowJoins(s, said[..2], said[2..]);
        if s2.pc.Debiting? {
          OnePayment(s2, said[2..], r);
        } else if |said| == 3 {
          assert said[2..] == [CacheFilled] && [CacheFilled][..0] == [];
        }
      } else {
        assert said == said[..1];
      }
    }
  }

  // Whatever is answered, a call attempts no other transfer than the requested one.
  lemma {:induction false} AttemptIsAsRequested(req: CreateRequest, said: seq<Answer>)
    ensures var s := Follow(Start(req), said); s.req == req && (s.tr.Some? ==> AsRequested(req, s.tr.value))
    decreases |said|
  {
    if said != [] {
      AttemptIsAsRequested(req, said[..|said| - 1]);
    }
  }

  /******* The three wallet calls of an attempt *******/

  function LegRequest(tr: Transfer, leg: Leg): C.Request {
    match leg
    case DebitLeg => C.Request(Some(tr.from), tr.amount, Some(tr.id), LegKey(tr.id, DebitLeg), L.Debit)
    case CreditLeg => C.Request(Some(tr.to), tr.amount, Some(tr.id), LegKey(tr.id, CreditLeg), L.Credit)
    case CompensateLeg => C.Request(Some(tr.from), tr.amount, Some(tr.id), LegKey(tr.id, CompensateLeg), L.Credit)
  }

  // The leg a saga is waiting for, if any.
  function LegOf(pc: Pc): Option<Leg> {
    match pc
    case Debiting => Some(DebitLeg)
    case Crediting => Some(CreditLeg)
    case Compensating(_) => Some(CompensateLeg)
    case _ => None
  }

  // What the wallet's answer adds to the requests put on the wire: the awaited leg's,
  // unless the breaker answered in the wallet's place.
  function NewlySent(s: Saga, a: Answer): seq<C.Request> {
    if a.WalletSaid? && a.err != Some(CircuitOpen) && LegOf(s.pc).Some? && s.tr.Some?
    then [LegRequest(s.tr.value, LegOf(s.pc).value)] else []
  }

  function Sent(s: Saga, answers: seq<Answer>): seq<C.Request> {
    if answers == [] then []
    else Sent(s, answers[..|answers| - 1])
         + NewlySent(Follow(s, answers[..|answers| - 1]), answers[|answers| - 1])
  }

  // The wallet's answers among all answers.
  function Told(answers: seq<Answer>): seq<Option<ClientError>> {
    if answers == [] then []
    else
      var last := answers[|answers| - 1];
      Told(answers[..|answers| - 1]) + if last.WalletSaid? then [last.err] else []
  }

  // The wire after one leg: refused by the breaker, its request is not sent.
  function After(wire: Wire, tr: Transfer, leg: Leg, err: Option<ClientError>): Wire {
    Wire(wire.sent + (if err == Some(CircuitOpen) then [] else [LegRequest(tr, leg)]), wire.told + [err])
  }

  lemma Followed(s: Saga, answers: seq<Answer>, a: Answer)
    ensures Follow(s, answers + [a]) == On(Follow(s, answers), a)
    ensures Sent(s, answers + [a]) == Sent(s, answers) + NewlySent(Follow(s, answers), a)
    ensures Told(answers + [a]) == Told(answers) + if a.WalletSaid? then [a.err] else []
  {
  }

  lemma RowIsFound(rows: seq<Transfer>, tr: Transfer)
    requires DistinctRows(rows) && tr in rows
    ensures ById(rows, tr.id) == Some(tr) && ByKey(rows, tr.key) == Some(tr)
  {
  }

  /** The transfer service. Between any two of its accesses, everybody else may run. */
  class Service {
    const tables: Tables
    const cache: Cache
    const wallet: Client

    constructor (tables: Tables, cache: Cache, wallet: Client)
      ensures this.tables == tables && this.cache == cache && this.wallet == wallet
    {
      this.tables, this.cache, this.wallet := tables, cache, wallet;
    }

    ghost predicate Sane()
      reads this, tables, cache, wallet, wallet.circuit, wallet.service, wallet.service.repo
    {
      && Consistent(tables.Contents())
      && Truthful(cache.entries, tables.rows)
      && wallet.circuit.Valid()
      && W.Sound(wallet.service.repo.Contents())
    }

    method Wait()
      requires Sane()
      modifies tables, cache, wallet.circuit, wallet.service.repo
      ensures Sane()
      ensures Grows(old(tables.Contents()), tables.Contents())
      ensures W.Evolves(old(wallet.service.repo.Contents()), wallet.service.repo.Contents())
    {
      tables.Interfere();
      TruthfulIsStable(cache.entries, old(tables.rows), tables.rows);
      cache.Interfere(tables);
      wallet.service.repo.Interfere();
      wallet.circuit.Interfere();
    }

    method CallDebit(tr: Transfer, ghost owner: nat) returns (err: Option<ClientError>)
      requires wallet.circuit.Valid() && W.Sound(wallet.service.repo.Contents())
      modifies wallet`wire, wallet.circuit, wallet.service.repo
      ensures wallet.circuit.Valid()
      ensures W.Evolves(old(wallet.service.repo.Contents()), wallet.service.repo.Contents())
      ensures wallet.wire == After(old(wallet.wire), tr, DebitLeg, err)
      ensures err.None? ==> W.HasKey(wallet.service.repo.ledger, LegKey(tr.id, DebitLeg))
    {
      hide W.Sound, W.HasKey, C.Service.Answered, C.Service.Smooth;
      ghost var o, now, later, before, h;
      err, o, now, later, before, h := wallet.Debit(Some(tr.from), tr.amount, tr.id, LegKey(tr.id, DebitLeg), owner);
    }

    // A credit of the receiver, or of the sender to undo the debit.
    method CallCredit(leg: Leg, to: L.WalletId, tr: Transfer, ghost owner: nat) returns (err: Option<ClientError>)
      requires (leg == CreditLeg && to == tr.to) || (leg == CompensateLeg && to == tr.from)
      requires wallet.circuit.Valid() && W.Sound(wallet.service.repo.Contents())
      modifies wallet`wire, wallet.circuit, wallet.service.repo
      ensures wallet.circuit.Valid()
      ensures W.Evolves(old(wallet.service.repo.Contents()), wallet.service.repo.Contents())
      ensures wallet.wire == After(old(wallet.wire), tr, leg, err)
      ensures err.None? ==> W.HasKey(wallet.service.repo.ledger, LegKey(tr.id, leg))
    {
      hide W.Sound, W.HasKey, C.Service.Answered, C.Service.Smooth;
      ghost var o, now, later, before, h;
      err, o, now, later, before, h := wallet.Credit(Some(to), tr.amount, tr.id, LegKey(tr.id, leg), owner);
    }

    // The machine stands at cur, and since base the requests on the wire are those it has sent,
    // and the wallet's answers those it has heard.
    ghost predicate Stands(base: Wire, s: Saga, answers: seq<Answer>, cur: Saga)
      reads wallet
    {
      Follow(s, answers) == cur && wallet.wire == Wire(base.sent + Sent(s, answers), base.told + Told(answers))
    }

    method CallLeg(leg: Leg, tr: Transfer, ghost owner: nat) returns (err: Option<ClientError>)
      requires Sane()
      modifies tables, cache, wallet`wire, wallet.circuit, wallet.service.repo
      ensures Sane() && Grows(old(tables.Contents()), tables.Contents())
      ensures W.Evolves(old(wallet.service.repo.Contents()), wallet.service.repo.Contents())
      ensures wallet.wire == After(old(wallet.wire), tr, leg, err)
      ensures err.None? ==> W.HasKey(wallet.service.repo.ledger, LegKey(tr.id, leg))
    {
      Wait();
      if leg == DebitLeg {
        err := CallDebit(tr, owner);
      } else {
        err := CallCredit(leg, if leg == CreditLeg then tr.to else tr.from, tr, owner);
      }
    }

    // One leg, with the request the machine says, and the answer recorded.
    method AskWallet(leg: Leg, tr: Transfer, ghost owner: nat, ghost base: Wire, ghost s: Saga,
                     ghost answers: seq<Answer>, ghost cur: Saga)
      returns (err: Option<ClientError>, ghost answers': seq<Answer>)
      requires Sane() && Stands(base, s, answers, cur)
      requires cur.tr == Some(tr) && LegOf(cur.pc) == Some(leg)
      modifies tables, cache, wallet`wire, wallet.circuit, wallet.service.repo
      ensures Sane() && Stands(base, s, answers', On(cur, WalletSaid(err)))
      ensures answers' == answers + [WalletSaid(err)]
      ensures Grows(old(tables.Contents()), tables.Contents())
      ensures W.Evolves(old(wallet.service.repo.Contents()), wallet.service.repo.Contents())
      ensures err.None? ==> W.HasKey(wallet.service.repo.ledger, LegKey(tr.id, leg))
    {
      hide W.Sound, W.HasKey, On, LegRequest, Told, Sent, Follow, Truthful, Consistent;
      err := CallLeg(leg, tr, owner);
      answers' := answers + [WalletSaid(err)];
      Followed(s, answers, WalletSaid(err));
    }

    ghost predicate Stored(tr: Transfer)
      reads this, tables
    {
      tr in tables.rows
    }

    ghost predicate Moved(tr: Transfer)
      reads this, wallet, wallet.service, wallet.service.repo
    {
      && W.HasKey(wallet.service.repo.ledger, LegKey(tr.id, DebitLeg))
      && W.HasKey(wallet.service.repo.ledger, LegKey(tr.id, CreditLeg))
    }

    // The outbox has an event that tells of this transfer.
    ghost predicate Announced(tr: Transfer)
      reads this, tables
    {
      exists i :: 0 <= i < |tables.outbox| && Announces(tables.outbox[i].event, tr)
    }

    ghost predicate Cached(tr: Transfer)
      reads this, cache
    {
      tr.key in cache.entries && cache.entries[tr.key] == tr.id
    }

    lemma StoredIsAnnounced(tr: Transfer)
      requires Sane() && Stored(tr)
      ensures Announced(tr)
    {
      var i :| 0 <= i < |tables.rows| && tables.rows[i] == tr;
      assert Paired(tables.rows[i], tables.outbox[i]);
      assert Announces(tables.outbox[i].event, tr);
    }

    // A row that was there is still the one under its key.
    lemma FoundIsStored(was: seq<Transfer>, tr: Transfer)
      requires Sane() && Stored(tr) && was <= tables.rows && ByKey(was, tr.key).Some?
      ensures ByKey(was, tr.key) == Some(tr)
    {
      RowIsFound(tables.rows, tr);
      ByKeyIsStable(was, tables.rows, tr.key);
    }

    lemma StoredUnderItsKey(tr: Transfer)
      requires Sane() && Stored(tr)
      ensures ByKey(tables.rows, tr.key) == Some(tr) && ById(tables.rows, tr.id) == Some(tr)
    {
    }

    method FillCache(tr: Transfer)
      requires Sane() && Stored(tr)
      modifies tables, cache, wallet.circuit, wallet.service.repo
      ensures Sane() && Stored(tr) && old(tables.rows) <= tables.rows
      ensures cache.healthy ==> Cached(tr)
      ensures W.Evolves(old(wallet.service.repo.Contents()), wallet.service.repo.Contents())
    {
      hide W.Sound, W.Evolves, Consistent;
      Wait();
      assert tables.rows[..|old(tables.rows)|] == old(tables.rows);
      StoredUnderItsKey(tr);
      cache.Set(tr.key, tr.id);
    }

    method InsertRow(tr: Transfer) returns (err: Option<StoreError>, ghost eventId: EventId)
      requires Sane()
      modifies tables, cache, wallet.circuit, wallet.service.repo
      ensures Sane() && Grows(old(tables.Contents()), tables.Contents())
      ensures W.Evolves(old(wallet.service.repo.Contents()), wallet.service.repo.Contents())
      ensures err.None? ==> Stored(Complete(tr)) && Announced(Complete(tr))
      ensures tables.healthy && err == Some(Duplicate) ==>
                exists i :: 0 <= i < |tables.rows| && (tables.rows[i].id == tr.id || tables.rows[i].key == tr.key)
      ensures tables.healthy && tr.amount > 0 && err.Some? ==>
                err == Some(Duplicate) || HasEvent(tables.outbox, eventId)
    {
      Wait();
      var id: EventId, at: nat := *, *;
      eventId := id;
      ghost var before := tables.Contents();
      ghost var fault;
      err, fault := tables.InsertCompletedWithOutbox(Complete(tr), CompletedEvent(Complete(tr), id, at));
      InsertGrows(before, Complete(tr), CompletedEvent(Complete(tr), id, at), fault);
      InsertOutcomes(before, Complete(tr), CompletedEvent(Complete(tr), id, at), fault);
      TruthfulIsStable(cache.entries, before.rows, tables.rows);
      if err.None? {
        StoredIsAnnounced(Complete(tr));
      }
    }

    // The saga proper: debit, credit or compensate, then the row with its event, then the cache.
    method Pay(tr: Transfer, ghost owner: nat, ghost base: Wire, ghost s: Saga, ghost answers: seq<Answer>,
        ghost cur: Saga)
      returns (r: Result<CreateResult, CreateError>, ghost answers': seq<Answer>, ghost end: Saga)
      requires Sane() && Stands(base, s, answers, cur)
      requires cur.tr == Some(tr) && cur.pc == Debiting
      modifies tables, cache, wallet`wire, wallet.circuit, wallet.service.repo
      ensures Sane() && Stands(base, s, answers', end) && end.pc == Finished(r)
      ensures r.Ok? ==> r.value == CreateResult(Complete(tr), false) && Stored(Complete(tr)) && Moved(tr)
      ensures r.Ok? && cache.healthy ==> Cached(Complete(tr))
      ensures answers <= answers' && PaidBy(tr, answers'[|answers|..], r)
    {
      hide W.Sound, W.HasKey, Sane, Stands, Stored, Grows, PaidBy, Cached, LegRequest, Truthful, Consistent, Follow,
          Sent, Told;
      var err: Option<ClientError>;
      err, answers' := AskWallet(DebitLeg, tr, owner, base, s, answers, cur);
      end := On(cur, WalletSaid(err));
      if err.Some? {
        DebitAnswered(tr, answers, err.value);
        return Err(Wallet(err.value)), answers', end;
      }
      ghost var ledger := wallet.service.repo.ledger;
      err, answers' := AskWallet(CreditLeg, tr, owner, base, s, answers', end);
      end := On(end, WalletSaid(err));
      if err.Some? {
        var cause := err.value;
        err, answers' := AskWallet(CompensateLeg, tr, owner, base, s, answers', end);
        end := On(end, WalletSaid(err));
        CreditAnswered(tr, answers, cause, err);
        return Err(Wallet(cause)), answers', end;
      }
      W.HasKeyIsStable(ledger, wallet.service.repo.ledger, LegKey(tr.id, DebitLeg));
      r, answers', end := Settle(tr, base, s, answers', end);
      InsertAnswered(tr, answers, r);
    }

    method Settle(tr: Transfer, ghost base: Wire, ghost s: Saga, ghost answers: seq<Answer>, ghost cur: Saga)
      returns (r: Result<CreateResult, CreateError>, ghost answers': seq<Answer>, ghost end: Saga)
      requires Sane() && Stands(base, s, answers, cur) && Moved(tr)
      requires cur.tr == Some(tr) && cur.pc == Inserting
      modifies tables, cache, wallet.circuit, wallet.service.repo
      ensures Sane() && Stands(base, s, answers', end) && end.pc == Finished(r)
      ensures r.Ok? ==> r.value == CreateResult(Complete(tr), false) && Stored(Complete(tr)) && Moved(tr)
      ensures r.Ok? && cache.healthy ==> Cached(Complete(tr))
      ensures r.Err? ==> r.error.Store?
      ensures answers' == answers + if r.Err? then [Inserted(Some(r.error.error))] else [Inserted(None), CacheFilled]
    {
      hide Sane, Stands, Stored, W.HasKey, W.Sound, W.Evolves, Follow, Sent, Told, LegRequest, Truthful, Consistent;
      var failure: Option<StoreError>;
      failure, answers' := AskInsert(tr, base, s, answers, cur);
      end := On(cur, Inserted(failure));
      if failure.Some? {
        return Err(Store(failure.value)), answers', end;
      }
      answers' := AskFill(Complete(tr), base, s, answers', end);
      end := On(end, CacheFilled);
      r := Ok(CreateResult(Complete(tr), false));
    }

    method AskInsert(tr: Transfer, ghost base: Wire, ghost s: Saga, ghost answers: seq<Answer>,
        ghost cur: Saga)
      returns (failure: Option<StoreError>, ghost answers': seq<Answer>)
      requires Sane() && Stands(base, s, answers, cur) && Moved(tr)
      modifies tables, cache, wallet.circuit, wallet.service.repo
      ensures Sane() && Stands(base, s, answers', On(cur, Inserted(failure))) && Moved(tr)
      ensures answers' == answers + [Inserted(failure)]
      ensures failure.None? ==> Stored(Complete(tr))
    {
      hide W.Sound, W.HasKey, On, LegRequest, Told, Sent, Follow, Truthful, Consistent;
      ghost var eventId;
      failure, eventId := InsertRow(tr);
      MovedIsStable(tr, old(wallet.service.repo.ledger));
      answers' := answers + [Inserted(failure)];
      Followed(s, answers, Inserted(failure));
    }

    method AskFill(tr: Transfer, ghost base: Wire, ghost s: Saga, ghost answers: seq<Answer>, ghost cur: Saga)
      returns (ghost answers': seq<Answer>)
      requires Sane() && Stands(base, s, answers, cur) && Stored(tr)
      modifies tables, cache, wallet.circuit, wallet.service.repo
      ensures Sane() && Stands(base, s, answers', On(cur, CacheFilled)) && Stored(tr)
      ensures old(tables.rows) <= tables.rows
      ensures answers' == answers + [CacheFilled]
      ensures old(Moved(tr)) ==> Moved(tr)
      ensures cache.healthy ==> Cached(tr)
    {
      hide W.Sound, On, LegRequest, Told, Sent, Follow, Truthful, Consistent;
      FillCache(tr);
      if old(Moved(tr)) {
        MovedIsStable(tr, old(wallet.service.repo.ledger));
      }
      answers' := answers + [CacheFilled];
      Followed(s, answers, CacheFilled);
    }

    lemma MovedIsStable(tr: Transfer, ledger: seq<L.Entry>)
      requires ledger <= wallet.service.repo.ledger
      requires W.HasKey(ledger, LegKey(tr.id, DebitLeg)) && W.HasKey(ledger, LegKey(tr.id, CreditLeg))
      ensures Moved(tr)
    {
    }

    lemma MovedWhenCompleted(tr: Transfer)
      requires Moved(tr)
      ensures Moved(Complete(tr))
    {
    }

    method AskCache(key: string, ghost base: Wire, ghost s: Saga)
      returns (cached: Result<Option<TransferId>, StoreError>)
      requires Sane() && wallet.wire == base
      modifies tables, cache, wallet.circuit, wallet.service.repo
      ensures Sane() && Stands(base, s, [CacheSaid(cached)], On(s, CacheSaid(cached)))
      ensures old(tables.rows) <= tables.rows
      ensures cached.Ok? && cached.value.Some? ==>
                ById(tables.rows, cached.value.value).Some? && ById(tables.rows, cached.value.value).value.key == key
      ensures cache.healthy ==> cached.Ok?
    {
      hide W.Sound, W.Evolves, On, LegRequest, Consistent, ById;
      Wait();
      cached := cache.Get(key);
      assert [] + [CacheSaid(cached)] == [CacheSaid(cached)];
      assert Told([]) == [] && Sent(s, []) == [] && Follow(s, []) == s;
      hide Told, Sent, Follow;
      Followed(s, [], CacheSaid(cached));
    }

    method AskLoad(id: TransferId, key: string, ghost base: Wire, ghost s: Saga, ghost answers: seq<Answer>,
        ghost cur: Saga)
      returns (row: Result<Transfer, StoreError>, ghost answers': seq<Answer>)
      requires Sane() && Stands(base, s, answers, cur)
      requires ById(tables.rows, id).Some? && ById(tables.rows, id).value.key == key
      modifies tables, cache, wallet.circuit, wallet.service.repo
      ensures Sane() && Stands(base, s, answers', On(cur, Loaded(row)))
      ensures answers' == answers + [Loaded(row)]
      ensures row.Ok? ==> row.value.key == key && Stored(row.value)
      ensures tables.healthy ==> row.Ok?
      ensures old(tables.rows) <= tables.rows
    {
      hide W.Sound, W.Evolves, On, LegRequest, Consistent, ById, Told, Sent, Follow, Truthful;
      Wait();
      ByIdIsStable(old(tables.rows), tables.rows, id);
      row := tables.GetByID(id);
      answers' := answers + [Loaded(row)];
      Followed(s, answers, Loaded(row));
    }

    method AskRow(key: string, freshId: TransferId, ghost base: Wire, ghost s: Saga,
        ghost answers: seq<Answer>, ghost cur: Saga)
      returns (found: Result<Option<Transfer>, StoreError>, ghost answers': seq<Answer>)
      requires Sane() && Stands(base, s, answers, cur)
      modifies tables, cache, wallet.circuit, wallet.service.repo
      ensures Sane() && Stands(base, s, answers', On(cur, RowSaid(found, freshId)))
      ensures answers' == answers + [RowSaid(found, freshId)]
      ensures found.Ok? && found.value.Some? ==> found.value.value.key == key && Stored(found.value.value)
      ensures found.Ok? && found.value.None? ==> ByKey(old(tables.rows), key).None?
      ensures tables.healthy ==> found.Ok?
      ensures old(tables.rows) <= tables.rows
    {
      hide W.Sound, W.Evolves, On, LegRequest, Consistent, ByKey, Told, Sent, Follow, Truthful;
      Wait();
      if ByKey(old(tables.rows), key).Some? {
        ByKeyIsStable(old(tables.rows), tables.rows, key);
      }
      found := tables.GetByIdempotencyKey(key);
      answers' := answers + [RowSaid(found, freshId)];
      Followed(s, answers, RowSaid(found, freshId));
    }

    // A finished transfer under the key, from the cache or from its row; None if there is none.
    method FindFinished(req: CreateRequest, freshId: TransferId, ghost base: Wire)
      returns (r: Result<Option<Transfer>, CreateError>, ghost answers: seq<Answer>, ghost end: Saga)
      requires Sane() && req.key != "" && wallet.wire == base
      modifies tables, cache, wallet.circuit, wallet.service.repo
      ensures Sane() && Stands(base, Start(req), answers, end)
      ensures r.Err? ==> end.pc == Finished(Err(r.error))
      ensures r.Ok? && r.value.Some? ==>
                end.pc == Finished(Ok(CreateResult(r.value.value, true))) && Stored(r.value.value)
                    && r.value.value.key == req.key
      ensures r.Ok? && r.value.None? ==> end == Attempt(Start(req).(pc := AskingRow), freshId)
      ensures r.Ok? && r.value.None? ==> ByKey(old(tables.rows), req.key).None?
      ensures r.Ok? && r.value.None? ==> answers == [CacheSaid(Ok(None)), RowSaid(Ok(None), freshId)]
      ensures r.Err? ==> Conversation(req, answers, Err(r.error))
      ensures r.Ok? && r.value.Some? ==> Conversation(req, answers, Ok(CreateResult(r.value.value, true)))
      ensures r.Ok? && r.value.Some? && cache.healthy && |answers| == 3 ==> Cached(r.value.value)
      ensures cache.healthy && tables.healthy ==> r.Ok?
      ensures r.Ok? && ByKey(old(tables.rows), req.key).Some? ==> r.value == ByKey(old(tables.rows), req.key)
    {
      hide Sane, Stands, Stored, ById, ByKey, Follow, Sent, Told, Conversation, Cached, W.Sound, W.Evolves, Truthful,
          Consistent, LegRequest;
      ghost var s := Start(req);
      var cached := AskCache(req.key, base, s);
      if ByKey(old(tables.rows), req.key).Some? {
        ByKeyIsStable(old(tables.rows), tables.rows, req.key);
      }
      answers, end := [CacheSaid(cached)], On(s, CacheSaid(cached));
      if cached.Err? {
        CacheIsAnswered(req, cached, Err(StoreDown));
        return Err(CacheFailed), answers, end;
      }
      if cached.value.Some? {
        var row: Result<Transfer, StoreError>;
        row, answers := AskLoad(cached.value.value, req.key, base, s, answers, end);
        end := On(end, Loaded(row));
        CacheIsAnswered(req, cached, row);
        if row.Err? {
          return Err(Store(row.error)), answers, end;
        }
        if ByKey(old(tables.rows), req.key).Some? {
          FoundIsStored(old(tables.rows), row.value);
        }
        return Ok(Some(row.value)), answers, end;
      }
      var found: Result<Option<Transfer>, StoreError>;
      found, answers := AskRow(req.key, freshId, base, s, answers, end);
      end := On(end, RowSaid(found, freshId));
      RowIsAnswered(req, found, freshId);
      if found.Err? {
        return Err(Store(found.error)), answers, end;
      }
      if found.value.Some? {
        answers := AskFill(found.value.value, base, s, answers, end);
        end := On(end, CacheFilled);
        if ByKey(old(tables.rows), req.key).Some? {
          FoundIsStored(old(tables.rows), found.value.value);
        }
      }
      r := Ok(found.value);
    }

    // Past both lookups: validate the request, make its transfer and pay it.
    method Undertake(req: CreateRequest, id: TransferId, ghost owner: nat, ghost base: Wire, ghost asked: seq<Answer>,
        ghost cur: Saga)
      returns (r: Result<CreateResult, CreateError>, ghost answers: seq<Answer>, ghost end: Saga)
      requires Sane() && Stands(base, Start(req), asked, cur) && req.key != ""
      requires cur == Attempt(Start(req).(pc := AskingRow), id)
      requires asked == [CacheSaid(Ok(None)), RowSaid(Ok(None), id)]
      modifies tables, cache, wallet`wire, wallet.circuit, wallet.service.repo
      ensures Sane() && Stands(base, Start(req), answers, end) && end.pc == Finished(r)
      ensures asked <= answers && Conversation(req, answers, r)
      ensures r.Ok? ==> AsRequested(req, r.value.transfer) && r.value.transfer.status == Completed && !r.value.replay
                        && Stored(r.value.transfer) && Moved(r.value.transfer)
      ensures r.Ok? && cache.healthy ==> Cached(r.value.transfer)
    {
      hide Sane, Stands, Moved, Stored, On, Conversation, PaidBy, Requested, Flaw, NewTransfer, AsRequested, Cached,
          LegRequest, W.Sound, W.Evolves;
      answers, end := asked, cur;
      if req.from.None? || req.to.None? || req.user.None? {
        MissingIsFlaw(req);
        FlawIsAnswered(req, id, answers);
        return Err(Invalid), answers, end;
      }
      var currency := if req.currency == "" then "RUB" else req.currency;
      var made := NewTransfer(req.from.value, req.to.value, req.amount, currency, req.key, req.user.value, id);
      NewTransferIsRequested(req, id);
      if made.Err? {
        FlawIsAnswered(req, id, answers);
        return Err(made.error), answers, end;
      }
      AttemptIsMade(req, id);
      r, answers, end := Pay(made.value, owner, base, Start(req), answers, end);
      PaymentIsAnswered(req, id, asked, answers, r);
      CompletedAsRequested(req, made.value);
      if r.Ok? {
        MovedWhenCompleted(made.value);
      }
    }

    // Every run of Create follows the machine, answer by answer, and puts on the wire exactly
    // the requests the machine sends; a success names the transfer stored under the key, and
    // a new one has both its legs in the wallet's ledger. Nothing is put on the wire if there was
    // a row under the key when the call began.
    method Create(req: CreateRequest, ghost owner: nat)
      returns (r: Result<CreateResult, CreateError>, ghost answers: seq<Answer>, ghost end: Saga)
      requires Sane()
      modifies tables, cache, wallet`wire, wallet.circuit, wallet.service.repo
      ensures Sane()
      ensures Stands(old(wallet.wire), Start(req), answers, end) && end.pc == Finished(r)
      ensures r.Ok? ==> ByKey(tables.rows, req.key) == Some(r.value.transfer)
      ensures r.Ok? && !r.value.replay ==> Moved(r.value.transfer)
      ensures ByKey(old(tables.rows), req.key).Some? ==> wallet.wire == old(wallet.wire) && (r.Ok? ==> r.value.replay)
      ensures Conversation(req, answers, r)
      ensures req.key != "" && cache.healthy && tables.healthy && ByKey(old(tables.rows), req.key).Some? ==>
                r == Ok(CreateResult(ByKey(old(tables.rows), req.key).value, true))
      ensures cache.healthy && tables.healthy && r.Err? ==>
                !r.error.CacheFailed? && (r.error.Store? ==> answers[|answers| - 1] == Inserted(Some(r.error.error)))
      ensures r.Ok? ==> Announced(r.value.transfer)
      ensures r.Ok? && !r.value.replay ==> AsRequested(req, r.value.transfer) && r.value.transfer.status == Completed
      ensures r.Ok? && cache.healthy && answers[|answers| - 1] == CacheFilled ==> Cached(r.value.transfer)
    {
      hide On, ByKey, Conversation, PaidBy, AsRequested, Announced, Cached, LegRequest, W.Sound, W.Evolves;
      answers, end := [], Start(req);
      assert Stands(wallet.wire, Start(req), answers, end);
      hide Stands, Sane, Moved, Stored, Attempt, Start;
      if req.key == "" {
        NoKeyIsAnswered(req);
        return Err(Invalid), answers, end;
      }
      ghost var base := wallet.wire;
      var id: TransferId := *;
      var found: Result<Option<Transfer>, CreateError>;
      found, answers, end := FindFinished(req, id, base);
      if found.Err? {
        return Err(found.error), answers, end;
      }
      if found.value.Some? {
        StoredUnderItsKey(found.value.value);
        StoredIsAnnounced(found.value.value);
        ShortAnswer(req, answers, found.value.value);
        return Ok(CreateResult(found.value.value, true)), answers, end;
      }
      r, answers, end := Undertake(req, id, owner, base, answers, end);
      if r.Ok? {
        KeyIsRequested(req, r.value.transfer);
        StoredUnderItsKey(r.value.transfer);
        StoredIsAnnounced(r.value.transfer);
      } else {
        LateErrorIsTheInsert(req, id, answers, r.error);
      }
    }
  }

  lemma KeyIsRequested(req: CreateRequest, tr: Transfer)
    requires AsRequested(req, tr)
    ensures tr.key == req.key
  {
  }

  /******* What every sequence of answers leads to *******/

  // The requests on the wire are the legs of one transfer, in order, each at most once: a credit
  // only after a successful debit, a compensation only after a failed credit.
  ghost predicate WellSent(s: Saga, sent: seq<C.Request>) {
    match s.pc
    case AskingCache => s.tr.None? && sent == [] && s.repaid.None?
    case Loading(_) => s.tr.None? && sent == [] && s.repaid.None?
    case AskingRow => s.tr.None? && sent == [] && s.repaid.None?
    case FillingReplay(_) => s.tr.None? && sent == [] && s.repaid.None?
    case Debiting => s.tr.Some? && sent == [] && s.repaid.None?
    case Crediting => s.tr.Some? && s.repaid.None? && sent == [LegRequest(s.tr.value, DebitLeg)]
    case Compensating(e) => s.tr.Some?
        && sent == [LegRequest(s.tr.value, DebitLeg)] + Unless(e == CircuitOpen, s.tr.value, CreditLeg)
    case Inserting => s.tr.Some? && s.repaid.None?
        && sent == [LegRequest(s.tr.value, DebitLeg), LegRequest(s.tr.value, CreditLeg)]
    case Filling => s.tr.Some? && sent == [LegRequest(s.tr.value, DebitLeg), LegRequest(s.tr.value, CreditLeg)]
    case Finished(Ok(result)) =>
      if result.replay then s.tr.None? && sent == []
      else s.tr.Some? && sent == [LegRequest(s.tr.value, DebitLeg), LegRequest(s.tr.value, CreditLeg)]
    case Finished(Err(_)) =>
      if s.tr.None? then sent == [] else
      var d, c, k := LegRequest(s.tr.value, DebitLeg), LegRequest(s.tr.value, CreditLeg),
          LegRequest(s.tr.value, CompensateLeg);
      && (sent == [] || sent == [d] || sent == [d, c] || sent == [d, k] || sent == [d, c, k])
      && (s.repaid == Some(true) ==> sent == [d, k] || sent == [d, c, k])
      && (s.repaid.None? ==> sent == [] || sent == [d] || sent == [d, c])
  }

  function Unless(refused: bool, tr: Transfer, leg: Leg): seq<C.Request> {
    if refused then [] else [LegRequest(tr, leg)]
  }

  lemma OneAnswerKeepsWellSent(s: Saga, a: Answer, sent: seq<C.Request>)
    requires WellSent(s, sent)
    ensures WellSent(On(s, a), sent + NewlySent(s, a))
  {
  }

  lemma {:induction false} SentIsWellSent(req: CreateRequest, answers: seq<Answer>)
    ensures WellSent(Follow(Start(req), answers), Sent(Start(req), answers))
    decreases |answers|
  {
    if answers != [] {
      SentIsWellSent(req, answers[..|answers| - 1]);
      OneAnswerKeepsWellSent(Follow(Start(req), answers[..|answers| - 1]), answers[|answers| - 1],
                             Sent(Start(req), answers[..|answers| - 1]));
    }
  }
}
