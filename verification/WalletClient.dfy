/**
  The transfer service's view of the wallet: one remote call per leg, behind the circuit
  breaker. Either direction of the call may be lost.
 */
module WalletClient {
  import opened Wrappers
  import opened Keys
  import L = Ledger
  import WalletStore
  import WalletCalls
  import B = Breaker

  datatype Code =
    | Canceled | Unknown | InvalidArgument | DeadlineExceeded | NotFound | AlreadyExists
    | FailedPrecondition | Aborted | Internal | Unavailable

  // What the remote call returned: a reply, a status, or an error that is not a status.
  datatype Outcome = Replied | Status(code: Code) | NoStatus

  datatype ClientError = CircuitOpen | InsufficientFunds | NoSuchWallet | BadRequest | Other(outcome: Outcome)

  // How the wallet server reports its service's errors.
  function ServerCode(e: L.Error): Code {
    match e
    case InsufficientFunds => FailedPrecondition
    case InvalidAmount => InvalidArgument
    case InvalidArgument => InvalidArgument
    case NotFound => NotFound
    case AlreadyExists => AlreadyExists
    case VersionConflict => Aborted
    case RetriesExhausted => Aborted
    case Rejected => Internal
    case Unavailable => Internal
  }

  function Reply(r: Result<WalletCalls.MutateResult, L.Error>): Outcome {
    match r
    case Ok(_) => Replied
    case Err(e) => Status(ServerCode(e))
  }

  // Only failures of the transport count against the breaker.
  predicate Trips(o: Outcome) {
    o.Status? && (o.code == Unavailable || o.code == DeadlineExceeded)
  }

  function MapErr(o: Outcome): Option<ClientError> {
    match o
    case Replied => None
    case NoStatus => Some(Other(o))
    case Status(FailedPrecondition) => Some(InsufficientFunds)
    case Status(NotFound) => Some(NoSuchWallet)
    case Status(InvalidArgument) => Some(BadRequest)
    case Status(_) => Some(Other(o))
  }

  // What one finished call adds to the breaker's trace.
  function Signals(o: Outcome, owner: nat, now: nat): seq<B.Signal> {
    if o.Replied? then [B.Succeeded(owner)]
    else if Trips(o) then [B.Failed(owner, now)]
    else []
  }

  // A wallet that answers is never held against the breaker, whatever it answers.
  lemma AnswersNeverTrip(r: Result<WalletCalls.MutateResult, L.Error>)
    ensures !Trips(Reply(r))
    ensures MapErr(Reply(r)).None? <==> r.Ok?
  {
  }

  // What becomes of each error of the wallet service on its way to Create's caller.
  lemma WhatTheCallerSees(e: L.Error)
    ensures var seen := MapErr(Reply(Err(e)));
            && (seen == Some(InsufficientFunds) <==> e == L.InsufficientFunds)
            && (seen == Some(NoSuchWallet) <==> e == L.NotFound)
            && (seen == Some(BadRequest) <==> e == L.InvalidAmount || e == L.InvalidArgument)
            && (seen == Some(Other(Status(Code.AlreadyExists))) <==> e == L.AlreadyExists)
            && (seen == Some(Other(Status(Aborted))) <==> e == L.VersionConflict || e == L.RetriesExhausted)
            && (seen == Some(Other(Status(Internal))) <==> e == L.Rejected || e == L.Unavailable)
  {
  }

  // Only these two outcomes say that the wallet may be out of reach.
  predicate Unreachable(o: Outcome) {
    o == Status(Code.Unavailable) || o == Status(DeadlineExceeded)
  }

  // A finished call adds to the trace: a success if and only if it was replied to, a failure
  // if and only if the wallet was out of reach, and nothing otherwise.
  lemma WhatTheBreakerHears(o: Outcome, owner: nat, now: nat)
    ensures o.Replied? <==> Signals(o, owner, now) == [B.Succeeded(owner)]
    ensures Unreachable(o) <==> Signals(o, owner, now) == [B.Failed(owner, now)]
    ensures !o.Replied? && !Unreachable(o) <==> Signals(o, owner, now) == []
  {
  }

  // Every request put on the wire, and every answer given to a caller, a refusal included.
  datatype Wire = Wire(sent: seq<WalletCalls.Request>, told: seq<Option<ClientError>>)

  class Client {
    const service: WalletCalls.Service
    const circuit: B.Circuit
    const reliable: bool   // no request and no reply is lost
    ghost var wire: Wire

    constructor (service: WalletCalls.Service, reliable: bool)
      ensures this.service == service && this.reliable == reliable && fresh(circuit)
      ensures wire == Wire([], [])
      ensures circuit.Valid() && circuit.trace == [] && circuit.threshold == 5 && circuit.cooldown == 5_000_000_000
    {
      this.service, this.reliable := service, reliable;
      circuit := new B.Circuit(5, 0);
      wire := Wire([], []);
    }

    // One call over the wire. The request may never arrive, and the reply may never come back;
    // only a reply tells the caller that the service ran.
    method Invoke(req: WalletCalls.Request)
        returns (o: Outcome, ghost before: WalletStore.Db, ghost h: seq<WalletCalls.Event>)
      requires WalletStore.Sound(service.repo.Contents())
      modifies service.repo
      ensures WalletStore.Evolves(old(service.repo.Contents()), service.repo.Contents())
      ensures o.Replied? ==>
                WalletStore.Evolves(old(service.repo.Contents()), before)
                && (exists r :: service.Answered(before, req, h, Ok(r)))
                && WalletStore.HasKey(service.repo.ledger, req.key)
      ensures reliable ==> exists r :: o == Reply(r) && service.Answered(before, req, h, r) && service.Smooth(h)
    {
      service.repo.Interfere();
      before, h := service.repo.Contents(), [];
      var code: Code, isStatus: bool := *, *;
      o := if isStatus then Status(code) else NoStatus;
      var arrives: bool := *;
      if arrives || reliable {
        var r: Result<WalletCalls.MutateResult, L.Error>;
        r, h := service.Mutate(req);
        WalletCalls.AnswerIsTheEntry(WalletCalls.Moment(before, WalletCalls.Begin(req)), h);
        WalletCalls.EveryExecutionEvolves(WalletCalls.Moment(before, WalletCalls.Begin(req)), h);
        var returns_: bool := *;
        if returns_ || reliable {
          assert service.Answered(before, req, h, r);
          o := Reply(r);
          AnswersNeverTrip(r);
          if r.Ok? {
            WalletStore.FoundIsThere(service.repo.ledger, req.key);
            assert service.Answered(before, req, h, Ok(r.value));
          }
        }
      }
    }

    method Finish(o: Outcome, ghost owner: nat) returns (err: Option<ClientError>, ghost later: nat)
      requires circuit.Valid()
      modifies circuit
      ensures circuit.Valid() && circuit.trace == old(circuit.trace) + Signals(o, owner, later)
      ensures o.Replied? ==> circuit.trace == old(circuit.trace) + [B.Succeeded(owner)]
      ensures o == Status(Code.Unavailable) || o == Status(DeadlineExceeded) ==>
                circuit.trace == old(circuit.trace) + [B.Failed(owner, later)]
      ensures !o.Replied? && o != Status(Code.Unavailable) && o != Status(DeadlineExceeded) ==>
                circuit.trace == old(circuit.trace)
      ensures err == MapErr(o)
    {
      var now: nat := *;
      later := now;
      if o.Replied? {
        circuit.Success(owner);
      } else if Trips(o) {
        circuit.Failure(now, owner);
      }
      err := MapErr(o);
    }

    // Refused by the breaker, a call touches nothing; otherwise it is what came back over the
    // wire, and the breaker's trace grows by what that outcome signals.
    ghost predicate Called(oldWire: Wire, oldTrace: seq<B.Signal>, oldDb: WalletStore.Db,
                           req: WalletCalls.Request, owner: nat,
                           err: Option<ClientError>, o: Outcome, now: nat, later: nat,
                           before: WalletStore.Db, h: seq<WalletCalls.Event>)
      reads this, circuit, service.repo
      requires circuit.threshold > 0
    {
      && WalletStore.Evolves(oldDb, service.repo.Contents())
      && if B.Refuses(oldTrace, now, circuit.threshold, circuit.cooldown) then
           err == Some(CircuitOpen) && wire == oldWire.(told := oldWire.told + [err]) && circuit.trace == oldTrace
               && service.repo.Contents() == oldDb
         else
           && err == MapErr(o)
           && wire == Wire(oldWire.sent + [req], oldWire.told + [err])
           && circuit.trace == oldTrace + Signals(o, owner, later)
           && (err.None? ==>
                 WalletStore.Evolves(oldDb, before)
                 && (exists r :: service.Answered(before, req, h, Ok(r)))
                 && WalletStore.HasKey(service.repo.ledger, req.key))
           && (reliable ==> exists r :: o == Reply(r) && service.Answered(before, req, h, r) && service.Smooth(h))
    }

    method Send(req: WalletCalls.Request, ghost owner: nat)
      returns (err: Option<ClientError>, ghost o: Outcome, ghost now: nat, ghost later: nat,
               ghost before: WalletStore.Db, ghost h: seq<WalletCalls.Event>)
      requires circuit.Valid() && WalletStore.Sound(service.repo.Contents())
      modifies this`wire, circuit, service.repo
      ensures circuit.Valid()
      ensures Called(old(wire), old(circuit.trace), old(service.repo.Contents()), req, owner, err, o, now, later,
          before, h)
    {
      var t: nat := *;
      o, now, later, before, h := NoStatus, t, t, service.repo.Contents(), [];
      WalletStore.Reflexive(service.repo.Contents());
      var allowed := circuit.Allow(t);
      if !allowed {
        wire := wire.(told := wire.told + [Some(CircuitOpen)]);
        return Some(CircuitOpen), o, now, later, before, h;
      }
      var outcome: Outcome;
      outcome, before, h := Invoke(req);
      o := outcome;
      err, later := Finish(outcome, owner);
      wire := Wire(wire.sent + [req], wire.told + [err]);
    }

    method Debit(wallet: Option<L.WalletId>, amount: L.int64, transfer: TransferId, key: Key, ghost owner: nat)
      returns (err: Option<ClientError>, ghost o: Outcome, ghost now: nat, ghost later: nat,
               ghost before: WalletStore.Db, ghost h: seq<WalletCalls.Event>)
      requires circuit.Valid() && WalletStore.Sound(service.repo.Contents())
      modifies this`wire, circuit, service.repo
      ensures circuit.Valid()
      ensures Called(old(wire), old(circuit.trace), old(service.repo.Contents()),
                     WalletCalls.Request(wallet, amount, Some(transfer), key, L.Debit),
                     owner, err, o, now, later, before, h)
    {
      err, o, now, later, before, h := Send(WalletCalls.Request(wallet, amount, Some(transfer), key, L.Debit), owner);
    }

    method Credit(wallet: Option<L.WalletId>, amount: L.int64, transfer: TransferId, key: Key, ghost owner: nat)
      returns (err: Option<ClientError>, ghost o: Outcome, ghost now: nat, ghost later: nat,
               ghost before: WalletStore.Db, ghost h: seq<WalletCalls.Event>)
      requires circuit.Valid() && WalletStore.Sound(service.repo.Contents())
      modifies this`wire, circuit, service.repo
      ensures circuit.Valid()
      ensures Called(old(wire), old(circuit.trace), old(service.repo.Contents()),
                     WalletCalls.Request(wallet, amount, Some(transfer), key, L.Credit),
                     owner, err, o, now, later, before, h)
    {
      err, o, now, later, before, h := Send(WalletCalls.Request(wallet, amount, Some(transfer), key, L.Credit), owner);
    }
  }
}
