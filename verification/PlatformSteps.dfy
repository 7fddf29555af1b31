/**
  Every action of the platform keeps the invariant, one lemma per kind of action.
 */
module PlatformSteps {
  import opened Wrappers
  import opened Keys
  import WS = WalletStore
  import C = WalletCalls
  import W = WalletRuns
  import B = Breaker
  import opened WalletClient
  import T = TransferStore
  import S = Saga
  import R = OutboxRuns
  import opened Platform
  import opened PlatformInv

  /******* The lookups *******/

  lemma CacheAnswerOk(s: Sys, i: nat, down: bool)
    requires i < |s.transfers.sagas| && s.transfers.sagas[i].saga.pc.AskingCache?
    requires SagaOk(s.wallet, s.transfers.db.rows, s.transfers.owner, s.transfers.sagas[i], i)
    requires StoresOk(s.transfers)
    ensures SagaOk(s.wallet, s.transfers.db.rows, s.transfers.owner,
                   Hear(s, i, CacheAnswer(s, i, down)).transfers.sagas[i], i)
    ensures Hear(s, i, CacheAnswer(s, i, down)).transfers.sagas[i].saga.tr == s.transfers.sagas[i].saga.tr
  {
  }

  lemma LoadAnswerOk(s: Sys, i: nat, down: bool)
    requires i < |s.transfers.sagas| && s.transfers.sagas[i].saga.pc.Loading?
    requires SagaOk(s.wallet, s.transfers.db.rows, s.transfers.owner, s.transfers.sagas[i], i)
    ensures var a := LoadAnswer(s, s.transfers.sagas[i].saga.pc.id, down);
            && SagaOk(s.wallet, s.transfers.db.rows, s.transfers.owner, Hear(s, i, a).transfers.sagas[i], i)
            && Hear(s, i, a).transfers.sagas[i].saga.tr == s.transfers.sagas[i].saga.tr
  {
  }

  lemma HearMoves(s: Sys, i: nat, a: S.Answer)
    requires i < |s.transfers.sagas|
    requires Hear(s, i, a).transfers.sagas[i].saga.tr == s.transfers.sagas[i].saga.tr
    ensures Moves(s.wallet, s.wallet, s.transfers, Hear(s, i, a).transfers, i)
    ensures Hear(s, i, a).transfers.db == s.transfers.db && Hear(s, i, a).transfers.cache == s.transfers.cache
    ensures Hear(s, i, a).wallet == s.wallet && Hear(s, i, a).pipe == s.pipe
    ensures Hear(s, i, a).transfers.owner == s.transfers.owner
  {
  }

  // An answer that leaves wallet and rows alone.
  lemma HearKeeps(s: Sys, i: nat, a: S.Answer)
    requires SagasOk(s.wallet, s.transfers) && i < |s.transfers.sagas|
    requires Hear(s, i, a).transfers.sagas[i].saga.tr == s.transfers.sagas[i].saga.tr
    requires SagaOk(s.wallet, s.transfers.db.rows, s.transfers.owner, Hear(s, i, a).transfers.sagas[i], i)
    ensures SagasOk(s.wallet, Hear(s, i, a).transfers)
  {
    hide SagasOk, SagaOk, WalletGrows;
    HearMoves(s, i, a);
    WalletGrowsReflexive(s.wallet);
    QuietMoveKeepsSagas(s.wallet, s.wallet, s.transfers, Hear(s, i, a).transfers, i);
  }

  lemma OneSaga(s: Sys, i: nat)
    requires SagasOk(s.wallet, s.transfers) && i < |s.transfers.sagas|
    ensures SagaOk(s.wallet, s.transfers.db.rows, s.transfers.owner, s.transfers.sagas[i], i)
  {
  }

  /******* One step of the wallet *******/

  lemma DoneStaysDone(w: W.Sys, a: W.Action, id: W.CallId)
    requires id in w.calls && w.calls[id].pc.Done?
    ensures id in W.Act(w, a).calls && W.Act(w, a).calls[id] == w.calls[id]
  {
  }

  lemma CommitAppends(w: W.Sys, id: W.CallId, choice: C.Choice)
    requires WalletOk(w) && id in w.calls
    ensures var (db', c') := C.Step(w.db, w.calls[id], choice);
            db' != w.db ==>
              (choice.fault != WS.AckLost ==> c'.pc.Done? && c'.pc.outcome.Succeeded?)
              && db'.ledger[|db'.ledger| - 1].key == w.calls[id].req.key
              && |db'.ledger| == |w.db.ledger| + 1 && db'.ledger[..|w.db.ledger|] == w.db.ledger
              && (match id case External(_) => w.calls[id].req.key.Named?
                           case LegCall(t, leg) => w.calls[id].req.key == LegKey(t, leg))
  {
  }

  lemma AdvanceOthers(w: W.Sys, id: W.CallId, choice: C.Choice)
    requires id in w.calls
    ensures var w' := W.Act(w, W.Advance(id, choice));
            && w'.db == C.Step(w.db, w.calls[id], choice).0
            && w'.calls == w.calls[id := C.Step(w.db, w.calls[id], choice).1]
            && w'.calls.Keys == w.calls.Keys
  {
  }

  // Attempts own different transfers.
  lemma IdsDiffer(s: Sys, i: nat, j: nat)
    requires SagasOk(s.wallet, s.transfers) && i < |s.transfers.sagas| && j < |s.transfers.sagas| && i != j
    requires s.transfers.sagas[i].saga.tr.Some? && s.transfers.sagas[j].saga.tr.Some?
    ensures s.transfers.sagas[i].saga.tr.value.id != s.transfers.sagas[j].saga.tr.value.id
  {
  }

  lemma UncalledIsNotBooked(w: W.Sys, t: TransferId, leg: Leg)
    requires WalletOk(w) && !Called(w, t, leg)
    ensures !Booked(w, t, leg)
  {
  }

  lemma CalledKey(w: W.Sys, id: W.CallId)
    requires WalletOk(w) && id in w.calls && id.LegCall?
    ensures w.calls[id].req.key == LegKey(id.transfer, id.leg)
  {
  }

  lemma CacheAnswersKeeps(s: Sys, i: nat, down: bool)
    requires SagasOk(s.wallet, s.transfers) && StoresOk(s.transfers)
    requires i < |s.transfers.sagas| && s.transfers.sagas[i].saga.pc.AskingCache?
    ensures SagasOk(s.wallet, Hear(s, i, CacheAnswer(s, i, down)).transfers)
  {
    hide SagasOk, SagaOk, S.On;
    OneSaga(s, i);
    CacheAnswerOk(s, i, down);
    HearKeeps(s, i, CacheAnswer(s, i, down));
  }

  lemma LoadAnswersKeeps(s: Sys, i: nat, down: bool)
    requires SagasOk(s.wallet, s.transfers)
    requires i < |s.transfers.sagas| && s.transfers.sagas[i].saga.pc.Loading?
    ensures SagasOk(s.wallet, Hear(s, i, LoadAnswer(s, s.transfers.sagas[i].saga.pc.id, down)).transfers)
  {
    hide SagasOk, SagaOk, S.On;
    OneSaga(s, i);
    LoadAnswerOk(s, i, down);
    HearKeeps(s, i, LoadAnswer(s, s.transfers.sagas[i].saga.pc.id, down));
  }

  /******* The lookup by key, and the transfer it may make *******/

  lemma RowAnswerOk(s: Sys, i: nat, down: bool, id: TransferId)
    requires i < |s.transfers.sagas| && s.transfers.sagas[i].saga.pc.AskingRow?
    requires SagaOk(s.wallet, s.transfers.db.rows, s.transfers.owner, s.transfers.sagas[i], i)
    requires HearRow(s, i, down, id).transfers.sagas[i].saga.tr.None?
    ensures SagaOk(s.wallet, s.transfers.db.rows, s.transfers.owner, HearRow(s, i, down, id).transfers.sagas[i], i)
  {
  }

  lemma NoLegsYet(w: W.Sys, t: Transfers, id: TransferId, leg: Leg)
    requires LegsOk(w.calls, t.sagas, t.owner) && id !in t.owner
    ensures !Called(w, id, leg)
  {
  }

  lemma AttemptOk(w: W.Sys, rows: seq<T.Transfer>, owner: map<TransferId, nat>, r: Running, i: nat, id: TransferId)
    requires SagaOk(w, rows, owner, r, i) && r.saga.pc.AskingRow?
    requires id != "" && id !in owner && !Called(w, id, DebitLeg) && !Called(w, id, CreditLeg)
        && !Called(w, id, CompensateLeg)
    requires S.Attempt(r.saga, id).tr.Some?
    ensures SagaOk(w, rows, owner[id := i], r.(saga := S.Attempt(r.saga, id)), i)
    ensures S.Attempt(r.saga, id).tr.value.id == id
  {
  }

  // A new transfer is made under an id nobody owns.
  lemma AttemptKeeps(w: W.Sys, t: Transfers, i: nat, id: TransferId)
    requires SagasOk(w, t) && i < |t.sagas| && t.sagas[i].saga.pc.AskingRow?
    requires id != "" && id !in t.owner && S.Attempt(t.sagas[i].saga, id).tr.Some?
    ensures SagasOk(w, t.(sagas := t.sagas[i := t.sagas[i].(saga := S.Attempt(t.sagas[i].saga, id))],
        owner := t.owner[id := i]))
  {
    var r' := t.sagas[i].(saga := S.Attempt(t.sagas[i].saga, id));
    var sagas', owner' := t.sagas[i := r'], t.owner[id := i];
    NoLegsYet(w, t, id, DebitLeg);
    NoLegsYet(w, t, id, CreditLeg);
    NoLegsYet(w, t, id, CompensateLeg);
    AttemptOk(w, t.db.rows, t.owner, t.sagas[i], i, id);
    NotAttempted(w, t, i);
    hide LegFacts, RowFacts, S.Attempt, Called, RowOk, SagaOk;
    forall j | 0 <= j < |sagas'|
      ensures SagaOk(w, t.db.rows, owner', sagas'[j], j)
    {
      if j != i {
        SelfSame(w);
        SagaOkStable(w, w, t.db.rows, t.db.rows, t.owner, owner', t.sagas[j], j);
      }
    }
    forall k | 0 <= k < |t.db.rows|
      ensures RowOk(w, sagas', owner', t.db.rows[k])
    {
      RowOwnerMade(w, t.sagas, t.owner, t.db.rows[k]);
      RowOkStable(w, w, t.sagas, sagas', t.owner, owner', t.db.rows[k]);
    }
  }

  lemma SelfSame(w: W.Sys)
    ensures forall id :: SameCalled(w, w, id)
  {
  }

  lemma RowOwnerMade(w: W.Sys, sagas: seq<Running>, owner: map<TransferId, nat>, row: T.Transfer)
    requires RowOk(w, sagas, owner, row)
    ensures row.id in owner && owner[row.id] < |sagas| && sagas[owner[row.id]].saga.tr.Some?
  {
  }

  // A call still asking for its row owns nothing.
  lemma NotAttempted(w: W.Sys, t: Transfers, i: nat)
    requires SagasOk(w, t) && i < |t.sagas| && t.sagas[i].saga.pc.AskingRow?
    ensures t.sagas[i].saga.tr.None?
  {
  }

  lemma HearRowShape(s: Sys, i: nat, down: bool, id: TransferId)
    requires i < |s.transfers.sagas| && s.transfers.sagas[i].saga.pc.AskingRow? && s.transfers.sagas[i].saga.tr.None?
    requires HearRow(s, i, down, id).transfers.sagas[i].saga.tr.Some?
    ensures id != "" && id !in s.transfers.owner
    ensures S.Attempt(s.transfers.sagas[i].saga, id).tr.Some?
    ensures HearRow(s, i, down, id)
         == s.(transfers := s.transfers.(
                sagas := s.transfers.sagas[i := s.transfers.sagas[i].(saga := S.Attempt(s.transfers.sagas[i].saga,
                    id))],
                owner := s.transfers.owner[id := i]))
  {
  }

  lemma HearRowQuiet(s: Sys, i: nat, down: bool, id: TransferId)
    requires i < |s.transfers.sagas| && s.transfers.sagas[i].saga.tr.None?
    requires HearRow(s, i, down, id).transfers.sagas[i].saga.tr.None?
    ensures HearRow(s, i, down, id) == s
         || (exists a :: HearRow(s, i, down, id) == Hear(s, i, a) && Hear(s, i, a).transfers.sagas[i].saga.tr.None?)
  {
  }

  lemma RowAnswersKeeps(s: Sys, i: nat, down: bool, id: TransferId)
    requires SagasOk(s.wallet, s.transfers)
    requires i < |s.transfers.sagas| && s.transfers.sagas[i].saga.pc.AskingRow?
    ensures SagasOk(s.wallet, HearRow(s, i, down, id).transfers)
    ensures HearRow(s, i, down, id).wallet == s.wallet && HearRow(s, i, down, id).pipe == s.pipe
    ensures HearRow(s, i, down, id).transfers.db == s.transfers.db
        && HearRow(s, i, down, id).transfers.cache == s.transfers.cache
  {
    NotAttempted(s.wallet, s.transfers, i);
    OneSaga(s, i);
    hide SagasOk, SagaOk, S.On, S.Attempt;
    if HearRow(s, i, down, id).transfers.sagas[i].saga.tr.Some? {
      HearRowShape(s, i, down, id);
      AttemptKeeps(s.wallet, s.transfers, i, id);
    } else {
      RowAnswerOk(s, i, down, id);
      HearRowQuiet(s, i, down, id);
      if HearRow(s, i, down, id) != s {
        var a :| HearRow(s, i, down, id) == Hear(s, i, a) && Hear(s, i, a).transfers.sagas[i].saga.tr.None?;
        HearKeeps(s, i, a);
      }
    }
  }

  /******* Filling the cache *******/

  lemma FillOk(s: Sys, i: nat)
    requires i < |s.transfers.sagas|
    requires s.transfers.sagas[i].saga.pc.FillingReplay? || s.transfers.sagas[i].saga.pc.Filling?
    requires SagaOk(s.wallet, s.transfers.db.rows, s.transfers.owner, s.transfers.sagas[i], i)
    ensures SagaOk(s.wallet, s.transfers.db.rows, s.transfers.owner, Hear(s, i, S.CacheFilled).transfers.sagas[i], i)
    ensures Hear(s, i, S.CacheFilled).transfers.sagas[i].saga.tr == s.transfers.sagas[i].saga.tr
  {
  }

  lemma CacheGains(t: Transfers, key: string, row: T.Transfer)
    requires StoresOk(t) && row in t.db.rows && row.key == key
    ensures T.Truthful(t.cache[key := row.id], t.db.rows)
  {
  }

  // The row whose id a filling call puts into the cache.
  function RowToCache(r: Running): T.Transfer
    requires r.saga.pc.FillingReplay? || (r.saga.pc.Filling? && r.saga.tr.Some?)
  {
    if r.saga.pc.FillingReplay? then r.saga.pc.found else S.Complete(r.saga.tr.value)
  }

  lemma CacheFillsKeeps(s: Sys, i: nat, stores: bool)
    requires SagasOk(s.wallet, s.transfers) && StoresOk(s.transfers)
    requires i < |s.transfers.sagas|
    requires var r := s.transfers.sagas[i]; r.saga.pc.FillingReplay? || (r.saga.pc.Filling? && r.saga.tr.Some?)
    ensures var s' := Fill(s, i, RowToCache(s.transfers.sagas[i]).id, stores);
            SagasOk(s.wallet, s'.transfers) && StoresOk(s'.transfers)
  {
    OneSaga(s, i);
    FillOk(s, i);
    HearKeeps(s, i, S.CacheFilled);
    HearMoves(s, i, S.CacheFilled);
    RowToCacheIsStored(s, i);
    CacheGains(s.transfers, s.transfers.sagas[i].saga.req.key, RowToCache(s.transfers.sagas[i]));
    hide S.On, SagaOk, T.Truthful, T.Consistent, RowOk;
  }

  lemma RowToCacheIsStored(s: Sys, i: nat)
    requires i < |s.transfers.sagas|
    requires SagaOk(s.wallet, s.transfers.db.rows, s.transfers.owner, s.transfers.sagas[i], i)
    requires var r := s.transfers.sagas[i]; r.saga.pc.FillingReplay? || (r.saga.pc.Filling? && r.saga.tr.Some?)
    ensures RowToCache(s.transfers.sagas[i]) in s.transfers.db.rows
    ensures RowToCache(s.transfers.sagas[i]).key == s.transfers.sagas[i].saga.req.key
  {
  }

  /******* A leg goes out, or is refused by the breaker *******/

  lemma RefusedOk(s: Sys, i: nat)
    requires AtLeg(s.transfers, i) && !s.transfers.sagas[i].issued
    requires SagaOk(s.wallet, s.transfers.db.rows, s.transfers.owner, s.transfers.sagas[i], i)
    ensures var s' := Hear(s, i, S.WalletSaid(Some(CircuitOpen)));
            && SagaOk(s.wallet, s.transfers.db.rows, s.transfers.owner, s'.transfers.sagas[i], i)
            && s'.transfers.sagas[i].saga.tr == s.transfers.sagas[i].saga.tr
  {
    hide Booked, Called;
  }

  function Arrived(w: W.Sys, r: Running): W.Sys
    requires r.saga.tr.Some? && S.LegOf(r.saga.pc).Some?
  {
    W.Act(w, W.Arrive(LegCallOf(r), S.LegRequest(r.saga.tr.value, S.LegOf(r.saga.pc).value)))
  }

  lemma FreshLeg(w: W.Sys, r: Running)
    requires r.saga.tr.Some? && S.LegOf(r.saga.pc).Some? && !r.issued && LegFacts(w, r.saga, false)
    ensures LegCallOf(r) !in w.calls
  {
  }

  lemma ArrivedLegFacts(w: W.Sys, w': W.Sys, r: Running)
    requires r.saga.tr.Some? && S.LegOf(r.saga.pc).Some? && LegFacts(w, r.saga, false)
    requires w'.db == w.db && w'.calls
        == w.calls[LegCallOf(r) := C.Begin(S.LegRequest(r.saga.tr.value, S.LegOf(r.saga.pc).value))]
    ensures LegFacts(w', r.saga, true)
  {
  }

  lemma ArrivedLegsOk(w: W.Sys, w': W.Sys, t: Transfers, i: nat)
    requires LegsOk(w.calls, t.sagas, t.owner) && AtLeg(t, i)
    requires Made(t.owner, t.sagas[i].saga, i)
    requires var r := t.sagas[i];
             var req := S.LegRequest(r.saga.tr.value, S.LegOf(r.saga.pc).value);
             w'.db == w.db && w'.calls == w.calls[LegCallOf(r) := C.Begin(req)] && C.Begin(req).req == req
    ensures LegsOk(w'.calls, t.sagas[i := t.sagas[i].(issued := true)], t.owner)
    ensures OtherLegsSame(w, w', i, t.owner)
  {
  }

  lemma IssueKeeps(s: Sys, i: nat)
    requires WalletOk(s.wallet) && SagasOk(s.wallet, s.transfers) && AtLeg(s.transfers, i)
        && !s.transfers.sagas[i].issued
    ensures var r := s.transfers.sagas[i];
            var w' := Arrived(s.wallet, r);
            WalletOk(w') && SagasOk(w', s.transfers.(sagas := s.transfers.sagas[i := r.(issued := true)]))
  {
    var w, t := s.wallet, s.transfers;
    var r := t.sagas[i];
    var t' := t.(sagas := t.sagas[i := r.(issued := true)]);
    hide WalletOk, SagasOk, SagaOk, LegFacts, RowFacts, Made, LegsOk, OtherLegsSame, W.Act, C.Begin, RowsOk,
        S.LegRequest, S.LegOf;
    OneSaga(s, i);
    LegRequestKey(r.saga.tr.value, S.LegOf(r.saga.pc).value);
    LegIsReady(w, t.db.rows, t.owner, r, i);
    FreshLeg(w, r);
    LegArrivesOk(w, r.saga.tr.value.id, S.LegOf(r.saga.pc).value,
        S.LegRequest(r.saga.tr.value, S.LegOf(r.saga.pc).value));
    var w' := Arrived(w, r);
    ArrivedLegFacts(w, w', r);
    IssuedOk(w, w', t.db.rows, t.owner, r, i);
    LegsAreOk(w, t);
    ArrivedLegsOk(w, w', t, i);
    assert Moves(w, w', t, t', i);
    hide Arrived;
    MoveKeepsRows(w, w', t, t', i);
    MoveKeepsSagas(w, w', t, t', i);
  }

  lemma LegRequestKey(tr: T.Transfer, leg: Leg)
    ensures S.LegRequest(tr, leg).key == LegKey(tr.id, leg)
  {
  }

  lemma LegIsReady(w: W.Sys, rows: seq<T.Transfer>, owner: map<TransferId, nat>, r: Running, i: nat)
    requires SagaOk(w, rows, owner, r, i) && r.saga.tr.Some? && !r.issued
    ensures LegFacts(w, r.saga, false) && Made(owner, r.saga, i)
  {
  }

  lemma IssuedOk(w: W.Sys, w': W.Sys, rows: seq<T.Transfer>, owner: map<TransferId, nat>, r: Running, i: nat)
    requires SagaOk(w, rows, owner, r, i) && r.saga.tr.Some? && S.LegOf(r.saga.pc).Some? && LegFacts(w', r.saga, true)
    ensures SagaOk(w', rows, owner, r.(issued := true), i)
  {
  }

  lemma LegsAreOk(w: W.Sys, t: Transfers)
    requires SagasOk(w, t)
    ensures LegsOk(w.calls, t.sagas, t.owner)
  {
  }

  /******* A leg's call ends for its caller *******/

  lemma RepliedMeansBooked(s: Sys, i: nat, ending: Ending)
    requires WalletOk(s.wallet) && MayEnd(s, i, ending) && OutcomeOf(s, i, ending).Replied?
    ensures var r := s.transfers.sagas[i]; Booked(s.wallet, r.saga.tr.value.id, S.LegOf(r.saga.pc).value)
  {
  }

  lemma EndedOk(w: W.Sys, rows: seq<T.Transfer>, owner: map<TransferId, nat>, r: Running, i: nat,
      err: Option<ClientError>, mark: nat)
    requires SagaOk(w, rows, owner, r, i) && r.issued && err != Some(CircuitOpen)
    requires err.None? ==> Booked(w, r.saga.tr.value.id, S.LegOf(r.saga.pc).value)
    ensures SagaOk(w, rows, owner, r.(saga := S.On(r.saga, S.WalletSaid(err)), issued := false, mark := mark), i)
    ensures S.On(r.saga, S.WalletSaid(err)).tr == r.saga.tr
  {
    hide WS.HasKey, Called;
  }

  lemma EndWallet(s: Sys, i: nat, ending: Ending, now: nat)
    requires WalletOk(s.wallet) && MayEnd(s, i, ending)
    ensures var w' := EndLeg(s, i, ending, now).wallet; WalletOk(w') && WalletGrows(s.wallet, w')
  {
    WalletGrowsReflexive(s.wallet);
    hide W.Act, WalletOk, WalletGrows;
    WalletActOk(s.wallet, W.Kill(LegCallOf(s.transfers.sagas[i])));
  }

  lemma EndMoves(s: Sys, i: nat, ending: Ending, now: nat)
    requires MayEnd(s, i, ending)
    ensures var s' := EndLeg(s, i, ending, now);
            var r, r' := s.transfers.sagas[i], s'.transfers.sagas[i];
            var err := MapErr(OutcomeOf(s, i, ending));
            && err != Some(CircuitOpen)
            && (err.None? <==> OutcomeOf(s, i, ending).Replied?)
            && r' == r.(saga := S.On(r.saga, S.WalletSaid(err)), issued := false, mark := r'.mark)
            && s'.transfers.sagas == s.transfers.sagas[i := r']
            && s'.transfers.owner == s.transfers.owner && s'.transfers.db == s.transfers.db
            && s'.transfers.cache == s.transfers.cache && s'.pipe == s.pipe
  {
  }

  lemma EndKeeps(s: Sys, i: nat, ending: Ending, now: nat)
    requires WalletOk(s.wallet) && SagasOk(s.wallet, s.transfers) && MayEnd(s, i, ending)
    ensures var s' := EndLeg(s, i, ending, now); WalletOk(s'.wallet) && SagasOk(s'.wallet, s'.transfers)
  {
    var s' := EndLeg(s, i, ending, now);
    var err := MapErr(OutcomeOf(s, i, ending));
    EndWallet(s, i, ending, now);
    EndMoves(s, i, ending, now);
    hide EndLeg, MapErr;
    WalletGrowthKeepsSagas(s.wallet, s'.wallet, s.transfers);
    OneSaga(s.(wallet := s'.wallet), i);
    if err.None? {
      RepliedMeansBooked(s, i, ending);
      BookedIsStable(s.wallet, s'.wallet, s.transfers.sagas[i].saga.tr.value.id,
          S.LegOf(s.transfers.sagas[i].saga.pc).value);
    }
    hide S.On, SagasOk, Booked, LegFacts, RowFacts, WalletGrows, WalletOk, OutcomeOf;
    EndedOk(s'.wallet, s.transfers.db.rows, s.transfers.owner, s.transfers.sagas[i], i, err,
        s'.transfers.sagas[i].mark);
    WalletGrowsReflexive(s'.wallet);
    QuietMoveKeepsSagas(s'.wallet, s'.wallet, s.transfers, s'.transfers, i);
  }

  /******* The row and its event *******/

  lemma InsertedOk(w: W.Sys, rows: seq<T.Transfer>, owner: map<TransferId, nat>, r: Running, i: nat,
      failure: Option<T.StoreError>)
    requires SagaOk(w, rows, owner, r, i) && r.saga.pc.Inserting?
    requires failure.None? ==> r.saga.tr.Some? && S.Complete(r.saga.tr.value) in rows
    ensures SagaOk(w, rows, owner, r.(saga := S.On(r.saga, S.Inserted(failure))), i)
    ensures S.On(r.saga, S.Inserted(failure)).tr == r.saga.tr
  {
  }

  lemma InsertShape(s: Sys, i: nat, eventId: T.EventId, at: nat, fault: T.Fault)
    requires i < |s.transfers.sagas| && s.transfers.sagas[i].saga.tr.Some? && StoresOk(s.transfers)
    ensures var s' := InsertRow(s, i, eventId, at, fault);
            var tr := S.Complete(s.transfers.sagas[i].saga.tr.value);
            var failure := T.Insert(s.transfers.db, tr, T.CompletedEvent(tr, eventId, at), fault).1;
            var r := s.transfers.sagas[i];
            && s'.transfers.sagas == s.transfers.sagas[i := r.(saga := S.On(r.saga, S.Inserted(failure)))]
            && s'.transfers.owner == s.transfers.owner && s'.wallet == s.wallet && s'.pipe == s.pipe
            && StoresOk(s'.transfers)
            && T.Grows(s.transfers.db, s'.transfers.db)
            && (s'.transfers.db == s.transfers.db || s'.transfers.db.rows == s.transfers.db.rows + [tr])
            && (failure.None? ==> tr in s'.transfers.db.rows)
  {
    hide S.On;
    var tr := S.Complete(s.transfers.sagas[i].saga.tr.value);
    var ev := T.CompletedEvent(tr, eventId, at);
    T.InsertGrows(s.transfers.db, tr, ev, fault);
    T.TruthfulIsStable(s.transfers.cache, s.transfers.db.rows, T.Insert(s.transfers.db, tr, ev, fault).0.rows);
  }

  lemma InsertKeepsRows(w: W.Sys, t: Transfers, t': Transfers, i: nat)
    requires SagasOk(w, t) && Moves(w, w, t, t', i) && t.sagas[i].saga.pc.Inserting? && t.sagas[i].saga.tr.Some?
    requires t'.db == t.db || t'.db.rows == t.db.rows + [S.Complete(t.sagas[i].saga.tr.value)]
    ensures RowsOk(w, t'.db.rows, t'.sagas, t'.owner)
  {
  }

  lemma InsertKeeps(s: Sys, i: nat, eventId: T.EventId, at: nat, fault: T.Fault)
    requires SagasOk(s.wallet, s.transfers) && StoresOk(s.transfers)
    requires i < |s.transfers.sagas| && s.transfers.sagas[i].saga.pc.Inserting? && s.transfers.sagas[i].saga.tr.Some?
    ensures var s' := InsertRow(s, i, eventId, at, fault);
            && SagasOk(s'.wallet, s'.transfers) && StoresOk(s'.transfers)
            && T.Grows(s.transfers.db, s'.transfers.db)
            && s'.wallet == s.wallet && s'.pipe == s.pipe
  {
    var s' := InsertRow(s, i, eventId, at, fault);
    var tr := S.Complete(s.transfers.sagas[i].saga.tr.value);
    var failure := T.Insert(s.transfers.db, tr, T.CompletedEvent(tr, eventId, at), fault).1;
    InsertShape(s, i, eventId, at, fault);
    hide InsertRow, T.Insert;
    OneSaga(s, i);
    var w, t, t' := s.wallet, s.transfers, s'.transfers;
    hide LegFacts, RowFacts, S.On, RowOk, StoresOk, T.Grows;
    RowsPrefix(s.transfers.db, s'.transfers.db);
    SelfSame(w);
    hide SameCalled;
    SagaOkStable(w, w, t.db.rows, t'.db.rows, t.owner, t.owner, t.sagas[i], i);
    InsertedOk(w, t'.db.rows, t.owner, t.sagas[i], i, failure);
    InsertMoves(w, t, t', i);
  }

  lemma RowsPrefix(db: T.Db, db': T.Db)
    requires T.Grows(db, db')
    ensures db.rows <= db'.rows
  {
  }

  lemma InsertMoves(w: W.Sys, t: Transfers, t': Transfers, i: nat)
    requires SagasOk(w, t) && Moves(w, w, t, t', i) && t.sagas[i].saga.pc.Inserting? && t.sagas[i].saga.tr.Some?
    requires t'.db == t.db || t'.db.rows == t.db.rows + [S.Complete(t.sagas[i].saga.tr.value)]
    requires SagaOk(w, t'.db.rows, t'.owner, t'.sagas[i], i)
    ensures SagasOk(w, t')
  {
    InsertKeepsRows(w, t, t', i);
    WalletGrowsReflexive(w);
    hide SagaOk, RowOk, WalletGrows;
    MoveKeepsLegs(w, w, t, t', i);
    MoveKeepsSagas(w, w, t, t', i);
  }

  /******* Deaths, new calls, expiry *******/

  lemma DieKeeps(s: Sys, i: nat)
    requires SagasOk(s.wallet, s.transfers) && Live(s.transfers, i)
    ensures SagasOk(s.wallet, Put(s, i, s.transfers.sagas[i].(dead := true)).transfers)
  {
    OneSaga(s, i);
    var s' := Put(s, i, s.transfers.sagas[i].(dead := true));
    DeadOk(s.wallet, s.transfers.db.rows, s.transfers.owner, s.transfers.sagas[i], i);
    hide SagasOk, SagaOk, WalletGrows;
    WalletGrowsReflexive(s.wallet);
    QuietMoveKeepsSagas(s.wallet, s.wallet, s.transfers, s'.transfers, i);
  }

  lemma DeadOk(w: W.Sys, rows: seq<T.Transfer>, owner: map<TransferId, nat>, r: Running, i: nat)
    requires SagaOk(w, rows, owner, r, i)
    ensures SagaOk(w, rows, owner, r.(dead := true), i)
  {
  }

  lemma NewSagaKeeps(w: W.Sys, t: Transfers, req: S.CreateRequest, proc: nat)
    requires SagasOk(w, t)
    ensures SagasOk(w, t.(sagas := t.sagas + [Running(S.Start(req), proc, false, 0, false)]))
  {
  }

  lemma ExpireKeeps(t: Transfers, key: string)
    requires StoresOk(t)
    ensures StoresOk(t.(cache := t.cache - {key}))
  {
  }

  /******* Workers and consumers *******/

  lemma MarkedStores(t: Transfers, outbox: seq<T.OutboxRow>)
    requires StoresOk(t) && |outbox| == |t.db.outbox| && T.OutboxGrows(t.db.outbox, outbox)
    ensures StoresOk(t.(db := t.db.(outbox := outbox)))
  {
  }

  lemma StepKeepsLength(l: R.Line, pc: R.Pc, a: R.Action)
    ensures |R.Step(l, pc, a).0.rows| == |l.rows|
  {
  }

  lemma WorkKeeps(s: Sys, w: nat, a: R.Action)
    requires Inv(s)
    ensures Inv(WorkerActs(s, w, a))
  {
    hide WalletOk, SagasOk, StoresOk, R.LineInv;
    var pc := if w in s.pipe.workers then s.pipe.workers[w] else R.Idle;
    var l := LineOf(s);
    assert R.LineInv(l) && R.WorkerInv(l, pc);
    R.StepKeepsInv(l, pc, a);
    StepKeepsLength(l, pc, a);
    var (l', pc') := R.Step(l, pc, a);
    GrownOutbox(l, l');
    hide R.Step, R.WorkerInv, R.LineGrows, PipeOk;
    MarkedStores(s.transfers, l'.rows);
    var s' := WorkerActs(s, w, a);
    assert LineOf(s') == l';
    LineGrowthKeepsPipe(l, l', s.pipe, s'.pipe);
    OutboxIsAside(s.wallet, s.transfers, l'.rows);
  }

  lemma GrownOutbox(l: R.Line, l': R.Line)
    requires R.LineGrows(l, l')
    ensures T.OutboxGrows(l.rows, l'.rows)
  {
  }

  // The Create calls do not look at the outbox.
  lemma OutboxIsAside(w: W.Sys, t: Transfers, outbox: seq<T.OutboxRow>)
    requires SagasOk(w, t)
    ensures SagasOk(w, t.(db := t.db.(outbox := outbox)))
  {
  }

  lemma ConsumeKeeps(s: Sys, c: nat, a: ConsumerAction)
    requires Inv(s)
    ensures Inv(ConsumerActs(s, c, a))
  {
    hide WalletOk, SagasOk, StoresOk, R.LineInv, R.WorkerInv, InboxOk;
    var pc := if c in s.pipe.consumers then s.pipe.consumers[c] else Polling;
    ConsumerStepKeeps(LineOf(s), s.pipe, pc, a);
    hide ConsumerStep;
  }

  lemma InsertedLine(s: Sys, s': Sys)
    requires PipeOk(LineOf(s), s.pipe) && s'.pipe == s.pipe && T.Grows(s.transfers.db, s'.transfers.db)
    requires s'.transfers.db == s.transfers.db
        || s'.transfers.db.outbox[..|s.transfers.db.outbox|] == s.transfers.db.outbox
    requires forall i :: |s.transfers.db.outbox| <= i < |s'.transfers.db.outbox| ==>
        s'.transfers.db.outbox[i].published.None?
    ensures PipeOk(LineOf(s'), s'.pipe)
  {
  }

  lemma InsertRowKeeps(s: Sys, i: nat, eventId: T.EventId, at: nat, fault: T.Fault)
    requires Inv(s)
    requires i < |s.transfers.sagas| && s.transfers.sagas[i].saga.pc.Inserting? && s.transfers.sagas[i].saga.tr.Some?
    ensures Inv(InsertRow(s, i, eventId, at, fault))
  {
    hide WalletOk, SagasOk, StoresOk, PipeOk;
    InsertKeeps(s, i, eventId, at, fault);
    InsertOutbox(s, i, eventId, at, fault);
    hide InsertRow;
    InsertedLine(s, InsertRow(s, i, eventId, at, fault));
  }

  lemma InsertOutbox(s: Sys, i: nat, eventId: T.EventId, at: nat, fault: T.Fault)
    requires i < |s.transfers.sagas| && s.transfers.sagas[i].saga.tr.Some?
    ensures var db, db' := s.transfers.db, InsertRow(s, i, eventId, at, fault).transfers.db;
            && (db' == db || (|db'.outbox| == |db.outbox| + 1 && db'.outbox[..|db.outbox|] == db.outbox))
            && forall k :: |db.outbox| <= k < |db'.outbox| ==> db'.outbox[k].published.None?
  {
  }

  /******* Every action *******/

  lemma WalletKeeps(s: Sys, a: W.Action)
    requires Inv(s) && External(a)
    ensures Inv(s.(wallet := W.Act(s.wallet, a)))
  {
    hide WalletOk, SagasOk, StoresOk, PipeOk, WalletGrows, W.Act;
    WalletActOk(s.wallet, a);
    WalletGrowthKeepsSagas(s.wallet, W.Act(s.wallet, a), s.transfers);
  }

  lemma LookupKeeps(s: Sys, a: Action)
    requires Inv(s) && (a.CacheAnswers? || a.LoadAnswers? || a.RowAnswers? || a.CacheFills?)
    ensures Inv(Act(s, a))
  {
    hide WalletOk, SagasOk, PipeOk, SagaOk, S.On, HearRow, Fill;
    var t := s.transfers;
    match a {
      case CacheAnswers(i, down) =>
        if Live(t, i) && t.sagas[i].saga.pc.AskingCache? { CacheAnswersKeeps(s, i, down); }
      case LoadAnswers(i, down) =>
        if Live(t, i) && t.sagas[i].saga.pc.Loading? { LoadAnswersKeeps(s, i, down); }
      case RowAnswers(i, down, id) =>
        if Live(t, i) && t.sagas[i].saga.pc.AskingRow? { RowAnswersKeeps(s, i, down, id); }
      case CacheFills(i, stores) => FillActKeeps(s, i, stores);
    }
  }

  lemma FillActKeeps(s: Sys, i: nat, stores: bool)
    requires Inv(s)
    ensures Inv(Act(s, CacheFills(i, stores)))
  {
    hide WalletOk, SagasOk, PipeOk, SagaOk, S.On;
    var t := s.transfers;
    if Live(t, i) && (t.sagas[i].saga.pc.FillingReplay? || (t.sagas[i].saga.pc.Filling? && t.sagas[i].saga.tr.Some?)) {
      CacheFillsKeeps(s, i, stores);
      hide StoresOk;
    }
  }

  lemma IssueActKeeps(s: Sys, i: nat, now: nat)
    requires Inv(s) && AtLeg(s.transfers, i) && !s.transfers.sagas[i].issued
    ensures Inv(IssueLeg(s, i, now))
  {
    if B.Refuses(TraceOf(s.transfers, s.transfers.sagas[i].proc), now, Threshold, Cooldown) {
      OneSaga(s, i);
      hide WalletOk, SagasOk, PipeOk, SagaOk, StoresOk, S.On, B.Refuses;
      RefusedOk(s, i);
      HearKeeps(s, i, S.WalletSaid(Some(CircuitOpen)));
      HearMoves(s, i, S.WalletSaid(Some(CircuitOpen)));
      SameStores(s.transfers, Hear(s, i, S.WalletSaid(Some(CircuitOpen))).transfers);
    } else {
      IssueKeeps(s, i);
      hide WalletOk, SagasOk, PipeOk, B.Refuses, W.Act;
    }
  }

  lemma SameStores(t: Transfers, t': Transfers)
    requires StoresOk(t) && t'.db == t.db && t'.cache == t.cache
    ensures StoresOk(t')
  {
  }

  lemma EndActKeeps(s: Sys, i: nat, ending: Ending, now: nat)
    requires Inv(s) && MayEnd(s, i, ending)
    ensures Inv(EndLeg(s, i, ending, now))
  {
    EndMoves(s, i, ending, now);
    hide WalletOk, SagasOk, PipeOk, StoresOk, EndLeg, OutcomeOf;
    EndKeeps(s, i, ending, now);
    SameStores(s.transfers, EndLeg(s, i, ending, now).transfers);
  }

  lemma OtherKeeps(s: Sys, a: Action)
    requires Inv(s) && (a.NewSaga? || a.Die? || a.Expire?)
    ensures Inv(Act(s, a))
  {
    hide WalletOk, SagasOk, PipeOk;
    match a {
      case NewSaga(req, proc) => NewSagaKeeps(s.wallet, s.transfers, req, proc);
      case Die(i) => if Live(s.transfers, i) { DieKeeps(s, i); }
      case Expire(key) =>
        ExpireKeeps(s.transfers, key);
        CacheIsAside(s.wallet, s.transfers, s.transfers.cache - {key});
    }
  }

  lemma CacheIsAside(w: W.Sys, t: Transfers, cache: map<string, TransferId>)
    requires SagasOk(w, t)
    ensures SagasOk(w, t.(cache := cache))
  {
  }

  lemma ActKeepsInv(s: Sys, a: Action)
    requires Inv(s)
    ensures Inv(Act(s, a))
  {
    hide Inv, HearRow, Fill, Hear, IssueLeg, EndLeg, InsertRow, WorkerActs, ConsumerActs, W.Act;
    match a {
      case Wallet(act) => if External(act) { WalletKeeps(s, act); }
      case NewSaga(_, _) => OtherKeeps(s, a);
      case CacheAnswers(_, _) => LookupKeeps(s, a);
      case LoadAnswers(_, _) => LookupKeeps(s, a);
      case RowAnswers(_, _, _) => LookupKeeps(s, a);
      case CacheFills(_, _) => LookupKeeps(s, a);
      case Issue(i, now) => if AtLeg(s.transfers, i) && !s.transfers.sagas[i].issued { IssueActKeeps(s, i, now); }
      case End(i, ending, now) => if MayEnd(s, i, ending) { EndActKeeps(s, i, ending, now); }
      case InsertAnswers(i, eventId, at, fault) =>
        if Live(s.transfers, i) && s.transfers.sagas[i].saga.pc.Inserting? && s.transfers.sagas[i].saga.tr.Some? {
          InsertRowKeeps(s, i, eventId, at, fault);
        }
      case Die(_) => OtherKeeps(s, a);
      case Expire(_) => OtherKeeps(s, a);
      case Work(w, work) => WorkKeeps(s, w, work);
      case Consume(c, consume) => ConsumeKeeps(s, c, consume);
    }
  }

  lemma EmptyOk()
    ensures Inv(Empty)
  {
    W.InvHolds([]);
  }

  lemma {:induction false} InvHolds(run: seq<Action>)
    ensures Inv(Exec(run))
    decreases |run|
  {
    hide Inv, Act;
    if run == [] {
      EmptyOk();
    } else {
      InvHolds(run[..|run| - 1]);
      ActKeepsInv(Exec(run[..|run| - 1]), run[|run| - 1]);
    }
  }

  lemma OneMore(run: seq<Action>, a: Action)
    ensures Exec(run + [a]) == Act(Exec(run), a)
  {
    hide Act;
    assert (run + [a])[..|run|] == run;
  }
}
