/**
  Where the money is: what the wallets hold, against deposits from outside and the legs of
  every transfer attempt; first with nothing assumed, then when a failed call has no effect.
 */
module Accounting {
  import opened Wrappers
  import opened Keys
  import L = Ledger
  import WS = WalletStore
  import W = WalletRuns
  import T = TransferStore
  import S = Saga
  import opened Platform
  import opened PlatformInv
  import opened PlatformSteps

  // What callers other than the transfer service have put in, less what they took out.
  function Deposits(l: seq<L.Entry>): int {
    if l == [] then 0
    else Deposits(l[..|l| - 1]) + if l[|l| - 1].key.Named? then L.Delta(l[|l| - 1]) else 0
  }

  function Part(l: seq<L.Entry>, tr: T.Transfer, leg: Leg): int {
    if WS.HasKey(l, LegKey(tr.id, leg)) then tr.amount else 0
  }

  // What one attempt has added to the money in the wallets.
  function Effect(l: seq<L.Entry>, r: Running): int {
    if r.saga.tr.None? then 0
    else Part(l, r.saga.tr.value, CreditLeg) + Part(l, r.saga.tr.value, CompensateLeg) - Part(l, r.saga.tr.value,
        DebitLeg)
  }

  function Effects(l: seq<L.Entry>, sagas: seq<Running>): int {
    if sagas == [] then 0 else Effects(l, sagas[..|sagas| - 1]) + Effect(l, sagas[|sagas| - 1])
  }

  lemma {:induction false} NoEffects(sagas: seq<Running>)
    ensures Effects([], sagas) == 0
    decreases |sagas|
  {
    if sagas != [] {
      NoEffects(sagas[..|sagas| - 1]);
    }
  }

  lemma {:induction false} SameEffects(l: seq<L.Entry>, l': seq<L.Entry>, sagas: seq<Running>)
    requires forall i :: 0 <= i < |sagas| ==> Effect(l, sagas[i]) == Effect(l', sagas[i])
    ensures Effects(l, sagas) == Effects(l', sagas)
    decreases |sagas|
  {
    hide Effect;
    if sagas != [] {
      SameEffects(l, l', sagas[..|sagas| - 1]);
    }
  }

  lemma {:induction false} OneEffect(l: seq<L.Entry>, l': seq<L.Entry>, sagas: seq<Running>, k: nat, d: int)
    requires k < |sagas| && Effect(l', sagas[k]) == Effect(l, sagas[k]) + d
    requires forall i :: 0 <= i < |sagas| && i != k ==> Effect(l, sagas[i]) == Effect(l', sagas[i])
    ensures Effects(l', sagas) == Effects(l, sagas) + d
    decreases |sagas|
  {
    hide Effect;
    var init := sagas[..|sagas| - 1];
    if k == |sagas| - 1 {
      SameEffects(l, l', init);
    } else {
      OneEffect(l, l', init, k, d);
    }
  }

  lemma AppendedKey(l: seq<L.Entry>, e: L.Entry, key: Key)
    ensures WS.HasKey(l + [e], key) <==> WS.HasKey(l, key) || e.key == key
  {
    if WS.HasKey(l, key) {
      WS.HasKeyIsStable(l, l + [e], key);
    }
    assert (l + [e])[|l|] == e;
  }

  lemma OtherKeyEffect(l: seq<L.Entry>, e: L.Entry, r: Running)
    requires r.saga.tr.Some? ==> forall leg :: e.key != LegKey(r.saga.tr.value.id, leg)
    ensures Effect(l + [e], r) == Effect(l, r)
  {
    if r.saga.tr.Some? {
      AppendedKey(l, e, LegKey(r.saga.tr.value.id, DebitLeg));
      AppendedKey(l, e, LegKey(r.saga.tr.value.id, CreditLeg));
      AppendedKey(l, e, LegKey(r.saga.tr.value.id, CompensateLeg));
      hide WS.HasKey;
    }
  }

  lemma OwnKeyEffect(l: seq<L.Entry>, e: L.Entry, r: Running, leg: Leg)
    requires r.saga.tr.Some? && e.key == LegKey(r.saga.tr.value.id, leg) && !WS.HasKey(l, e.key)
    requires e.amount == r.saga.tr.value.amount && e.typ == S.LegRequest(r.saga.tr.value, leg).typ
    ensures Effect(l + [e], r) == Effect(l, r) + L.Delta(e)
  {
    AppendedKey(l, e, LegKey(r.saga.tr.value.id, DebitLeg));
    AppendedKey(l, e, LegKey(r.saga.tr.value.id, CreditLeg));
    AppendedKey(l, e, LegKey(r.saga.tr.value.id, CompensateLeg));
    hide WS.HasKey;
  }

  // An entry under a leg's key is that leg of the transfer its owner made.
  lemma EntryOfLeg(w: W.Sys, t: Transfers, n: nat)
    requires WalletOk(w) && SagasOk(w, t) && n < |w.db.ledger| && w.db.ledger[n].key.LegKey?
    ensures var e := w.db.ledger[n];
            && e.key.transfer in t.owner && t.owner[e.key.transfer] < |t.sagas|
            && var r := t.sagas[t.owner[e.key.transfer]];
               && r.saga.tr.Some? && r.saga.tr.value.id == e.key.transfer
               && e.amount == r.saga.tr.value.amount
               && e.typ == S.LegRequest(r.saga.tr.value, e.key.leg).typ
  {
    hide W.Inv, RowOk, SagaOk;
    assert Stems(w, w.db.ledger[n]);
  }

  lemma OwnerIsOnly(w: W.Sys, t: Transfers, i: nat, id: TransferId)
    requires SagasOk(w, t) && i < |t.sagas| && t.sagas[i].saga.tr.Some? && t.sagas[i].saga.tr.value.id == id
    ensures id in t.owner && t.owner[id] == i
  {
  }

  lemma EntryEffect(w: W.Sys, t: Transfers, n: nat)
    requires WalletOk(w) && SagasOk(w, t) && n < |w.db.ledger|
    ensures var l, e := w.db.ledger[..n], w.db.ledger[n];
            Effects(l + [e], t.sagas) == Effects(l, t.sagas) + if e.key.Named? then 0 else L.Delta(e)
  {
    var l, e := w.db.ledger[..n], w.db.ledger[n];
    assert !WS.HasKey(l, e.key) by { FreshKey(w, n); }
    hide WalletOk, SagasOk, Effects, Effect, WS.HasKey, L.Delta, S.LegRequest;
    if e.key.Named? {
      forall i | 0 <= i < |t.sagas| ensures Effect(l, t.sagas[i]) == Effect(l + [e], t.sagas[i]) {
        OtherKeyEffect(l, e, t.sagas[i]);
      }
      SameEffects(l, l + [e], t.sagas);
    } else {
      EntryOfLeg(w, t, n);
      var k := t.owner[e.key.transfer];
      forall i | 0 <= i < |t.sagas| && i != k ensures Effect(l, t.sagas[i]) == Effect(l + [e], t.sagas[i]) {
        if t.sagas[i].saga.tr.Some? && t.sagas[i].saga.tr.value.id == e.key.transfer {
          OwnerIsOnly(w, t, i, e.key.transfer);
        }
        OtherKeyEffect(l, e, t.sagas[i]);
      }
      OwnKeyEffect(l, e, t.sagas[k], e.key.leg);
      OneEffect(l, l + [e], t.sagas, k, L.Delta(e));
    }
  }

  lemma FreshKey(w: W.Sys, n: nat)
    requires WalletOk(w) && n < |w.db.ledger|
    ensures !WS.HasKey(w.db.ledger[..n], w.db.ledger[n].key)
  {
  }

  lemma {:induction false} PrefixAccount(w: W.Sys, t: Transfers, n: nat)
    requires WalletOk(w) && SagasOk(w, t) && n <= |w.db.ledger|
    ensures W.Total(w.db.ledger[..n]) == Deposits(w.db.ledger[..n]) + Effects(w.db.ledger[..n], t.sagas)
    decreases n
  {
    hide WalletOk, SagasOk, Effects, Effect, L.Delta;
    if n == 0 {
      NoEffects(t.sagas);
    } else {
      PrefixAccount(w, t, n - 1);
      EntryEffect(w, t, n - 1);
      assert w.db.ledger[..n] == w.db.ledger[..n - 1] + [w.db.ledger[n - 1]];
    }
  }

  // In every run, with every failure, crash and lost reply: all wallets together hold what
  // came from outside plus, for each attempt, its amount once for its credit and once for its
  // compensation, less once for its debit; and no attempt is compensated without its debit.
  lemma MoneyIsAccountedFor(run: seq<Action>)
    ensures var s := Exec(run);
            && W.Holdings(s.wallet.db) == Deposits(s.wallet.db.ledger) + Effects(s.wallet.db.ledger, s.transfers.sagas)
            && forall i :: 0 <= i < |s.transfers.sagas| && s.transfers.sagas[i].saga.tr.Some? ==>
                 var id := s.transfers.sagas[i].saga.tr.value.id;
                 Booked(s.wallet, id, CompensateLeg) ==> Booked(s.wallet, id, DebitLeg)
  {
    hide Exec, Effects, Deposits, SagasOk, PipeOk, StoresOk;
    InvHolds(run);
    var s := Exec(run);
    W.HoldingsAreTheLedger(s.wallet.db);
    PrefixAccount(s.wallet, s.transfers, |s.wallet.db.ledger|);
    assert s.wallet.db.ledger[..|s.wallet.db.ledger|] == s.wallet.db.ledger;
    hide WalletOk, W.Holdings, W.Total, Booked;
    forall i | 0 <= i < |s.transfers.sagas| && s.transfers.sagas[i].saga.tr.Some?
      ensures var id := s.transfers.sagas[i].saga.tr.value.id;
              Booked(s.wallet, id, CompensateLeg) ==> Booked(s.wallet, id, DebitLeg)
    {
      CompensatedOnlyIfDebited(s, i);
    }
  }

  lemma CompensatedOnlyIfDebited(s: Sys, i: nat)
    requires Inv(s) && i < |s.transfers.sagas| && s.transfers.sagas[i].saga.tr.Some?
    ensures var id := s.transfers.sagas[i].saga.tr.value.id;
            Booked(s.wallet, id, CompensateLeg) ==> Booked(s.wallet, id, DebitLeg)
  {
  }
}
