/**
  Wallet balances and ledger entries, in 64-bit arithmetic that wraps as Go's does,
  beside the exact sums an accountant would write down.
 */
module Ledger {
  import opened Wrappers
  import opened Keys

  const MaxInt64: int := 0x7FFF_FFFF_FFFF_FFFF
  const TwoTo64: int := 0x1_0000_0000_0000_0000

  type int64 = x: int | -MaxInt64 - 1 <= x <= MaxInt64

  // Only equality matters for these identifiers.
  type WalletId = nat
  type EntryId = nat

  datatype EntryType = Debit | Credit

  datatype Balance = Balance(minor: int64, version: int64)

  datatype Entry = Entry(id: EntryId, wallet: WalletId, transfer: TransferId,
                         typ: EntryType, amount: int64, key: Key)

  datatype Error =
    | InvalidAmount
    | InvalidArgument
    | InsufficientFunds
    | NotFound
    | VersionConflict
    | RetriesExhausted
    | AlreadyExists
    | Rejected      // a check constraint or a numeric overflow inside the database
    | Unavailable   // any failure of the connection or of the commit

  function Wrap(x: int): (r: int64)
    ensures -MaxInt64 - 1 <= x <= MaxInt64 ==> r == x
    ensures MaxInt64 < x <= 2 * MaxInt64 ==> r < 0
  {
    var m := x % TwoTo64;
    if m > MaxInt64 then m - TwoTo64 else m
  }

  function ApplyCredit(b: Balance, amount: int64): Result<Balance, Error> {
    if amount <= 0 then Err(InvalidAmount)
    else Ok(Balance(Wrap(b.minor + amount), Wrap(b.version + 1)))
  }

  function ApplyDebit(b: Balance, amount: int64): Result<Balance, Error> {
    if amount <= 0 then Err(InvalidAmount)
    else if b.minor < amount then Err(InsufficientFunds)
    else Ok(Balance(Wrap(b.minor - amount), Wrap(b.version + 1)))
  }

  function Apply(typ: EntryType, b: Balance, amount: int64): Result<Balance, Error> {
    match typ
    case Credit => ApplyCredit(b, amount)
    case Debit => ApplyDebit(b, amount)
  }

  /******* The exact account: unbounded sums over the ledger *******/

  function Delta(e: Entry): int {
    if e.typ == Credit then e.amount as int else -(e.amount as int)
  }

  function Net(l: seq<Entry>, w: WalletId): int {
    if l == [] then 0
    else Net(l[..|l| - 1], w) + if l[|l| - 1].wallet == w then Delta(l[|l| - 1]) else 0
  }

  function Moves(l: seq<Entry>, w: WalletId): nat {
    if l == [] then 0
    else Moves(l[..|l| - 1], w) + if l[|l| - 1].wallet == w then 1 else 0
  }

  // The serial wallet: every entry applied, in commit order, to the balance before it.
  function Replay(l: seq<Entry>, w: WalletId): Result<Balance, Error> {
    if l == [] then Ok(Balance(0, 0))
    else
      var before := Replay(l[..|l| - 1], w);
      if before.Err? || l[|l| - 1].wallet != w then before
      else Apply(l[|l| - 1].typ, before.value, l[|l| - 1].amount)
  }

  ghost predicate Positive(l: seq<Entry>) {
    forall i :: 0 <= i < |l| ==> l[i].amount > 0
  }

  // No prefix of the ledger ever overdraws the wallet or leaves the 64-bit range.
  ghost predicate Solvent(l: seq<Entry>, w: WalletId) {
    forall n :: 0 <= n <= |l| ==> 0 <= Net(l[..n], w) <= MaxInt64
  }

  lemma PrefixOfPrefix<T>(l: seq<T>, n: nat, m: nat)
    requires n <= m <= |l|
    ensures l[..m][..n] == l[..n]
  {
  }

  lemma SolventPrefix(l: seq<Entry>, w: WalletId, n: nat)
    requires Solvent(l, w) && n <= |l|
    ensures Solvent(l[..n], w)
  {
    forall m | 0 <= m <= n
      ensures 0 <= Net(l[..n][..m], w) <= MaxInt64
    {
      PrefixOfPrefix(l, m, n);
    }
  }

  lemma {:induction false} MovesGrow(l: seq<Entry>, w: WalletId, n: nat)
    requires n <= |l|
    ensures Moves(l[..n], w) <= Moves(l, w)
    ensures Moves(l, w) - Moves(l[..n], w) <= |l| - n
    decreases |l|
  {
    if n == |l| {
      assert l[..n] == l;
    } else {
      MovesGrow(l[..|l| - 1], w, n);
      PrefixOfPrefix(l, n, |l| - 1);
    }
  }

  // A wallet whose version has not moved has not changed at all.
  lemma {:induction false} QuietSuffix(l: seq<Entry>, w: WalletId, n: nat)
    requires n <= |l|
    requires Moves(l[..n], w) == Moves(l, w)
    ensures Net(l[..n], w) == Net(l, w)
    decreases |l|
  {
    if n == |l| {
      assert l[..n] == l;
    } else {
      MovesGrow(l[..|l| - 1], w, n);
      PrefixOfPrefix(l, n, |l| - 1);
      QuietSuffix(l[..|l| - 1], w, n);
    }
  }

  // The wrapping replay never fails and never wraps on a ledger that stays solvent.
  lemma {:induction false} ReplayIsExact(l: seq<Entry>, w: WalletId)
    requires Positive(l) && Solvent(l, w) && Moves(l, w) <= MaxInt64
    ensures 0 <= Net(l, w) <= MaxInt64
    ensures Replay(l, w) == Ok(Balance(Net(l, w), Moves(l, w)))
    decreases |l|
  {
    if l != [] {
      SolventPrefix(l, w, |l| - 1);
      ReplayIsExact(l[..|l| - 1], w);
      assert l[..|l|] == l;
      assert 0 <= Net(l[..|l|], w) <= MaxInt64;
    }
  }

  // The store's only guard on a balance is the check that it is not negative.
  ghost predicate NeverNegative(l: seq<Entry>, w: WalletId) {
    forall n :: 0 <= n <= |l| ==> Replay(l[..n], w).Ok? && Replay(l[..n], w).value.minor >= 0
  }

  // That guard, on the wrapped balances, is as good as exact arithmetic.
  lemma {:induction false} CheckedReplayIsSolvent(l: seq<Entry>, w: WalletId)
    requires Positive(l) && Moves(l, w) <= MaxInt64 && NeverNegative(l, w)
    ensures Solvent(l, w)
    decreases |l|
  {
    if l == [] {
    } else {
      var init := l[..|l| - 1];
      forall n | 0 <= n <= |init| ensures init[..n] == l[..n] {
        PrefixOfPrefix(l, n, |l| - 1);
      }
      CheckedReplayIsSolvent(init, w);
      ReplayIsExact(init, w);
      assert l[..|l|] == l;
      assert Replay(l[..|l|], w).value.minor >= 0;
      forall n | 0 <= n <= |l|
        ensures 0 <= Net(l[..n], w) <= MaxInt64
      {
        if n < |l| {
          assert init[..n] == l[..n];
        }
      }
    }
  }

  lemma WrapCheckIffSolvent(l: seq<Entry>, w: WalletId)
    requires Positive(l) && Moves(l, w) <= MaxInt64
    ensures NeverNegative(l, w) <==> Solvent(l, w)
  {
    if Solvent(l, w) {
      forall n | 0 <= n <= |l|
        ensures Replay(l[..n], w).Ok? && Replay(l[..n], w).value.minor >= 0
      {
        SolventPrefix(l, w, n);
        MovesGrow(l, w, n);
        ReplayIsExact(l[..n], w);
      }
    }
    if NeverNegative(l, w) {
      CheckedReplayIsSolvent(l, w);
    }
  }
}
