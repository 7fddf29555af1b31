/**
  Idempotency keys of the wallet ledger. The transfer service renders three keys
  per transfer id; every other caller names its own. The state machines use the
  structured form, and the lemmas below show that nothing is lost by doing so: the text
  decides the structured key, and the structured key decides the text.
 */
module Keys {
  // The canonical text of a UUID.
  type TransferId = string

  datatype Leg = DebitLeg | CreditLeg | CompensateLeg

  datatype Key = Named(text: string) | LegKey(transfer: TransferId, leg: Leg)

  const Prefix: string := "transfer:"

  function Suffix(leg: Leg): string {
    match leg
    case DebitLeg => ":debit"
    case CreditLeg => ":credit"
    case CompensateLeg => ":debit:compensate"
  }

  function Text(k: Key): string {
    match k
    case Named(text) => text
    case LegKey(t, leg) => Prefix + t + Suffix(leg)
  }

  // Callers outside the transfer service keep off its name space.
  predicate WellNamed(k: Key) {
    k.Named? ==> !(Prefix <= k.text)
  }

  predicate EndsWith(s: string, suffix: string) {
    |suffix| <= |s| && s[|s| - |suffix|..] == suffix
  }

  function Strip(s: string, leg: Leg): TransferId
    requires Prefix <= s && EndsWith(s[|Prefix|..], Suffix(leg))
  {
    s[|Prefix|..|s| - |Suffix(leg)|]
  }

  function Decode(s: string): Key {
    if !(Prefix <= s) then Named(s)
    else
      var rest := s[|Prefix|..];
      if EndsWith(rest, Suffix(DebitLeg)) then LegKey(Strip(s, DebitLeg), DebitLeg)
      else if EndsWith(rest, Suffix(CreditLeg)) then LegKey(Strip(s, CreditLeg), CreditLeg)
      else if EndsWith(rest, Suffix(CompensateLeg)) then LegKey(Strip(s, CompensateLeg), CompensateLeg)
      else Named(s)
  }

  lemma SuffixAt(s: string, suffix: string, k: nat)
    requires EndsWith(s, suffix) && k < |suffix|
    ensures s[|s| - 1 - k] == suffix[|suffix| - 1 - k]
  {
  }

  // No text ends in two of the three suffixes: the last and the sixth letter from the end tell.
  lemma SuffixesDisagree(s: string, a: Leg, b: Leg)
    requires EndsWith(s, Suffix(a)) && EndsWith(s, Suffix(b))
    ensures a == b
  {
    SuffixAt(s, Suffix(a), 0);
    SuffixAt(s, Suffix(b), 0);
    SuffixAt(s, Suffix(a), 5);
    SuffixAt(s, Suffix(b), 5);
  }

  lemma LegTextShape(t: TransferId, leg: Leg)
    ensures Prefix <= Text(LegKey(t, leg))
    ensures EndsWith(Text(LegKey(t, leg))[|Prefix|..], Suffix(leg))
    ensures Strip(Text(LegKey(t, leg)), leg) == t
  {
  }

  lemma DecodeInvertsText(k: Key)
    requires WellNamed(k)
    ensures Decode(Text(k)) == k
  {
    match k
    case Named(_) =>
    case LegKey(t, leg) =>
      LegTextShape(t, leg);
      var s := Text(k);
      var d := Decode(s);
      if d.LegKey? {
        SuffixesDisagree(s[|Prefix|..], d.leg, leg);
      }
  }

  lemma StrippedText(s: string, leg: Leg)
    requires Prefix <= s && EndsWith(s[|Prefix|..], Suffix(leg))
    ensures Text(LegKey(Strip(s, leg), leg)) == s
  {
  }

  lemma TextInvertsDecode(s: string)
    ensures Text(Decode(s)) == s
  {
    var d := Decode(s);
    if d.LegKey? {
      StrippedText(s, d.leg);
    }
  }

  // The store compares texts; the model compares structured keys. They agree.
  lemma TextIsInjective(a: Key, b: Key)
    requires WellNamed(a) && WellNamed(b)
    ensures Text(a) == Text(b) <==> a == b
  {
    DecodeInvertsText(a);
    DecodeInvertsText(b);
  }

  // The three keys of a transfer, letter by letter: the compensation's is the debit's with a word more.
  lemma KeysOfATransfer(t: TransferId)
    ensures Text(LegKey(t, DebitLeg)) == "transfer:" + t + ":debit"
    ensures Text(LegKey(t, CreditLeg)) == "transfer:" + t + ":credit"
    ensures Text(LegKey(t, CompensateLeg)) == Text(LegKey(t, DebitLeg)) + ":compensate"
  {
    assert Suffix(CompensateLeg) == Suffix(DebitLeg) + ":compensate";
  }
}
