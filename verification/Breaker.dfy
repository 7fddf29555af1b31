/**
  The consecutive-failure circuit breaker, against a specification over the trace of
  outcomes reported to it. Times are counted from Go's zero time, so none is negative.
 */
module Breaker {

  const DefaultThreshold: nat := 5
  const DefaultCooldown: nat := 5_000_000_000

  // An outcome, whose call it was, and for a failure the time it was reported.
  datatype Signal = Succeeded(owner: nat) | Failed(owner: nat, at: nat)

  /******* Rounds of k: how many of n failures completed one *******/

  lemma DivideByRounds(n: nat, k: nat)
    requires k > 0
    ensures n == (n / k) * k + n % k
    ensures n % k + 1 < k ==> (n + 1) / k == n / k && (n + 1) % k == n % k + 1
    ensures n % k + 1 == k ==> (n + 1) % k == 0 && ((n + 1) / k) * k == n + 1
  {
    var q, r := n / k, n % k;
    assert n == q * k + r;
    if r + 1 < k {
      Unique(n + 1, k, q, r + 1);
    } else {
      assert (q + 1) * k == q * k + k;
      Unique(n + 1, k, q + 1, 0);
    }
  }

  lemma Unique(n: nat, k: nat, q: nat, r: nat)
    requires k > 0 && n == q * k + r && r < k
    ensures n / k == q && n % k == r
  {
    var q', r' := n / k, n % k;
    assert n == q' * k + r';
    assert (q - q') * k == r' - r;
    Spread(q - q', k);
  }

  lemma Spread(d: int, k: nat)
    ensures d >= 1 ==> d * k >= k
    ensures d <= -1 ==> d * k + k <= 0
  {
  }

  lemma RoundBounds(n: nat, k: nat)
    requires k > 0
    ensures 0 <= (n / k) * k <= n
    ensures n >= k <==> (n / k) * k >= k
    ensures n < k ==> (n / k) * k == 0
  {
  }

  function Completed(n: nat, k: nat): (r: nat)
    requires k > 0
    ensures r <= n && (n >= k <==> r >= k) && (n < k ==> r == 0)
  {
    RoundBounds(n, k);
    (n / k) * k
  }

  function Uncompleted(n: nat, k: nat): (r: nat)
    requires k > 0
    ensures r < k && (n == 0 ==> r == 0)
  {
    n % k
  }

  lemma OneMore(n: nat, k: nat)
    requires k > 0
    ensures Uncompleted(n, k) + 1 < k ==>
              Completed(n + 1, k) == Completed(n, k) && Uncompleted(n + 1, k) == Uncompleted(n, k) + 1
    ensures Uncompleted(n, k) + 1 >= k ==> Completed(n + 1, k) == n + 1 && Uncompleted(n + 1, k) == 0
  {
    DivideByRounds(n, k);
  }

  /******* The specification: what the trace says *******/

  // The failures since the last success, oldest first.
  function Streak(trace: seq<Signal>): (r: seq<Signal>)
    ensures |r| <= |trace| && r == trace[|trace| - |r|..]
    ensures forall i :: 0 <= i < |r| ==> r[i].Failed?
    ensures |r| < |trace| ==> trace[|trace| - |r| - 1].Succeeded?
  {
    if trace == [] || trace[|trace| - 1].Succeeded? then []
    else Streak(trace[..|trace| - 1]) + [trace[|trace| - 1]]
  }

  // With n failures since the last success, refused from the last completed round of
  // threshold failures until the cooldown after its last failure has passed.
  ghost predicate Refuses(trace: seq<Signal>, now: nat, threshold: nat, cooldown: nat)
    requires threshold > 0
  {
    var s := Streak(trace);
    var n := |s|;
    n >= threshold && now < s[Completed(n, threshold) - 1].at + cooldown
  }

  /******* The implementation's two fields *******/

  datatype State = State(failures: nat, openUntil: nat)

  function Report(s: State, x: Signal, threshold: nat, cooldown: nat): State {
    match x
    case Succeeded(_) => State(0, 0)
    case Failed(_, at) =>
      if s.failures + 1 >= threshold then State(0, at + cooldown) else s.(failures := s.failures + 1)
  }

  function Reports(trace: seq<Signal>, threshold: nat, cooldown: nat): State {
    if trace == [] then State(0, 0)
    else Report(Reports(trace[..|trace| - 1], threshold, cooldown), trace[|trace| - 1], threshold, cooldown)
  }

  // Both fields, in terms of the failures since the last success: the counter is their number
  // modulo the threshold, the deadline belongs to the last completed round of them.
  ghost predicate Fields(s: seq<Signal>, st: State, threshold: nat, cooldown: nat)
    requires threshold > 0 && forall i :: 0 <= i < |s| ==> s[i].Failed?
  {
    var round := Completed(|s|, threshold);
    && st.failures == Uncompleted(|s|, threshold)
    && st.openUntil == if round == 0 then 0 else s[round - 1].at + cooldown
  }

  lemma FailureKeepsFields(s: seq<Signal>, x: Signal, st: State, threshold: nat, cooldown: nat)
    requires threshold > 0 && (forall i :: 0 <= i < |s| ==> s[i].Failed?) && x.Failed?
    requires Fields(s, st, threshold, cooldown)
    ensures Fields(s + [x], Report(st, x, threshold, cooldown), threshold, cooldown)
  {
    OneMore(|s|, threshold);
    hide Completed, Uncompleted;
  }

  lemma {:induction false} FieldsFollowTrace(trace: seq<Signal>, threshold: nat, cooldown: nat)
    requires threshold > 0
    ensures Fields(Streak(trace), Reports(trace, threshold, cooldown), threshold, cooldown)
    decreases |trace|
  {
    NoFailures(threshold, cooldown);
    hide Fields;
    if trace != [] {
      var init, x := trace[..|trace| - 1], trace[|trace| - 1];
      FieldsFollowTrace(init, threshold, cooldown);
      if x.Failed? {
        FailureKeepsFields(Streak(init), x, Reports(init, threshold, cooldown), threshold, cooldown);
      }
    }
  }

  lemma NoFailures(threshold: nat, cooldown: nat)
    requires threshold > 0
    ensures Fields([], State(0, 0), threshold, cooldown)
  {
  }

  lemma RefusalAt(trace: seq<Signal>, now: nat, threshold: nat, cooldown: nat)
    requires threshold > 0
    ensures var s := Streak(trace);
            var round := Completed(|s|, threshold);
            Refuses(trace, now, threshold, cooldown) <==> round > 0 && now < s[round - 1].at + cooldown
  {
    hide Completed, Streak;
  }

  lemma DeadlineIsRefusal(trace: seq<Signal>, now: nat, threshold: nat, cooldown: nat)
    requires threshold > 0
    ensures now < Reports(trace, threshold, cooldown).openUntil <==> Refuses(trace, now, threshold, cooldown)
  {
    hide Completed, Uncompleted, Reports, Streak, Refuses;
    FieldsFollowTrace(trace, threshold, cooldown);
    RefusalAt(trace, now, threshold, cooldown);
  }

  /** The breaker itself; the ghost trace is everything reported to it. */
  class Circuit {
    var failures: nat
    var openUntil: nat
    const threshold: nat
    const cooldown: nat
    ghost var trace: seq<Signal>

    ghost predicate Valid()
      reads this
    {
      threshold > 0 && State(failures, openUntil) == Reports(trace, threshold, cooldown)
    }

    constructor (threshold: int, cooldown: int)
      ensures Valid() && trace == []
      ensures this.threshold == if threshold <= 0 then 5 else threshold
      ensures this.cooldown == if cooldown <= 0 then 5_000_000_000 else cooldown
    {
      this.threshold := if threshold <= 0 then DefaultThreshold else threshold;
      this.cooldown := if cooldown <= 0 then DefaultCooldown else cooldown;
      failures, openUntil, trace := 0, 0, [];
    }

    method Allow(now: nat) returns (ok: bool)
      requires Valid()
      ensures ok <==> !Refuses(trace, now, threshold, cooldown)
    {
      DeadlineIsRefusal(trace, now, threshold, cooldown);
      ok := !(now < openUntil);
    }

    method Success(ghost owner: nat)
      requires Valid()
      modifies this
      ensures Valid() && trace == old(trace) + [Succeeded(owner)]
      ensures failures == 0 && openUntil == 0
    {
      failures, openUntil := 0, 0;
      trace := trace + [Succeeded(owner)];
      assert trace[..|trace| - 1] == old(trace);
    }

    method Failure(now: nat, ghost owner: nat)
      requires Valid()
      modifies this
      ensures Valid() && trace == old(trace) + [Failed(owner, now)]
    {
      failures := failures + 1;
      if failures >= threshold {
        openUntil := now + cooldown;
        failures := 0;
      }
      trace := trace + [Failed(owner, now)];
      assert trace[..|trace| - 1] == old(trace);
    }

    // Other calls of the process report their outcomes.
    method Interfere()
      requires Valid()
      modifies this
      ensures Valid() && old(trace) <= trace
    {
      var steps: nat := *;
      while steps > 0
        invariant Valid() && old(trace) <= trace
        decreases steps
      {
        var succeeded: bool, now: nat, other: nat := *, *, *;
        if succeeded {
          Success(other);
        } else {
          Failure(now, other);
        }
        steps := steps - 1;
      }
    }
  }

  /******* How many of the failures are whose *******/

  function CountOf(trace: seq<Signal>, owner: nat): nat {
    if trace == [] then 0
    else CountOf(trace[..|trace| - 1], owner)
         + if trace[|trace| - 1].Failed? && trace[|trace| - 1].owner == owner then 1 else 0
  }

  function CountOfOthers(trace: seq<Signal>, owner: nat): nat {
    if trace == [] then 0
    else CountOfOthers(trace[..|trace| - 1], owner)
         + if trace[|trace| - 1].Failed? && trace[|trace| - 1].owner != owner then 1 else 0
  }

  lemma {:induction false} CountsAddUp(trace: seq<Signal>, owner: nat)
    requires forall i :: 0 <= i < |trace| ==> trace[i].Failed?
    ensures CountOf(trace, owner) + CountOfOthers(trace, owner) == |trace|
    decreases |trace|
  {
    if trace != [] {
      CountsAddUp(trace[..|trace| - 1], owner);
    }
  }

  lemma {:induction false} CountOfSuffix(trace: seq<Signal>, n: nat, owner: nat)
    requires n <= |trace|
    ensures CountOf(trace[n..], owner) <= CountOf(trace, owner)
    decreases |trace|
  {
    if n == |trace| {
    } else {
      var init := trace[..|trace| - 1];
      CountOfSuffix(init, n, owner);
      assert trace[n..][..|trace| - n - 1] == init[n..];
    }
  }

  lemma RefusalIsLong(trace: seq<Signal>, now: nat, threshold: nat, cooldown: nat)
    requires threshold > 0 && Refuses(trace, now, threshold, cooldown)
    ensures |Streak(trace)| >= threshold
  {
    hide Completed, Streak;
  }

  // The failures since the last success are later than any success.
  lemma StreakIsLater(trace: seq<Signal>, mark: nat)
    requires 0 < mark <= |trace| && trace[mark - 1].Succeeded?
    ensures var s := Streak(trace);
            |s| <= |trace| - mark && trace[mark..][|trace[mark..]| - |s|..] == s
  {
    var s := Streak(trace);
    hide Streak;
    var start := |trace| - |s|;
    assert forall k :: start <= k < |trace| ==> trace[k] == s[k - start];
  }

  // Of an unbroken run of failures at the end, all but the owner's are others'.
  lemma OthersInStreak(later: seq<Signal>, s: seq<Signal>, owner: nat)
    requires |s| <= |later| && later[|later| - |s|..] == s
    requires forall i :: 0 <= i < |s| ==> s[i].Failed?
    ensures CountOfOthers(s, owner) >= |s| - CountOf(later, owner)
  {
    hide CountOf, CountOfOthers;
    CountsAddUp(s, owner);
    CountOfSuffix(later, |later| - |s|, owner);
  }

  // If a call's success is followed by at most one failure of its own owner, then a breaker
  // that refuses afterwards has seen threshold - 1 failures of others in an unbroken run.
  lemma RefusalNeedsOthers(trace: seq<Signal>, mark: nat, owner: nat, now: nat, threshold: nat, cooldown: nat)
    requires threshold > 0 && 0 < mark <= |trace| && trace[mark - 1].Succeeded?
    requires CountOf(trace[mark..], owner) <= 1
    requires Refuses(trace, now, threshold, cooldown)
    ensures var s := Streak(trace);
            && |trace| - |s| >= mark
            && s == trace[|trace| - |s|..]
            && (forall i :: 0 <= i < |s| ==> s[i].Failed?)
            && CountOfOthers(s, owner) >= threshold - 1
            && (CountOf(trace[mark..], owner) == 0 ==> CountOfOthers(s, owner) >= threshold)
  {
    hide Refuses, Completed, Streak, CountOf, CountOfOthers;
    RefusalIsLong(trace, now, threshold, cooldown);
    StreakIsLater(trace, mark);
    OthersInStreak(trace[mark..], Streak(trace), owner);
  }
}
