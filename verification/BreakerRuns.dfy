/**
  The breaker and the saga together: when can a compensation be refused? Each process has
  one breaker for all its Create calls, so only other calls can have opened it.
 */
module BreakerRuns {
  import opened Wrappers
  import opened Keys
  import C = WalletCalls
  import W = WalletRuns
  import B = Breaker
  import opened WalletClient
  import T = TransferStore
  import S = Saga
  import R = OutboxRuns
  import opened Platform
  import opened PlatformSteps

  // How many failures of its own call i can have reported since its debit succeeded.
  function OwnFailures(pc: S.Pc): nat {
    if pc.Compensating? && pc.cause != CircuitOpen then 1 else 0
  }

  // Past its debit, a call's mark stands behind the success of that debit in the trace.
  ghost predicate Marked(trace: seq<B.Signal>, r: Running, i: nat) {
    r.saga.pc.Crediting? || r.saga.pc.Compensating? ==>
      && 0 < r.mark <= |trace|
      && trace[r.mark - 1] == B.Succeeded(i)
      && B.CountOf(trace[r.mark..], i) <= OwnFailures(r.saga.pc)
  }

  ghost predicate MarksOk(t: Transfers) {
    forall i :: 0 <= i < |t.sagas| ==> Marked(TraceOf(t, t.sagas[i].proc), t.sagas[i], i)
  }

  lemma AppendedCount(trace: seq<B.Signal>, mark: nat, x: B.Signal, i: nat)
    requires mark <= |trace|
    ensures B.CountOf((trace + [x])[mark..], i) == B.CountOf(trace[mark..], i) + if x.Failed? && x.owner == i then 1
        else 0
  {
    assert (trace + [x])[mark..] == trace[mark..] + [x];
    assert (trace[mark..] + [x])[..|trace| - mark] == trace[mark..];
  }

  // Another call of the same process reports an outcome.
  lemma OthersMarks(trace: seq<B.Signal>, r: Running, i: nat, j: nat, o: Outcome, now: nat)
    requires Marked(trace, r, i) && i != j
    ensures Marked(trace + Signals(o, j, now), r, i)
  {
    if r.saga.pc.Crediting? || r.saga.pc.Compensating? {
      var x := Signals(o, j, now);
      assert x == [] ==> trace + x == trace;
      if x != [] {
        AppendedCount(trace, r.mark, x[0], i);
        assert trace + x == trace + [x[0]];
      }
    }
  }

  // The call's own leg ends.
  lemma OwnMarks(trace: seq<B.Signal>, r: Running, i: nat, o: Outcome, now: nat)
    requires Marked(trace, r, i) && S.LegOf(r.saga.pc).Some?
    ensures var trace' := trace + Signals(o, i, now);
            Marked(trace', r.(saga := S.On(r.saga, S.WalletSaid(MapErr(o))), issued := false,
                              mark := if r.saga.pc.Debiting? && o.Replied? then |trace'| else r.mark), i)
  {
    var x := Signals(o, i, now);
    var trace' := trace + x;
    if r.saga.pc.Debiting? {
      assert trace'[|trace'|..] == [];
    } else if r.saga.pc.Crediting? {
      assert x == [] ==> trace' == trace;
      if x != [] {
        AppendedCount(trace, r.mark, x[0], i);
        assert trace' == trace + [x[0]];
      }
    }
  }

  lemma EndKeepsMarks(s: Sys, i: nat, ending: Ending, now: nat)
    requires MarksOk(s.transfers) && MayEnd(s, i, ending)
    ensures MarksOk(EndLeg(s, i, ending, now).transfers)
  {
    var t, t' := s.transfers, EndLeg(s, i, ending, now).transfers;
    var o := OutcomeOf(s, i, ending);
    OwnMarks(TraceOf(t, t.sagas[i].proc), t.sagas[i], i, o, now);
    hide Marked, S.On, W.Act, OutcomeOf, Signals;
    forall j | 0 <= j < |t'.sagas|
      ensures Marked(TraceOf(t', t'.sagas[j].proc), t'.sagas[j], j)
    {
      if j != i && t.sagas[j].proc == t.sagas[i].proc {
        OthersMarks(TraceOf(t, t.sagas[j].proc), t.sagas[j], j, i, o, now);
      }
    }
  }

  // The breakers are left alone, and at most call i moves.
  lemma QuietMarks(t: Transfers, t': Transfers, i: nat)
    requires MarksOk(t) && t'.circuits == t.circuits && |t'.sagas| == |t.sagas|
    requires forall j :: 0 <= j < |t.sagas| && j != i ==> t'.sagas[j] == t.sagas[j]
    requires i < |t.sagas| ==> Marked(TraceOf(t', t'.sagas[i].proc), t'.sagas[i], i)
    ensures MarksOk(t')
  {
  }

  lemma HearKeepsMarks(s: Sys, i: nat, a: S.Answer)
    requires MarksOk(s.transfers) && i < |s.transfers.sagas| && (!a.WalletSaid? || a.err == Some(CircuitOpen))
    requires a.WalletSaid? ==> S.LegOf(s.transfers.sagas[i].saga.pc).Some?
    ensures MarksOk(Hear(s, i, a).transfers)
    ensures Hear(s, i, a).transfers.circuits == s.transfers.circuits
  {
  }

  lemma MarksLookOnlyAt(t: Transfers, t': Transfers)
    requires MarksOk(t) && t'.circuits == t.circuits && t'.sagas == t.sagas
    ensures MarksOk(t')
  {
  }

  lemma HearRowKeepsMarks(s: Sys, i: nat, down: bool, id: TransferId)
    requires MarksOk(s.transfers) && i < |s.transfers.sagas|
    ensures MarksOk(HearRow(s, i, down, id).transfers)
  {
  }

  lemma FillKeepsMarks(s: Sys, i: nat, id: TransferId, stores: bool)
    requires MarksOk(s.transfers) && i < |s.transfers.sagas|
    ensures MarksOk(Fill(s, i, id, stores).transfers)
  {
  }

  lemma InsertKeepsMarks(s: Sys, i: nat, eventId: T.EventId, at: nat, fault: T.Fault)
    requires MarksOk(s.transfers) && i < |s.transfers.sagas| && s.transfers.sagas[i].saga.tr.Some?
    ensures MarksOk(InsertRow(s, i, eventId, at, fault).transfers)
  {
  }

  lemma IssueKeepsMarks(s: Sys, i: nat, now: nat)
    requires MarksOk(s.transfers) && AtLeg(s.transfers, i)
    ensures MarksOk(IssueLeg(s, i, now).transfers)
  {
    HearKeepsMarks(s, i, S.WalletSaid(Some(CircuitOpen)));
    hide B.Refuses, W.Act, S.On, S.LegRequest;
    if !B.Refuses(TraceOf(s.transfers, s.transfers.sagas[i].proc), now, Threshold, Cooldown) {
      QuietMarks(s.transfers, IssueLeg(s, i, now).transfers, i);
    }
  }

  lemma ActKeepsMarks(s: Sys, a: Action)
    requires MarksOk(s.transfers)
    ensures MarksOk(Act(s, a).transfers)
  {
    hide MarksOk, HearRow, Fill, Hear, IssueLeg, EndLeg, InsertRow, W.Act, R.Step, ConsumerStep;
    match a {
      case CacheAnswers(i, down) => if Live(s.transfers, i) { HearKeepsMarks(s, i, CacheAnswer(s, i, down)); }
      case LoadAnswers(i, down) =>
        if Live(s.transfers, i) && s.transfers.sagas[i].saga.pc.Loading? {
          HearKeepsMarks(s, i, LoadAnswer(s, s.transfers.sagas[i].saga.pc.id, down));
        }
      case RowAnswers(i, down, id) => if Live(s.transfers, i) { HearRowKeepsMarks(s, i, down, id); }
      case CacheFills(i, stores) =>
        if Live(s.transfers, i) && s.transfers.sagas[i].saga.pc.FillingReplay? {
          FillKeepsMarks(s, i, s.transfers.sagas[i].saga.pc.found.id, stores);
        } else if Live(s.transfers, i) && s.transfers.sagas[i].saga.tr.Some? {
          FillKeepsMarks(s, i, s.transfers.sagas[i].saga.tr.value.id, stores);
        }
      case Issue(i, now) => if AtLeg(s.transfers, i) { IssueKeepsMarks(s, i, now); }
      case End(i, ending, now) => if MayEnd(s, i, ending) { EndKeepsMarks(s, i, ending, now); }
      case InsertAnswers(i, eventId, at, fault) =>
        if Live(s.transfers, i) && s.transfers.sagas[i].saga.tr.Some? { InsertKeepsMarks(s, i, eventId, at, fault); }
      case NewSaga(_, _) => ArrivalKeepsMarks(s, a);
      case Die(_) => ArrivalKeepsMarks(s, a);
      case _ => MarksLookOnlyAt(s.transfers, Act(s, a).transfers);
    }
  }

  lemma ArrivalKeepsMarks(s: Sys, a: Action)
    requires MarksOk(s.transfers) && (a.NewSaga? || a.Die?)
    ensures MarksOk(Act(s, a).transfers)
  {
  }

  lemma {:induction false} MarksHold(run: seq<Action>)
    ensures MarksOk(Exec(run).transfers)
    decreases |run|
  {
    hide Act, MarksOk;
    if run == [] {
      assert MarksOk(Empty.transfers) by { NoMarks(); }
    } else {
      MarksHold(run[..|run| - 1]);
      ActKeepsMarks(Exec(run[..|run| - 1]), run[|run| - 1]);
    }
  }

  lemma NoMarks()
    ensures MarksOk(Empty.transfers)
  {
  }

  // A call that is past its debit and is refused by its process's breaker finds there an
  // unbroken run of failures, all of them later than its own debit's success, of which at
  // least five are other calls'; at least four if its own credit was sent and failed.
  lemma RefusalIsOthersDoing(run: seq<Action>, i: nat, now: nat)
    requires i < |Exec(run).transfers.sagas|
    requires var pc := Exec(run).transfers.sagas[i].saga.pc; pc.Crediting? || pc.Compensating?
    requires var t := Exec(run).transfers; B.Refuses(TraceOf(t, t.sagas[i].proc), now, Threshold, Cooldown)
    ensures var t := Exec(run).transfers;
            var trace, mark := TraceOf(t, t.sagas[i].proc), t.sagas[i].mark;
            var streak := B.Streak(trace);
            && 0 < mark <= |trace| - |streak| && trace[mark - 1] == B.Succeeded(i)
            && streak == trace[|trace| - |streak|..]
            && (forall k :: 0 <= k < |streak| ==> streak[k].Failed?)
            && B.CountOfOthers(streak, i) >= 4
            && (B.CountOfOthers(streak, i) == 4 ==> OwnFailures(t.sagas[i].saga.pc) == 1)
  {
    MarksHold(run);
    hide Exec, B.Refuses, B.Streak;
    var t := Exec(run).transfers;
    assert Marked(TraceOf(t, t.sagas[i].proc), t.sagas[i], i);
    B.RefusalNeedsOthers(TraceOf(t, t.sagas[i].proc), t.sagas[i].mark, i, now, Threshold, Cooldown);
  }

  // Nobody but i has reported a failure to this process's breaker.
  ghost predicate Alone(t: Transfers, i: nat)
    requires i < |t.sagas|
  {
    var trace := TraceOf(t, t.sagas[i].proc);
    forall k :: 0 <= k < |trace| && trace[k].Failed? ==> trace[k].owner == i
  }

  lemma {:induction false} NoOthers(trace: seq<B.Signal>, i: nat)
    requires forall k :: 0 <= k < |trace| && trace[k].Failed? ==> trace[k].owner == i
    ensures B.CountOfOthers(trace, i) == 0
    decreases |trace|
  {
    if trace != [] {
      NoOthers(trace[..|trace| - 1], i);
    }
  }

  // A leg that is not refused goes out.
  lemma AllowedLegGoesOut(s: Sys, i: nat, now: nat)
    requires AtLeg(s.transfers, i) && !s.transfers.sagas[i].issued
    requires !B.Refuses(TraceOf(s.transfers, s.transfers.sagas[i].proc), now, Threshold, Cooldown)
    ensures var s' := Act(s, Issue(i, now));
            && AtLeg(s'.transfers, i) && s'.transfers.sagas[i].issued
            && s'.transfers.sagas[i] == s.transfers.sagas[i].(issued := true)
            && |s'.transfers.sagas| == |s.transfers.sagas|
            && LegCallOf(s'.transfers.sagas[i]) in s'.wallet.calls
  {
    hide B.Refuses, S.LegRequest, C.Begin;
  }

  lemma AloneMeansAllowed(run: seq<Action>, i: nat, now: nat)
    requires i < |Exec(run).transfers.sagas| && Alone(Exec(run).transfers, i)
    requires var pc := Exec(run).transfers.sagas[i].saga.pc; pc.Crediting? || pc.Compensating?
    ensures var t := Exec(run).transfers; !B.Refuses(TraceOf(t, t.sagas[i].proc), now, Threshold, Cooldown)
  {
    hide Exec, B.Refuses;
    var t := Exec(run).transfers;
    var trace := TraceOf(t, t.sagas[i].proc);
    if B.Refuses(trace, now, Threshold, Cooldown) {
      RefusalIsOthersDoing(run, i, now);
      NoOthers(B.Streak(trace), i);
    }
  }

  // A call whose process serves nobody else gets its credit, and if that fails its
  // compensation, through to the wallet:
  // issuing it puts the request on the wire, whatever the time.
  lemma AloneIsNeverRefused(run: seq<Action>, i: nat, now: nat)
    requires AtLeg(Exec(run).transfers, i) && !Exec(run).transfers.sagas[i].issued
    requires var pc := Exec(run).transfers.sagas[i].saga.pc; pc.Crediting? || pc.Compensating?
    requires Alone(Exec(run).transfers, i)
    ensures var s := Exec(run + [Issue(i, now)]);
            && AtLeg(s.transfers, i) && s.transfers.sagas[i].issued
            && s.transfers.sagas[i].saga == Exec(run).transfers.sagas[i].saga
            && LegCallOf(s.transfers.sagas[i]) in s.wallet.calls
  {
    hide Act, B.Refuses, Alone;
    AloneMeansAllowed(run, i, now);
    AllowedLegGoesOut(Exec(run), i, now);
    assert (run + [Issue(i, now)])[..|run|] == run;
  }

  /******* From the calls that ended to the call that is refused *******/

  // A wallet call of the process has ended for its caller.
  datatype Ended = Ended(outcome: Outcome, call: nat, at: nat)

  ghost function LastEnded(s: Sys, a: Action, proc: nat): seq<Ended> {
    if a.End? && MayEnd(s, a.saga, a.ending) && s.transfers.sagas[a.saga].proc == proc
    then [Ended(OutcomeOf(s, a.saga, a.ending), a.saga, a.now)] else []
  }

  ghost function AllEnded(run: seq<Action>, proc: nat): seq<Ended> {
    if run == [] then []
    else AllEnded(run[..|run| - 1], proc) + LastEnded(Exec(run[..|run| - 1]), run[|run| - 1], proc)
  }

  function Heard(ends: seq<Ended>): seq<B.Signal> {
    if ends == [] then []
    else
      var last := ends[|ends| - 1];
      Heard(ends[..|ends| - 1]) + Signals(last.outcome, last.call, last.at)
  }

  // The calls since the last reply that found the wallet out of reach, oldest first.
  function Losses(ends: seq<Ended>): seq<Ended> {
    if ends == [] || ends[|ends| - 1].outcome.Replied? then []
    else Losses(ends[..|ends| - 1]) + if Unreachable(ends[|ends| - 1].outcome) then [ends[|ends| - 1]] else []
  }

  lemma EndAddsSignals(s: Sys, i: nat, ending: Ending, now: nat, proc: nat)
    requires MayEnd(s, i, ending)
    ensures TraceOf(EndLeg(s, i, ending, now).transfers, proc)
         == TraceOf(s.transfers, proc)
            + if s.transfers.sagas[i].proc == proc then Signals(OutcomeOf(s, i, ending), i, now) else []
  {
    hide S.On, W.Act, OutcomeOf, Signals;
  }

  lemma ActAddsSignals(s: Sys, a: Action, proc: nat)
    ensures TraceOf(Act(s, a).transfers, proc) == TraceOf(s.transfers, proc) + Heard(LastEnded(s, a, proc))
  {
    if a.End? && MayEnd(s, a.saga, a.ending) {
      EndAddsSignals(s, a.saga, a.ending, a.now, proc);
      HeardOne(Ended(OutcomeOf(s, a.saga, a.ending), a.saga, a.now));
      hide EndLeg, OutcomeOf, MayEnd, Signals;
    } else {
      OthersLeaveBreakers(s, a);
      hide Act, MayEnd;
    }
  }

  lemma HeardOne(e: Ended)
    ensures Heard([e]) == Signals(e.outcome, e.call, e.at)
  {
    assert [e][..0] == [];
  }

  lemma OthersLeaveBreakers(s: Sys, a: Action)
    requires !(a.End? && MayEnd(s, a.saga, a.ending))
    ensures Act(s, a).transfers.circuits == s.transfers.circuits
  {
    hide S.On, W.Act, ConsumerStep, R.Step, T.Insert, S.LegRequest, MayEnd;
  }

  lemma {:induction false} HeardJoins(a: seq<Ended>, b: seq<Ended>)
    ensures Heard(a + b) == Heard(a) + Heard(b)
    decreases |b|
  {
    hide Signals;
    if b == [] {
      assert a + b == a;
    } else {
      HeardJoins(a, b[..|b| - 1]);
      assert (a + b)[..|a + b| - 1] == a + b[..|b| - 1];
    }
  }

  // A process's breaker has heard of the calls of that process that ended, and of nothing else.
  lemma {:induction false} BreakerHearsTheEnds(run: seq<Action>, proc: nat)
    ensures TraceOf(Exec(run).transfers, proc) == Heard(AllEnded(run, proc))
    decreases |run|
  {
    hide Act, LastEnded;
    if run != [] {
      var init := run[..|run| - 1];
      BreakerHearsTheEnds(init, proc);
      ActAddsSignals(Exec(init), run[|run| - 1], proc);
      HeardJoins(AllEnded(init, proc), LastEnded(Exec(init), run[|run| - 1], proc));
    }
  }

  // The failures that a breaker counts are these losses.
  ghost predicate Counts(streak: seq<B.Signal>, losses: seq<Ended>) {
    && |streak| == |losses|
    && forall k :: 0 <= k < |streak| ==> streak[k] == B.Failed(losses[k].call, losses[k].at)
  }

  lemma CountsOneMore(streak: seq<B.Signal>, losses: seq<Ended>, e: Ended)
    requires Counts(streak, losses)
    ensures Counts(streak + [B.Failed(e.call, e.at)], losses + [e])
  {
  }

  lemma AppendedStreak(trace: seq<B.Signal>, x: B.Signal)
    ensures B.Streak(trace + [x]) == if x.Failed? then B.Streak(trace) + [x] else []
  {
    assert (trace + [x])[..|trace|] == trace;
  }

  lemma {:induction false} StreakIsLosses(ends: seq<Ended>)
    ensures Counts(B.Streak(Heard(ends)), Losses(ends))
    decreases |ends|
  {
    hide B.Streak, Counts;
    if ends == [] {
      NoStreak();
    } else {
      var init, last := ends[..|ends| - 1], ends[|ends| - 1];
      StreakIsLosses(init);
      WhatTheBreakerHears(last.outcome, last.call, last.at);
      hide Signals;
      if last.outcome.Replied? {
        AppendedStreak(Heard(init), B.Succeeded(last.call));
        NoStreak();
      } else if Unreachable(last.outcome) {
        AppendedStreak(Heard(init), B.Failed(last.call, last.at));
        CountsOneMore(B.Streak(Heard(init)), Losses(init), last);
      } else {
        assert Heard(init) + [] == Heard(init) && Losses(init) + [] == Losses(init);
      }
    }
  }

  lemma NoStreak()
    ensures B.Streak([]) == [] && Counts([], [])
  {
  }

  function WholeFives(n: nat): (r: nat)
    ensures r <= n && (r > 0 <==> n >= 5)
  {
    n - n % 5
  }

  // With n losses since the last reply, calls are refused for five seconds from the last
  // loss that made five of them.
  predicate Shut(losses: seq<Ended>, now: nat) {
    |losses| >= 5 && now < losses[WholeFives(|losses|) - 1].at + 5_000_000_000
  }

  lemma FivesAreRounds(n: nat)
    ensures B.Completed(n, Threshold) == WholeFives(n)
  {
  }

  lemma ShutIsRefusal(trace: seq<B.Signal>, losses: seq<Ended>, now: nat)
    requires Counts(B.Streak(trace), losses)
    ensures B.Refuses(trace, now, Threshold, Cooldown) <==> Shut(losses, now)
  {
    FivesAreRounds(|losses|);
    hide B.Streak, B.Refuses, B.Completed, WholeFives;
    B.RefusalAt(trace, now, Threshold, Cooldown);
  }

  // What becomes of call i when its leg is refused.
  predicate ToldOpen(r: Running, r': Running) {
    match r.saga.pc
    case Debiting => r'.saga.pc == S.Finished(Err(S.Wallet(CircuitOpen)))
    case Crediting => r'.saga.pc == S.Compensating(CircuitOpen)
    case Compensating(e) => r'.saga.pc == S.Finished(Err(S.Wallet(e))) && r'.saga.repaid == Some(false)
    case _ => false
  }

  // What becomes of the leg of call i: shut, it is answered with an open circuit and nothing is
  // sent; otherwise it goes out.
  ghost predicate Treated(s: Sys, s': Sys, i: nat, shut: bool)
    requires AtLeg(s.transfers, i)
  {
    var r := s.transfers.sagas[i];
    && |s'.transfers.sagas| == |s.transfers.sagas|
    && if shut then ToldOpen(r, s'.transfers.sagas[i]) && s'.wallet == s.wallet
       else s'.transfers.sagas[i] == r.(issued := true) && LegCallOf(r) in s'.wallet.calls
  }

  lemma BreakerIsShut(run: seq<Action>, proc: nat, now: nat)
    ensures B.Refuses(TraceOf(Exec(run).transfers, proc), now, Threshold, Cooldown)
        <==> Shut(Losses(AllEnded(run, proc)), now)
  {
    hide Act, Exec, B.Refuses, Shut, Heard, Losses, Counts, B.Streak;
    BreakerHearsTheEnds(run, proc);
    StreakIsLosses(AllEnded(run, proc));
    ShutIsRefusal(TraceOf(Exec(run).transfers, proc), Losses(AllEnded(run, proc)), now);
  }

  // In every run: a leg is refused if and only if the calls of its process that ended say so:
  // only Unavailable and DeadlineExceeded since the last reply count, five by five, and five
  // seconds each time.
  lemma RefusedIffFiveLosses(run: seq<Action>, i: nat, now: nat)
    requires AtLeg(Exec(run).transfers, i) && !Exec(run).transfers.sagas[i].issued
    ensures Treated(Exec(run), Exec(run + [Issue(i, now)]), i,
                    Shut(Losses(AllEnded(run, Exec(run).transfers.sagas[i].proc)), now))
  {
    var s := Exec(run);
    hide Act, Exec, B.Refuses, Shut, Losses, Treated, AllEnded;
    BreakerIsShut(run, s.transfers.sagas[i].proc, now);
    OneMore(run, Issue(i, now));
    LegIsTreated(s, i, now);
  }

  lemma LegIsTreated(s: Sys, i: nat, now: nat)
    requires AtLeg(s.transfers, i) && !s.transfers.sagas[i].issued
    ensures Treated(s, Act(s, Issue(i, now)), i,
                    B.Refuses(TraceOf(s.transfers, s.transfers.sagas[i].proc), now, Threshold, Cooldown))
  {
    hide Act, B.Refuses, ToldOpen;
    if B.Refuses(TraceOf(s.transfers, s.transfers.sagas[i].proc), now, Threshold, Cooldown) {
      RefusedLegIsTold(s, i, now);
    } else {
      AllowedLegGoesOut(s, i, now);
    }
  }

  lemma RefusedLegIsTold(s: Sys, i: nat, now: nat)
    requires AtLeg(s.transfers, i) && !s.transfers.sagas[i].issued
    requires B.Refuses(TraceOf(s.transfers, s.transfers.sagas[i].proc), now, Threshold, Cooldown)
    ensures var s' := Act(s, Issue(i, now));
            |s'.transfers.sagas| == |s.transfers.sagas| && ToldOpen(s.transfers.sagas[i], s'.transfers.sagas[i])
                && s'.wallet == s.wallet
  {
    hide B.Refuses, S.LegRequest, W.Act;
  }

  // Five losses in a row shut the breaker, whatever came before: one of the five starts a
  // cooldown during which every leg is refused.
  lemma FiveInARowShut(ends: seq<Ended>) returns (k: nat)
    requires |ends| >= 5 && forall j :: |ends| - 5 <= j < |ends| ==> Unreachable(ends[j].outcome)
    ensures |ends| - 5 <= k < |ends|
    ensures forall now: nat :: now < ends[k].at + 5_000_000_000 ==> Shut(Losses(ends), now)
  {
    LastLosses(ends, 5);
    var losses := Losses(ends);
    var last := WholeFives(|losses|) - 1;
    var p := last - (|losses| - 5);
    k := |ends| - 5 + p;
    assert 0 <= p < 5;
    hide Losses, WholeFives, Unreachable;
    assert losses[|losses| - 5..][p] == losses[last];
    assert ends[|ends| - 5..][p] == ends[k];
  }

  lemma {:induction false} LastLosses(ends: seq<Ended>, n: nat)
    requires n <= |ends| && forall k :: |ends| - n <= k < |ends| ==> Unreachable(ends[k].outcome)
    ensures |Losses(ends)| >= n && Losses(ends)[|Losses(ends)| - n..] == ends[|ends| - n..]
    decreases n
  {
    if n > 0 {
      var init, last := ends[..|ends| - 1], ends[|ends| - 1];
      LastLosses(init, n - 1);
      assert Losses(ends) == Losses(init) + [last];
      hide Losses, Unreachable;
      assert ends[|ends| - n..] == init[|init| - (n - 1)..] + [last];
    }
  }

  // Nothing but losses counts: no number of other statuses opens the breaker.
  lemma {:induction false} OnlyLossesCount(ends: seq<Ended>, now: nat)
    requires forall k :: 0 <= k < |ends| ==> !Unreachable(ends[k].outcome)
    ensures Losses(ends) == [] && !Shut(Losses(ends), now)
    decreases |ends|
  {
    if ends != [] {
      OnlyLossesCount(ends[..|ends| - 1], now);
    }
  }
}
