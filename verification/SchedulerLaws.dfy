/** What calls from outside bring about, and when the thread in the body of HandleIdle
    quits, goes on, or leaves. */
module SchedulerLaws {
  import opened Schedulers

  // ------------------------------------------------- calls are handled

  /** Calls after which somebody has to look whether there is something to do: the count
      of queues at work has become 0, something has arrived or ended, or the state now
      lets the body work. */
  predicate MustHandle(c: Control, call: Call) {
    match call
    case Start => true
    case IdleChanged(idle) => c.nonIdleQueueCount == if idle then 1 else -1
    case AddedPacket => c.state != Terminated
    case ClosedInputs => true
    case Pause => false
    case Resume => c.state == Paused
    case Cancel => c.state == Running || c.state == Paused
    case Throttle(_) => false
  }

  /** A thread is at the guard, or will be before it leaves. */
  predicate GuardAhead(c: Control) {
    c.point.Guard? || c.missed
  }

  /** Exactly these calls enter HandleIdle: the caller is at the guard, or, if another
      thread is in the body, that thread has been told. */
  lemma {:induction false} CallIsHandledIff(c: Control, call: Call)
    requires BodyInv(c) && LockFree(c)
    ensures MustHandle(c, call) ==>
              && Called(c, call).handlingIdle == c.handlingIdle + 1 && GuardAhead(Called(c, call))
              && (c.point.Outside? ==> Called(c, call).point == Guard)
              && (!c.point.Outside? ==> Called(c, call).point == c.point)
    ensures !MustHandle(c, call) ==>
              && Called(c, call).handlingIdle == c.handlingIdle
              && Called(c, call).point == c.point && Called(c, call).missed == c.missed
  {
  }

  lemma {:induction false} GuardStaysAhead(s: Scheduler, step: Step)
    requires Enabled(s, step) && !step.EvaluateGuard? && GuardAhead(s.control)
    ensures GuardAhead(Take(s, step).control)
  {
    if !s.control.point.Guard? {
      MissedStays(s, step);
    }
  }

  lemma {:induction false} GuardAheadUntil(run: seq<Scheduler>, steps: seq<Step>, i: nat, j: nat)
    requires IsRun(run, steps) && i <= j < |run| && GuardAhead(run[i].control)
    requires forall k :: i <= k < j ==> !steps[k].EvaluateGuard?
    ensures GuardAhead(run[j].control)
    decreases j
  {
    if i == j {
    } else {
      GuardAheadUntil(run, steps, i, j - 1);
      GuardStaysAhead(run[j - 1], steps[j - 1]);
    }
  }

  /** Over every run: after each such call, be it the report that brings the count to 0,
      the guard is looked at before no thread is in the body any more. */
  lemma {:induction false} EveryCallIsAnswered(run: seq<Scheduler>, steps: seq<Step>, i: nat, j: nat)
    requires IsRun(run, steps) && i < j < |run|
    requires steps[i].Outer? && MustHandle(run[i].control, steps[i].call)
    ensures GuardAhead(run[i + 1].control)
    ensures run[j].control.point.Outside? ==> exists k :: i < k < j && steps[k].EvaluateGuard?
  {
    RunsHold(run, steps, i);
    CallIsHandledIff(run[i].control, steps[i].call);
    if forall k :: i < k < j ==> !steps[k].EvaluateGuard? {
      GuardAheadUntil(run, steps, i + 1, j);
      RunsHold(run, steps, j);
    }
  }

  // --------------------------------------------------------- counting

  /** Reports "not idle" less reports "idle" among the first `n` steps. */
  function Balance(steps: seq<Step>, n: nat): int
    requires n <= |steps|
  {
    if n == 0 then 0
    else Balance(steps, n - 1) +
         if steps[n - 1] == Outer(IdleChanged(false)) then 1
         else if steps[n - 1] == Outer(IdleChanged(true)) then -1 else 0
  }

  /** The same for graph inputs held back and let go. */
  function HeldBack(steps: seq<Step>, n: nat): int
    requires n <= |steps|
  {
    if n == 0 then 0
    else HeldBack(steps, n - 1) +
         if steps[n - 1] == Outer(Throttle(true)) then 1
         else if steps[n - 1] == Outer(Throttle(false)) then -1 else 0
  }

  lemma {:induction false} CallCounts(c: Control, call: Call)
    ensures Called(c, call).nonIdleQueueCount == c.nonIdleQueueCount + Balance([Outer(call)], 1)
    ensures Called(c, call).throttledInputs == c.throttledInputs + HeldBack([Outer(call)], 1)
    ensures Called(c, call).inputsClosed <==> c.inputsClosed || call.ClosedInputs?
  {
  }

  lemma {:induction false} OwnStepCounts(s: Scheduler, step: Step)
    requires Enabled(s, step) && !step.Outer?
    ensures var c, d := s.control, Take(s, step).control;
            && d.nonIdleQueueCount == c.nonIdleQueueCount && d.throttledInputs == c.throttledInputs
            && d.inputsClosed == c.inputsClosed
  {
  }

  lemma {:induction false} StepCounts(s: Scheduler, step: Step)
    requires Enabled(s, step)
    ensures var c, d := s.control, Take(s, step).control;
            && d.nonIdleQueueCount == c.nonIdleQueueCount + Balance([step], 1)
            && d.throttledInputs == c.throttledInputs + HeldBack([step], 1)
            && (d.inputsClosed <==> c.inputsClosed || step == Outer(ClosedInputs))
  {
    if step.Outer? {
      CallCounts(s.control, step.call);
    } else {
      OwnStepCounts(s, step);
    }
  }

  /** Over every run both counts are what has been reported. */
  lemma {:induction false} CountsFollowReports(run: seq<Scheduler>, steps: seq<Step>, i: nat)
    requires IsRun(run, steps) && i < |run|
    ensures run[i].control.nonIdleQueueCount == Balance(steps, i)
    ensures run[i].control.throttledInputs == HeldBack(steps, i)
  {
    if i == 0 {
    } else {
      CountsFollowReports(run, steps, i - 1);
      StepCounts(run[i - 1], steps[i - 1]);
      assert [steps[i - 1]][0] == steps[i - 1];
    }
  }

  /** And the graph inputs count as closed exactly if they were or have been. */
  lemma {:induction false} InputsCloseIff(run: seq<Scheduler>, steps: seq<Step>, i: nat)
    requires IsRun(run, steps) && i < |run|
    ensures run[i].control.inputsClosed <==>
              run[0].control.inputsClosed || exists k :: 0 <= k < i && steps[k] == Outer(ClosedInputs)
  {
    if i == 0 {
    } else {
      InputsCloseIff(run, steps, i - 1);
      StepCounts(run[i - 1], steps[i - 1]);
    }
  }

  // ------------------------------------------------------------ the state

  /** When HandleIdle may quit. */
  predicate MayQuit(s: Scheduler) {
    s.control.hasError || (s.sources.active == [] && s.sources.ready == {} && s.control.inputsClosed)
  }

  function CalledState(state: RunState, call: Call): RunState {
    if call.Start? then Running
    else if call.Pause? && state == Running then Paused
    else if call.Resume? && state == Paused then Running
    else if call.Cancel? && (state == Running || state == Paused) then Cancelling
    else state
  }

  function NextState(s: Scheduler, step: Step): RunState {
    if step.Outer? then CalledState(s.control.state, step.call)
    else if step.Decide? && MayQuit(s) then Terminated
    else s.control.state
  }

  lemma {:induction false} CallMoves(c: Control, call: Call)
    ensures Called(c, call).state == CalledState(c.state, call)
    ensures Called(c, call).hasError <==> c.hasError || (call.Cancel? && (c.state == Running || c.state == Paused))
  {
  }

  lemma {:induction false} DecisionMoves(s: Scheduler, picked: seq<nat>)
    requires Enabled(s, Decide(picked))
    ensures Decided(s, picked).control.state == if MayQuit(s) then Terminated else s.control.state
    ensures Decided(s, picked).control.hasError <==>
              || s.control.hasError
              || (&& s.sources.active == [] && s.sources.ready != {} && s.control.inputsClosed
                  && LowerUnopened(s.sources, picked[0]))
  {
  }

  /** The state changes by these steps and no others. */
  lemma {:induction false} StateMoves(s: Scheduler, step: Step)
    requires Enabled(s, step)
    ensures Take(s, step).control.state == NextState(s, step)
  {
    if step.Outer? {
      CallMoves(s.control, step.call);
    } else if step.Decide? {
      DecisionMoves(s, step.picked);
    }
  }

  /** Over every run: the scheduler terminates only in its body, with an error or when
      no source is left and the graph inputs are closed; then it stays so. */
  lemma {:induction false} TerminatesFor(run: seq<Scheduler>, steps: seq<Step>, i: nat)
    requires IsRun(run, steps) && i < |steps| && run[i + 1].control.state == Terminated
    ensures run[i].control.state == Terminated
            || (steps[i].Decide? && MayQuit(run[i]) && IsRunning(run[i].control)
                && run[i + 1].control.point == Outside && run[i + 1].control.runningCount == 0)
  {
    RunsHold(run, steps, i);
    StateMoves(run[i], steps[i]);
  }

  lemma {:induction false} TerminatedStays(s: Scheduler, step: Step)
    requires Inv(s) && Enabled(s, step) && s.control.state == Terminated
    ensures Take(s, step).control.state == Terminated
  {
    StateMoves(s, step);
  }

  /** An error stays; one comes from outside, with a cancellation, or because the next
      layer would have to wait for a source that cannot be opened any more. */
  lemma {:induction false} ErrorsComeFrom(s: Scheduler, step: Step)
    requires Enabled(s, step)
    ensures Take(s, step).control.hasError <==>
              || s.control.hasError || step.RecordError?
              || (step == Outer(Call.Cancel) && (s.control.state == Running || s.control.state == Paused))
              || (&& step.Decide? && s.sources.active == [] && s.sources.ready != {} && s.control.inputsClosed
                  && LowerUnopened(s.sources, step.picked[0]))
  {
    if step.Outer? {
      CallMoves(s.control, step.call);
    } else if step.Decide? {
      DecisionMoves(s, step.picked);
    }
  }

  // -------------------------------------------------------- the body

  /** The guard lets the body work exactly while the count is 0 and the state allows. */
  lemma {:induction false} GuardOpensIff(s: Scheduler)
    requires s.control.point.Guard?
    ensures var c := Take(s, EvaluateGuard).control;
            && (c.point == Cleaning <==> s.control.nonIdleQueueCount == 0 && IsRunning(s.control))
            && (c.point == Outside <==> !(s.control.nonIdleQueueCount == 0 && IsRunning(s.control)))
            && !c.missed
  {
  }

  /** What the body decides on, in the order of importance: to quit; to activate the
      next layer, or to wait for a source of a lower one; to unthrottle; or nothing. */
  lemma {:induction false} DecidesOn(s: Scheduler, picked: seq<nat>)
    requires Inv(s) && Enabled(s, Decide(picked))
    ensures var t, r := Decided(s, picked), s.sources;
            var next := r.active == [] && r.ready != {};
            && (t.control.point == Outside <==> MayQuit(s))
            && (t.control.point == Pausing <==> !MayQuit(s) && next && !LowerUnopened(r, picked[0]))
            && (t.control.point == Guard <==> !MayQuit(s) && next && LowerUnopened(r, picked[0]))
            && (t.control.point == Unthrottling <==>
                  !MayQuit(s) && !next && (r.active != [] || s.control.throttledInputs > 0))
            && (t.control.point == Rechecking <==>
                  !MayQuit(s) && r.active == [] && r.ready == {} && s.control.throttledInputs <= 0)
  {
  }

  lemma {:induction false} LeavesBy(s: Scheduler, step: Step)
    requires BodyInv(s.control) && Enabled(s, step)
    requires !s.control.point.Outside? && Take(s, step).control.point.Outside?
    ensures var c := s.control;
            || (step.EvaluateGuard? && !(c.nonIdleQueueCount == 0 && IsRunning(c)))
            || Take(s, step).control.state == Terminated
            || (step.Recheck? && c.handlingIdle == 1 && !c.missed)
  {
    if step.Outer? {
      CallIsHandledIff(s.control, step.call);
    }
  }

  /** Over every run, a thread leaves the body for one of three reasons: the guard is
      shut; the scheduler has terminated; or there is nothing to activate, unthrottling
      found nothing to do, and no call has come in since it last looked. */
  lemma {:induction false} LeavesFor(run: seq<Scheduler>, steps: seq<Step>, i: nat)
    requires IsRun(run, steps) && i < |steps|
    requires !run[i].control.point.Outside? && run[i + 1].control.point.Outside?
    ensures var c := run[i].control;
            || (steps[i].EvaluateGuard? && !(c.nonIdleQueueCount == 0 && IsRunning(c)))
            || run[i + 1].control.state == Terminated
            || (steps[i].Recheck? && c.handlingIdle == 1 && !c.missed)
  {
    RunsHold(run, steps, i);
    LeavesBy(run[i], steps[i]);
  }

  /** The body comes to recheck only with no layer to activate, and nothing to
      unthrottle or after trying to. */
  lemma {:induction false} RechecksFor(s: Scheduler, step: Step)
    requires Inv(s) && Enabled(s, step) && Take(s, step).control.point.Rechecking? && !s.control.point.Rechecking?
    ensures || step == Step.Unthrottled(false)
            || (step.Decide? && s.sources.active == [] && s.sources.ready == {} && s.control.throttledInputs <= 0)
  {
    if step.Decide? {
      DecidesOn(s, step.picked);
    }
  }

  // ------------------------------------------------------ the sources

  /** Over every run, exactly the sources that have closed count as closed. */
  lemma {:induction false} ClosedIff(run: seq<Scheduler>, steps: seq<Step>, i: nat, n: nat)
    requires IsRun(run, steps) && i < |run|
    ensures n in run[i].sources.closed <==> exists k :: 0 <= k < i && steps[k] == CloseSource(n)
  {
    if i == 0 {
    } else {
      ClosedIff(run, steps, i - 1, n);
      assert n in run[i].sources.closed <==> n in run[i - 1].sources.closed || steps[i - 1] == CloseSource(n);
    }
  }

  predicate Last(active: seq<nat>, n: nat) {
    active != [] && active[|active| - 1] == n
  }

  /** A source leaves the active ones exactly when it is the last of them, has closed,
      and the body cleans up. */
  lemma {:induction false} LeavesListIff(s: Scheduler, step: Step, n: nat)
    requires Inv(s) && Enabled(s, step) && n in s.sources.active
    ensures n !in Take(s, step).sources.active <==>
              step.CleanOne? && Last(s.sources.active, n) && n in s.sources.closed
    ensures n in Take(s, step).sources.retired <==> n !in Take(s, step).sources.active
  {
    var active := s.sources.active;
    if step.CleanOne? && LastClosed(s.sources) {
      var m := |active| - 1;
      assert active == active[..m] + [active[m]];
    }
  }

  /** The body goes on to decide only when the last active source is still open. */
  lemma {:induction false} DecidesAfterCleaning(run: seq<Scheduler>, steps: seq<Step>, i: nat)
    requires IsRun(run, steps) && i < |steps|
    requires run[i + 1].control.point.Deciding? && !run[i].control.point.Deciding?
    ensures var s := run[i + 1].sources;
            steps[i].CleanOne? && (s.active == [] || s.active[|s.active| - 1] !in s.closed)
  {
    RunsHold(run, steps, i);
    if steps[i].Outer? {
      CallIsHandledIff(run[i].control, steps[i].call);
    }
  }

  /** Sources of the layer in hand are activated one by one, and no others. */
  lemma {:induction false} ActivatesIff(s: Scheduler, step: Step, n: nat)
    requires Enabled(s, step)
    ensures n in Take(s, step).sources.activated <==>
              || n in s.sources.activated
              || (step.AddNext? && s.sources.active[s.control.point.next] == n)
  {
  }

  ghost predicate AddedSoFar(s: Scheduler) {
    s.control.point.Adding? ==>
      && s.control.point.next <= |s.sources.active|
      && (forall k :: 0 <= k < s.control.point.next ==> s.sources.active[k] in s.sources.activated)
  }

  lemma {:induction false} AddedSoFarStays(s: Scheduler, step: Step)
    requires Inv(s) && Enabled(s, step) && AddedSoFar(s)
    ensures AddedSoFar(Take(s, step))
  {
    if step.Outer? {
      CallIsHandledIff(s.control, step.call);
    }
  }

  /** Over every run, when the queues are let go on again the whole layer has been
      activated. */
  lemma {:induction false} WholeLayerIsActivated(run: seq<Scheduler>, steps: seq<Step>, i: nat)
    requires IsRun(run, steps) && i < |run|
    ensures AddedSoFar(run[i])
    ensures i < |steps| && steps[i].RaiseCount? ==>
              forall k :: 0 <= k < |run[i].sources.active| ==> run[i].sources.active[k] in run[i].sources.activated
  {
    if i == 0 {
    } else {
      WholeLayerIsActivated(run, steps, i - 1);
      RunsHold(run, steps, i - 1);
      AddedSoFarStays(run[i - 1], steps[i - 1]);
    }
  }
}
