/** Generators that return errors. After the first error no generator is begun, no
    scan is made any more, and what others still put out does not matter. */
module FailingGenerators {
  import opened Collections
  import opened Generators

  /** `statuses` counts the errors returned so far. */
  datatype Attempt = Attempt(pass: Pass, statuses: nat)

  /** A task may fail; be dropped when it would begin after an error; or, begun
      before, put out its packets when there is one. */
  datatype AttemptStep =
    | Normal(step: Step)
    | Fail(k: nat)
    | Drop(k: nat)
    | FinishLate(k: nat)

  predicate HasTask(c: Config, p: Pass, k: nat) {
    k < |p.tasks| && p.tasks[k].generator < |c.generators| && p.numTasks > 0
  }

  predicate AttemptEnabled(c: Config, a: Attempt, step: AttemptStep) {
    match step
    case Normal(inner) =>
      && Enabled(c, a.pass, inner)
      && (inner.RunTask? ==>
            a.statuses == 0 && !c.fails(a.pass.tasks[inner.k].generator, a.pass.tasks[inner.k].inputs))
    case Fail(k) => HasTask(c, a.pass, k) && c.fails(a.pass.tasks[k].generator, a.pass.tasks[k].inputs)
    case Drop(k) => HasTask(c, a.pass, k) && a.statuses > 0
    case FinishLate(k) => HasTask(c, a.pass, k) && a.statuses > 0
  }

  function Ended(c: Config, p: Pass, k: nat): Pass
    requires HasTask(c, p, k)
  {
    p.(tasks := Remove(p.tasks, k), numTasks := p.numTasks - 1)
  }

  function AttemptTake(c: Config, a: Attempt, step: AttemptStep): Attempt
    requires AttemptEnabled(c, a, step)
  {
    match step
    case Normal(inner) => a.(pass := Take(c, a.pass, inner))
    case Fail(k) => Attempt(Ended(c, a.pass, k), a.statuses + 1)
    case Drop(k) => a.(pass := Ended(c, a.pass, k))
    case FinishLate(k) =>
      a.(pass := Ended(c, a.pass, k).(packets := AllOutputs(c, a.pass.tasks[k]) + a.pass.packets))
  }

  // -------------------------------------------------------- what steps keep

  /** A generator of this pass that can run on these packets and then fails. */
  ghost predicate FailsOn(c: Config, m: Packets, scheduled: seq<bool>, g: nat) {
    && g < |c.generators| && g < |scheduled| && !scheduled[g]
    && Runnable(c, m, g) && c.fails(g, InputsOf(c, m, g))
  }

  /** Some generator fails, in whatever order the tasks run. */
  ghost predicate Doomed(c: Config, start: Packets, scheduled: seq<bool>) {
    forall n :: Within(start, n) && Closed(c, n) ==> exists g: nat :: FailsOn(c, n, scheduled, g)
  }

  predicate Counted(c: Config, p: Pass) {
    && p.numTasks == |p.tasks| + |p.scans| && |p.scheduled| == |c.generators| && p.main <= |c.generators|
    && (forall k :: 0 <= k < |p.tasks| ==> p.tasks[k].generator < |c.generators|)
    && (forall k :: 0 <= k < |p.scans| ==> p.scans[k] <= |c.generators|)
  }

  ghost predicate RanWell(c: Config, p: Pass, g: nat) {
    g < |c.generators| && Runnable(c, p.packets, g) && !c.fails(g, InputsOf(c, p.packets, g))
  }

  ghost predicate AllWell(c: Config, start: Packets, scheduled: seq<bool>, p: Pass) {
    && Inv(c, p) && Within(start, p.packets) && Contained(c, start, p.packets)
    && |scheduled| == |c.generators|
    && (forall g: nat :: g < |c.generators| ==> RanInv(p, scheduled, g))
    && (forall k :: 0 <= k < |p.ran| ==> RanWell(c, p, p.ran[k]))
  }

  ghost predicate AttemptInv(c: Config, start: Packets, scheduled: seq<bool>, a: Attempt) {
    && Counted(c, a.pass)
    && (if a.statuses == 0 then AllWell(c, start, scheduled, a.pass) else Doomed(c, start, scheduled))
  }

  /** What a task that is to run finds, every closed extension of the start has. */
  lemma {:induction false} FailureIsDoom(c: Config, start: Packets, scheduled: seq<bool>, p: Pass, k: nat)
    requires AllWell(c, start, scheduled, p) && k < |p.tasks| && p.tasks[k].generator < |c.generators|
    requires c.fails(p.tasks[k].generator, p.tasks[k].inputs)
    ensures Doomed(c, start, scheduled)
  {
    var g := p.tasks[k].generator;
    assert TaskInv(c, p, p.tasks[k]) && IsPending(p, g) && RanInv(p, scheduled, g);
    forall n | Within(start, n) && Closed(c, n)
      ensures FailsOn(c, n, scheduled, g)
    {
      SameInputs(c, p.packets, n, g);
    }
  }

  lemma {:induction false} TakeIsContained(c: Config, start: Packets, p: Pass, step: Step)
    requires Inv(c, p) && Within(start, p.packets) && Contained(c, start, p.packets) && Enabled(c, p, step)
    ensures Within(p.packets, Take(c, p, step).packets)
    ensures Within(start, Take(c, p, step).packets) && Contained(c, start, Take(c, p, step).packets)
  {
    if step.RunTask? {
      RunAdds(c, p, step.k);
    }
    forall n | Within(start, n) && Closed(c, n)
      ensures Within(Take(c, p, step).packets, n)
    {
      StepStaysWithin(c, p, step, n);
    }
  }

  lemma {:induction false} TakeRunsWell(c: Config, p: Pass, step: Step)
    requires Inv(c, p) && Enabled(c, p, step) && Within(p.packets, Take(c, p, step).packets)
    requires step.RunTask? ==> !c.fails(p.tasks[step.k].generator, p.tasks[step.k].inputs)
    requires forall k :: 0 <= k < |p.ran| ==> RanWell(c, p, p.ran[k])
    ensures forall k :: 0 <= k < |Take(c, p, step).ran| ==> RanWell(c, Take(c, p, step), Take(c, p, step).ran[k])
  {
    var q := Take(c, p, step);
    forall k | 0 <= k < |q.ran|
      ensures RanWell(c, q, q.ran[k])
    {
      if k < |p.ran| {
        assert q.ran[k] == p.ran[k] && RanWell(c, p, p.ran[k]);
      } else {
        assert TaskInv(c, p, p.tasks[step.k]);
      }
      SameInputs(c, p.packets, q.packets, q.ran[k]);
    }
  }

  lemma {:induction false} NormalKeeps(c: Config, start: Packets, scheduled: seq<bool>, p: Pass, step: Step)
    requires AllWell(c, start, scheduled, p) && Enabled(c, p, step)
    requires step.RunTask? ==> !c.fails(p.tasks[step.k].generator, p.tasks[step.k].inputs)
    ensures AllWell(c, start, scheduled, Take(c, p, step))
  {
    StepKeeps(c, p, step);
    TakeIsContained(c, start, p, step);
    TakeRunsWell(c, p, step);
    forall g: nat | g < |c.generators|
      ensures RanInv(Take(c, p, step), scheduled, g)
    {
      StepRan(c, p, scheduled, step, g);
    }
  }

  lemma {:induction false} NormalCounted(c: Config, p: Pass, step: Step)
    requires Counted(c, p) && Enabled(c, p, step)
    ensures Counted(c, Take(c, p, step))
  {
    match step
    case RunTask(k) => RemoveAt(p.tasks, k);
    case EndScan(k) => RemoveAt(p.scans, k);
    case _ =>
  }

  lemma {:induction false} StillCounted(c: Config, a: Attempt, step: AttemptStep)
    requires Counted(c, a.pass) && AttemptEnabled(c, a, step)
    ensures Counted(c, AttemptTake(c, a, step).pass)
  {
    match step
    case Normal(inner) => NormalCounted(c, a.pass, inner);
    case Fail(k) => RemoveAt(a.pass.tasks, k);
    case Drop(k) => RemoveAt(a.pass.tasks, k);
    case FinishLate(k) => RemoveAt(a.pass.tasks, k);
  }

  lemma {:induction false} AttemptStepKeeps(c: Config, start: Packets, scheduled: seq<bool>, a: Attempt,
        step: AttemptStep)
    requires AttemptInv(c, start, scheduled, a) && AttemptEnabled(c, a, step)
    ensures AttemptInv(c, start, scheduled, AttemptTake(c, a, step))
  {
    StillCounted(c, a, step);
    if a.statuses == 0 {
      match step
      case Normal(inner) => NormalKeeps(c, start, scheduled, a.pass, inner);
      case Fail(k) => FailureIsDoom(c, start, scheduled, a.pass, k);
    }
  }

  // ------------------------------------------------------------ whole runs

  ghost predicate IsAttempt(c: Config, start: Packets, scheduled: seq<bool>, run: seq<Attempt>,
        steps: seq<AttemptStep>) {
    && Startable(c, start, scheduled)
    && |run| == |steps| + 1 && run[0] == Attempt(Pass(start, scheduled, 0, [], [], [], 0, false), 0)
    && (forall i :: 0 <= i < |steps| ==>
          AttemptEnabled(c, run[i], steps[i]) && run[i + 1] == AttemptTake(c, run[i], steps[i]))
  }

  lemma {:induction false} StartIsWell(c: Config, start: Packets, scheduled: seq<bool>)
    requires Startable(c, start, scheduled)
    ensures AllWell(c, start, scheduled, Pass(start, scheduled, 0, [], [], [], 0, false))
  {
    var p := Pass(start, scheduled, 0, [], [], [], 0, false);
    RunsHold(c, start, scheduled, [p], [], 0);
    forall g: nat | g < |c.generators|
      ensures RanInv(p, scheduled, g)
    {
      RunsRan(c, start, scheduled, [p], [], 0, g);
    }
  }

  lemma {:induction false} AttemptsHold(c: Config, start: Packets, scheduled: seq<bool>, run: seq<Attempt>,
        steps: seq<AttemptStep>, i: nat)
    requires IsAttempt(c, start, scheduled, run, steps) && i < |run|
    ensures AttemptInv(c, start, scheduled, run[i])
  {
    if i == 0 {
      StartIsWell(c, start, scheduled);
    } else {
      AttemptsHold(c, start, scheduled, run, steps, i - 1);
      AttemptStepKeeps(c, start, scheduled, run[i - 1], steps[i - 1]);
    }
  }

  /** Without an error the packets at idle are the least closed extension, and no
      generator that can run on them fails. */
  lemma {:induction false} WellAtIdle(c: Config, start: Packets, scheduled: seq<bool>, p: Pass)
    requires AllWell(c, start, scheduled, p) && AtIdle(c, p)
    ensures IsLeast(c, start, p.packets)
    ensures forall g: nat :: !FailsOn(c, p.packets, scheduled, g)
    ensures forall g: nat :: g < |c.generators| ==> (p.scheduled[g] <==> Runnable(c, p.packets, g))
  {
    IdleIsClosed(c, p);
    forall g: nat | g < |c.generators| && !scheduled[g] && Runnable(c, p.packets, g)
      ensures !c.fails(g, InputsOf(c, p.packets, g))
    {
      assert RanInv(p, scheduled, g) && !IsPending(p, g);
      var k :| 0 <= k < |p.ran| && p.ran[k] == g;
      assert RanWell(c, p, p.ran[k]);
    }
  }

  lemma {:induction false} OutcomeAtIdle(c: Config, start: Packets, scheduled: seq<bool>, a: Attempt)
    requires AttemptInv(c, start, scheduled, a) && AtIdle(c, a.pass)
    ensures a.statuses == 0 ==>
              && IsLeast(c, start, a.pass.packets) && !a.pass.failed
              && (forall g: nat :: g < |c.generators| ==> (a.pass.scheduled[g] <==> Runnable(c, a.pass.packets, g)))
    ensures forall m :: IsLeast(c, start, m) ==> (a.statuses > 0 <==> exists g: nat :: FailsOn(c, m, scheduled, g))
  {
    if a.statuses == 0 {
      WellAtIdle(c, start, scheduled, a.pass);
      forall m | IsLeast(c, start, m)
        ensures m == a.pass.packets
      {
        LeastIsUnique(c, start, m, a.pass.packets);
      }
    }
  }

  /** The outcome does not depend on the order of the tasks. At idle there is an error
      if and only if some generator of this pass can run on the least closed extension
      and fails there; and without one the packets are that extension. */
  lemma {:induction false} OutcomeIsDetermined(c: Config, start: Packets, scheduled: seq<bool>, run: seq<Attempt>,
        steps: seq<AttemptStep>, i: nat)
    requires IsAttempt(c, start, scheduled, run, steps) && i < |run| && AtIdle(c, run[i].pass)
    ensures run[i].statuses == 0 ==> IsLeast(c, start, run[i].pass.packets) && !run[i].pass.failed
    ensures |run[i].pass.scheduled| == |c.generators|
    ensures run[i].statuses == 0 ==>
              forall g: nat :: g < |c.generators| ==>
                (run[i].pass.scheduled[g] <==> Runnable(c, run[i].pass.packets, g))
    ensures forall m :: IsLeast(c, start, m) ==>
              (run[i].statuses > 0 <==> exists g: nat :: FailsOn(c, m, scheduled, g))
  {
    AttemptsHold(c, start, scheduled, run, steps, i);
    OutcomeAtIdle(c, start, scheduled, run[i]);
  }

  /** Until then some step can be taken, errors or not. */
  lemma {:induction false} AttemptMoves(c: Config, start: Packets, scheduled: seq<bool>, a: Attempt)
    requires AttemptInv(c, start, scheduled, a) && !AtIdle(c, a.pass)
    ensures exists step :: AttemptEnabled(c, a, step)
  {
    var p := a.pass;
    if p.main < |c.generators| {
      assert AttemptEnabled(c, a, Normal(ScanMain));
    } else if p.tasks != [] {
      if c.fails(p.tasks[0].generator, p.tasks[0].inputs) {
        assert AttemptEnabled(c, a, Fail(0));
      } else if a.statuses == 0 {
        assert AttemptEnabled(c, a, Normal(RunTask(0)));
      } else {
        assert AttemptEnabled(c, a, Drop(0));
      }
    } else {
      assert AttemptEnabled(c, a, Normal(if p.scans[0] < |c.generators| then Scan(0) else EndScan(0)));
    }
  }
}
