/** Why a graph that runs without errors may quit when the count is 0. A thread that
    adds a node usually does so from inside a task: the thread that runs one node
    finds another ready. Such a thread reports before its own task ends. */
module HostedThreads {
  import opened Collections
  import opened SchedulerQueues
  import opened IdleReports

  /** An executing task, named by its queue and the moment it started. */
  datatype Task = Task(queue: nat, startedAt: nat)

  /** A report "active" that is due: when the item was added, and from inside which
      task, if any. */
  datatype Due = Due(addedAt: nat, host: Option<Task>)

  /** `starts` holds the starting times of the executing tasks of each queue, `dues`
      the report that is due for each queue. */
  datatype Timed = Timed(system: System, clock: nat, starts: seq<seq<nat>>, dues: seq<Option<Due>>)

  /** A step, and the task from inside which it is taken, if any. */
  datatype TimedStep = TimedStep(step: SystemStep, host: Option<Task>)

  predicate Executing(t: Timed, task: Task) {
    task.queue < |t.starts| && task.startedAt in t.starts[task.queue]
  }

  predicate Shaped(t: Timed) {
    && |t.starts| == |t.dues| == |t.system.queues|
    && (forall j :: 0 <= j < |t.starts| ==> |t.starts[j]| == |t.system.queues[j].executing|)
  }

  /** A task ends only after the reports due from inside it have been made. */
  predicate TimedEnabled(t: Timed, s: TimedStep) {
    && Shaped(t) && SystemEnabled(t.system, s.step) && Careful(t.system, s.step)
    && (s.host.Some? ==> Executing(t, s.host.value))
    && (s.step.Work? && s.step.step.Finish? ==>
          forall j :: 0 <= j < |t.dues| && t.dues[j].Some? ==>
            t.dues[j].value.host != Some(Task(s.step.i, t.starts[s.step.i][s.step.step.k])))
  }

  function StartsAfter(starts: seq<nat>, step: QueueStep, q: Queue, now: nat): seq<nat>
    requires |starts| == |q.executing| && QueueEnabled(q, step)
  {
    match step
    case RunNext(_) => if q.items == [] then starts else starts + [now]
    case Finish(k) => Remove(starts, k)
    case _ => starts
  }

  function DueAfter(due: Option<Due>, s: TimedStep, q: Queue, now: nat): Option<Due> {
    if s.step.Work? && s.step.step.AddItem? && IsIdle(q) then Some(Due(now, s.host))
    else if s.step.ReportActive? then None
    else due
  }

  function TimedTake(t: Timed, s: TimedStep): Timed
    requires TimedEnabled(t, s)
  {
    var i := s.step.i;
    var q := t.system.queues[i];
    Timed(SystemTake(t.system, s.step), t.clock + 1,
          if s.step.Work? then t.starts[i := StartsAfter(t.starts[i], s.step.step, q, t.clock)] else t.starts,
          t.dues[i := DueAfter(t.dues[i], s, q, t.clock)])
  }

  ghost predicate TimedInit(t: Timed) {
    && SystemInit(t.system) && Shaped(t)
    && (forall j :: 0 <= j < |t.dues| ==> t.dues[j] == None)
  }

  // -------------------------------------------------------- what steps keep

  /** A queue's report is due exactly while a thread has yet to make it; every task of
      the queue started after the item was added; and the task from inside which it
      was added started before, and is executing. */
  ghost predicate DueInv(t: Timed, j: nat)
    requires Shaped(t) && j < |t.dues|
  {
    && (t.dues[j].Some? <==> Actives(t.system.queues[j].adders) == 1)
    && (forall x :: x in t.starts[j] ==> x < t.clock)
    && (t.dues[j].Some? ==>
          var due := t.dues[j].value;
          && due.addedAt < t.clock
          && (forall x :: x in t.starts[j] ==> due.addedAt < x)
          && (due.host.Some? ==> Executing(t, due.host.value) && due.host.value.startedAt < due.addedAt))
  }

  ghost predicate TimedInv(t: Timed) {
    AllAnnounced(t.system) && Shaped(t) && forall j :: 0 <= j < |t.dues| ==> DueInv(t, j)
  }

  lemma {:induction false} StepActives(q: Queue, step: QueueStep)
    requires QueueEnabled(q, step)
    ensures Actives(QueueTake(q, step).queue.adders) ==
            Actives(q.adders) + if step.AddItem? && IsIdle(q) then 1 else 0
  {
    match step
    case AddItem(_) =>
      TotalsSplit(q.adders, [Adder(IsIdle(q), q.numTasksToAdd + 1)]);
      TotalsSplit(q.adders, [Adder(IsIdle(q), 0)]);
    case SubmitWaiting =>
      TotalsSplit(q.adders, [Adder(false, q.numTasksToAdd)]);
      TotalsSplit(q.adders, [Adder(false, 0)]);
    case HandOver(k) => TotalsAt(q.adders, k, Adder(false, q.adders[k].tasks - 1));
    case Return(k) => TotalsAt(q.adders, k, q.adders[k]);
    case _ =>
  }

  lemma {:induction false} StepExecutes(q: Queue, step: QueueStep, starts: seq<nat>, now: nat)
    requires Balanced(q) && QueueEnabled(q, step) && |starts| == |q.executing|
    ensures |StartsAfter(starts, step, q, now)| == |QueueTake(q, step).queue.executing|
    ensures forall x :: x in StartsAfter(starts, step, q, now) ==> x in starts || x == now
    ensures forall x :: x in starts && (step.Finish? ==> x != starts[step.k]) ==> x in StartsAfter(starts, step, q, now)
  {
    if step.Finish? {
      RemoveMember(starts, step.k);
    }
  }

  lemma {:induction false} RemoveMember(xs: seq<nat>, k: nat)
    requires k < |xs|
    ensures forall x :: x in Remove(xs, k) ==> x in xs
    ensures forall x :: x in xs && x != xs[k] ==> x in Remove(xs, k)
  {
    assert xs == xs[..k] + [xs[k]] + xs[k + 1..];
  }

  lemma {:induction false} TimedShape(t: Timed, s: TimedStep)
    requires AllAnnounced(t.system) && Shaped(t) && TimedEnabled(t, s)
    ensures Shaped(TimedTake(t, s)) && AllAnnounced(TimedTake(t, s).system)
    ensures |TimedTake(t, s).dues| == |t.dues|
  {
    StepAnnounces(t.system, s.step);
    if s.step.Work? {
      StepExecutes(t.system.queues[s.step.i], s.step.step, t.starts[s.step.i], t.clock);
    }
  }

  lemma {:induction false} ExecutingStays(t: Timed, s: TimedStep, task: Task)
    requires AllAnnounced(t.system) && TimedEnabled(t, s) && Executing(t, task)
    requires s.step.Work? && s.step.step.Finish? ==> task != Task(s.step.i, t.starts[s.step.i][s.step.step.k])
    ensures Executing(TimedTake(t, s), task)
  {
    if s.step.Work? {
      StepExecutes(t.system.queues[s.step.i], s.step.step, t.starts[s.step.i], t.clock);
    }
  }

  /** What a step does to the report due for the queue it works on. */
  lemma {:induction false} OwnDue(t: Timed, s: TimedStep)
    requires TimedInv(t) && TimedEnabled(t, s)
    ensures Shaped(TimedTake(t, s)) && DueInv(TimedTake(t, s), s.step.i)
  {
    var i, u := s.step.i, TimedTake(t, s);
    var q := t.system.queues[i];
    assert DueInv(t, i);
    TimedShape(t, s);
    OwnActives(t, s);
    if s.step.Work? {
      StepExecutes(q, s.step.step, t.starts[i], t.clock);
    }
    if u.dues[i].Some? && u.dues[i].value.host.Some? {
      ExecutingStays(t, s, u.dues[i].value.host.value);
    }
    if u.dues[i].Some? && u.dues[i] != t.dues[i] {
      assert IsIdle(q) && t.starts[i] == [];
      assert s.host.Some? ==> DueInv(t, s.host.value.queue);
    }
  }

  lemma {:induction false} OwnActives(t: Timed, s: TimedStep)
    requires TimedInv(t) && TimedEnabled(t, s)
    ensures TimedTake(t, s).dues[s.step.i].Some? <==>
              Actives(TimedTake(t, s).system.queues[s.step.i].adders) == 1
  {
    var q := t.system.queues[s.step.i];
    assert DueInv(t, s.step.i) && Balanced(q) && Announced(q);
    IdleIsAnnounced(q);
    match s.step
    case Work(_, inner) => StepActives(q, inner);
    case ReportActive(_, k) => TotalsAt(q.adders, k, q.adders[k].(active := false));
    case ReportIdle(_) =>
  }

  lemma {:induction false} OtherDue(t: Timed, s: TimedStep, j: nat)
    requires TimedInv(t) && TimedEnabled(t, s) && j < |t.dues| && j != s.step.i
    ensures Shaped(TimedTake(t, s)) && DueInv(TimedTake(t, s), j)
  {
    assert DueInv(t, j);
    TimedShape(t, s);
    if t.dues[j].Some? && t.dues[j].value.host.Some? {
      ExecutingStays(t, s, t.dues[j].value.host.value);
    }
  }

  lemma {:induction false} TimedStepKeeps(t: Timed, s: TimedStep)
    requires TimedInv(t) && TimedEnabled(t, s)
    ensures TimedInv(TimedTake(t, s))
  {
    TimedShape(t, s);
    forall j | 0 <= j < |t.dues|
      ensures DueInv(TimedTake(t, s), j)
    {
      if j == s.step.i {
        OwnDue(t, s);
      } else {
        OtherDue(t, s, j);
      }
    }
  }

  lemma {:induction false} TimedInitHolds(t: Timed)
    requires TimedInit(t)
    ensures TimedInv(t)
  {
    StartsAnnounced(t.system);
  }

  ghost predicate IsTimedRun(run: seq<Timed>, steps: seq<TimedStep>) {
    && |run| == |steps| + 1 && TimedInit(run[0])
    && (forall i :: 0 <= i < |steps| ==> TimedEnabled(run[i], steps[i]) && run[i + 1] == TimedTake(run[i], steps[i]))
  }

  lemma {:induction false} TimedRunsHold(run: seq<Timed>, steps: seq<TimedStep>, i: nat)
    requires IsTimedRun(run, steps) && i < |run|
    ensures TimedInv(run[i])
  {
    if i == 0 {
      TimedInitHolds(run[0]);
    } else {
      TimedRunsHold(run, steps, i - 1);
      TimedStepKeeps(run[i - 1], steps[i - 1]);
    }
  }

  // ------------------------------------------------------- a count of 0

  /** Every thread that has yet to report is inside an executing task. */
  predicate AllHosted(t: Timed) {
    forall j :: 0 <= j < |t.dues| && t.dues[j].Some? ==> t.dues[j].value.host.Some?
  }

  ghost predicate NoContributions(t: Timed) {
    && (forall j :: 0 <= j < |t.system.queues| ==> Contribution(t.system.queues[j]) == 0)
  }

  /** The task around a late thread keeps its own queue from being idle, so that
      queue too has a report due, for an item added still earlier: that cannot go on
      for ever. */
  lemma {:induction false} NoneIsDue(t: Timed, j: nat)
    requires TimedInv(t) && AllHosted(t) && NoContributions(t) && j < |t.dues|
    ensures t.dues[j] == None
    decreases if t.dues[j].Some? then t.dues[j].value.addedAt + 1 else 0
  {
    assert DueInv(t, j);
    if t.dues[j].Some? {
      var h := t.dues[j].value.host.value.queue;
      var q := t.system.queues[h];
      assert DueInv(t, h) && Balanced(q) && Announced(q);
      assert q.executing != [] && !IsIdle(q);
      IdleIsAnnounced(q);
      NoneIsDue(t, h);
      assert false;
    }
  }

  lemma {:induction false} NothingContributes(t: Timed)
    requires TimedInv(t) && t.system.nonIdleQueueCount == 0
    ensures NoContributions(t)
  {
    forall j | 0 <= j < |t.system.queues|
      ensures Contribution(t.system.queues[j]) >= 0
    {
      IdleIsAnnounced(t.system.queues[j]);
    }
    SumOfNone(t.system.queues);
  }

  lemma {:induction false} HostedZero(t: Timed)
    requires TimedInv(t) && AllHosted(t) && t.system.nonIdleQueueCount == 0
    ensures ActiveDue(t.system.queues) == 0
    ensures AllIdle(t.system.queues) && IdleDue(t.system.queues) == 0
  {
    NothingContributes(t);
    forall j | 0 <= j < |t.dues|
      ensures Actives(t.system.queues[j].adders) == 0
    {
      NoneIsDue(t, j);
      assert DueInv(t, j) && Announced(t.system.queues[j]);
    }
    NoneActiveDue(t.system.queues);
    ZeroIff(t.system);
  }

  /** Quitting at a count of 0. In every careful run, whenever the count is 0 and every
      thread that has yet to report is inside a task, all queues are idle and have
      said so: nothing executes, no thread is late, and cleaning up fails no check. */
  lemma {:induction false} ZeroMeansQuiet(run: seq<Timed>, steps: seq<TimedStep>, i: nat)
    requires IsTimedRun(run, steps) && i < |run|
    requires AllHosted(run[i]) && run[i].system.nonIdleQueueCount == 0
    ensures AllIdle(run[i].system.queues) && AllAtRest(run[i].system)
    ensures ActiveDue(run[i].system.queues) == 0 && IdleDue(run[i].system.queues) == 0
    ensures forall j :: 0 <= j < |run[i].system.queues| ==> QueueTake(run[i].system.queues[j], Cleanup).ok
  {
    TimedRunsHold(run, steps, i);
    HostedZero(run[i]);
    IdleIsCleanable(run[i].system);
  }
}
