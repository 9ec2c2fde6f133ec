/** What the count of queues that are not idle tells, and in which order a queue's
    reports "active" and "idle" are made. A run is a list of steps that can be taken
    one after another. */
module IdleReports {
  import opened Collections
  import opened SchedulerQueues

  // ---------------------------------------------------------------- runs

  predicate Plays(s: System, steps: seq<SystemStep>)
    decreases |steps|
  {
    steps == [] || (SystemEnabled(s, steps[0]) && Plays(SystemTake(s, steps[0]), steps[1..]))
  }

  function After(s: System, steps: seq<SystemStep>): System
    requires Plays(s, steps)
    decreases |steps|
  {
    if steps == [] then s else After(SystemTake(s, steps[0]), steps[1..])
  }

  lemma {:induction false} PlaysOn(s: System, first: seq<SystemStep>, rest: seq<SystemStep>)
    requires Plays(s, first)
    ensures Plays(s, first + rest) <==> Plays(After(s, first), rest)
    ensures Plays(s, first + rest) ==> After(s, first + rest) == After(After(s, first), rest)
    decreases |first|
  {
    if first == [] {
      assert first + rest == rest;
    } else {
      assert (first + rest)[1..] == first[1..] + rest;
      PlaysOn(SystemTake(s, first[0]), first[1..], rest);
    }
  }

  lemma {:induction false} RunsKeep(s: System, steps: seq<SystemStep>)
    requires SystemInv(s) && Plays(s, steps)
    ensures SystemInv(After(s, steps)) && |After(s, steps).queues| == |s.queues|
    decreases |steps|
  {
    if steps == [] {
    } else {
      SystemStepKeeps(s, steps[0]);
      RunsKeep(SystemTake(s, steps[0]), steps[1..]);
    }
  }

  // ------------------------------------------------- when the count is exact

  /** Reports still to be made, of either kind. */
  function ActiveDue(queues: seq<Queue>): nat {
    if queues == [] then 0 else Actives(queues[0].adders) + ActiveDue(queues[1..])
  }

  function IdleDue(queues: seq<Queue>): nat {
    if queues == [] then 0 else queues[0].idleReports + IdleDue(queues[1..])
  }

  lemma {:induction false} CountLags(queues: seq<Queue>)
    ensures Contributions(queues) == NonIdle(queues) - ActiveDue(queues) + IdleDue(queues)
  {
    if queues == [] {
    } else {
      CountLags(queues[1..]);
    }
  }

  lemma {:induction false} NoneNonIdle(queues: seq<Queue>)
    ensures NonIdle(queues) == 0 <==> AllIdle(queues)
  {
    if queues == [] {
    } else {
      NoneNonIdle(queues[1..]);
    }
  }

  lemma {:induction false} ExactIff(t: System)
    requires SystemInv(t)
    ensures t.nonIdleQueueCount == NonIdle(t.queues) <==> ActiveDue(t.queues) == IdleDue(t.queues)
  {
    CountLags(t.queues);
  }

  lemma {:induction false} StartsBalanced(s: System)
    requires SystemInit(s)
    ensures SystemInv(s)
  {
    SystemInitHolds(s.queues);
  }

  lemma {:induction false} RunIsBalanced(s: System, steps: seq<SystemStep>)
    requires SystemInit(s) && Plays(s, steps)
    ensures SystemInv(After(s, steps))
  {
    StartsBalanced(s);
    RunsKeep(s, steps);
  }

  /** At every moment of every run the count is the number of queues that are not
      idle exactly when as many reports of one kind are due as of the other. */
  lemma {:induction false} CountIsExactIff(s: System, steps: seq<SystemStep>)
    requires SystemInit(s) && Plays(s, steps)
    ensures var t := After(s, steps);
            t.nonIdleQueueCount == NonIdle(t.queues) <==> ActiveDue(t.queues) == IdleDue(t.queues)
  {
    RunIsBalanced(s, steps);
    ExactIff(After(s, steps));
  }

  ghost predicate AllIdle(queues: seq<Queue>) {
    forall j :: 0 <= j < |queues| ==> IsIdle(queues[j])
  }

  lemma {:induction false} ZeroIff(t: System)
    requires SystemInv(t) && ActiveDue(t.queues) == 0
    ensures t.nonIdleQueueCount == 0 <==> AllIdle(t.queues) && IdleDue(t.queues) == 0
  {
    CountLags(t.queues);
    NoneNonIdle(t.queues);
  }

  /** While no report "active" is due, a count of 0 means that every queue is idle
      and has said so, and conversely. */
  lemma {:induction false} ZeroMeansIdle(s: System, steps: seq<SystemStep>)
    requires SystemInit(s) && Plays(s, steps) && ActiveDue(After(s, steps).queues) == 0
    ensures var t := After(s, steps);
            t.nonIdleQueueCount == 0 <==> AllIdle(t.queues) && IdleDue(t.queues) == 0
  {
    RunIsBalanced(s, steps);
    ZeroIff(After(s, steps));
  }

  // --------------------------------------------- the order of the reports

  /** Reports "active" less reports "idle" that queue `j` has made in a run. */
  function Reports(steps: seq<SystemStep>, j: nat): int
    decreases |steps|
  {
    if steps == [] then 0
    else
      (if steps[0].ReportActive? && steps[0].i == j then 1
       else if steps[0] == ReportIdle(j) then -1
       else 0)
      + Reports(steps[1..], j)
  }

  lemma {:induction false} ReportsAreContribution(s: System, steps: seq<SystemStep>, j: nat)
    requires SystemInv(s) && Plays(s, steps) && j < |s.queues|
    ensures |After(s, steps).queues| == |s.queues|
    ensures Contribution(After(s, steps).queues[j]) == Contribution(s.queues[j]) + Reports(steps, j)
    decreases |steps|
  {
    if steps == [] {
    } else {
      var t := SystemTake(s, steps[0]);
      SystemStepKeeps(s, steps[0]);
      StepReports(s, steps[0], j);
      ReportsAreContribution(t, steps[1..], j);
    }
  }

  lemma {:induction false} StepReports(s: System, step: SystemStep, j: nat)
    requires SystemInv(s) && SystemEnabled(s, step) && j < |s.queues|
    ensures Contribution(SystemTake(s, step).queues[j]) == Contribution(s.queues[j]) + Reports([step], j)
  {
    assert Reports([step], j) ==
           (if step.ReportActive? && step.i == j then 1 else if step == ReportIdle(j) then -1 else 0)
           + Reports([step][1..], j);
    if step.i == j {
      match step
      case Work(_, inner) => QueueStepKeeps(s.queues[j], inner);
      case ReportActive(_, k) => TotalsAt(s.queues[j].adders, k, s.queues[j].adders[k].(active := false));
      case ReportIdle(_) =>
    }
  }

  /** Every thread that has yet to report its queue active holds a task. */
  predicate NoneLate(q: Queue) {
    forall k :: 0 <= k < |q.adders| && q.adders[k].active ==> q.adders[k].tasks > 0
  }

  /** At most one thread has yet to report its queue active; until it has, either it
      holds a task or tasks are kept back because the queue is not running. */
  predicate Announced(q: Queue) {
    && Actives(q.adders) <= 1
    && (NoneLate(q) || (q.runningCount <= 0 && q.numTasksToAdd > 0))
  }

  /** Letting tasks go to others, or throwing them away, while the thread that is to
      report them has not done so. */
  predicate CarefulWork(q: Queue, step: QueueStep) {
    (step == QueueStep.SetRunning(true) && q.runningCount == 0) || (step.Cleanup? && NothingUnderWay(q)) ==>
      NoneLate(q)
  }

  /** The step sets a queue running, or cleans it up, only when no thread is late. */
  predicate Careful(s: System, step: SystemStep) {
    step.Work? && step.i < |s.queues| ==> CarefulWork(s.queues[step.i], step.step)
  }

  predicate AllCareful(s: System, steps: seq<SystemStep>)
    requires Plays(s, steps)
    decreases |steps|
  {
    steps == [] || (Careful(s, steps[0]) && AllCareful(SystemTake(s, steps[0]), steps[1..]))
  }

  lemma {:induction false} ActivesHoldTasks(adders: seq<Adder>)
    requires forall k :: 0 <= k < |adders| && adders[k].active ==> adders[k].tasks > 0
    ensures Actives(adders) <= Grabbed(adders)
  {
    if adders == [] {
    } else {
      ActivesHoldTasks(adders[1..]);
    }
  }

  /** An idle queue has no report "active" due. */
  lemma {:induction false} IdleIsAnnounced(q: Queue)
    requires Balanced(q) && Announced(q)
    ensures IsIdle(q) ==> Actives(q.adders) == 0
    ensures Contribution(q) >= q.idleReports
    ensures Contribution(q) == 0 <==> q.idleReports == 0 && (IsIdle(q) || Actives(q.adders) == 1)
  {
    if NoneLate(q) {
      ActivesHoldTasks(q.adders);
    }
  }

  lemma {:induction false} GrabAnnounces(q: Queue, active: bool)
    requires Announced(q) && (active ==> Actives(q.adders) == 0 && q.numTasksToAdd > 0)
    ensures Announced(Grab(q, active))
  {
    TotalsSplit(q.adders, [Adder(active, q.numTasksToAdd)]);
    TotalsSplit(q.adders, [Adder(active, 0)]);
  }

  lemma {:induction false} QueueStepAnnounces(q: Queue, step: QueueStep)
    requires Balanced(q) && Announced(q) && QueueEnabled(q, step) && CarefulWork(q, step)
    ensures Announced(QueueTake(q, step).queue)
  {
    match step
    case AddItem(item) =>
      IdleIsAnnounced(q);
      GrabAnnounces(q.(items := q.items + [item], numTasksToAdd := q.numTasksToAdd + 1), IsIdle(q));
    case SubmitWaiting => GrabAnnounces(q, false);
    case HandOver(k) => TotalsAt(q.adders, k, Adder(false, q.adders[k].tasks - 1));
    case Return(k) =>
      TotalsAt(q.adders, k, q.adders[k]);
      RemoveAt(q.adders, k);
    case Cleanup => ChecksHoldIff(q);
    case _ =>
  }

  ghost predicate AllAnnounced(s: System) {
    SystemInv(s) && forall j :: 0 <= j < |s.queues| ==> Announced(s.queues[j])
  }

  lemma {:induction false} StepAnnounces(s: System, step: SystemStep)
    requires AllAnnounced(s) && SystemEnabled(s, step) && Careful(s, step)
    ensures AllAnnounced(SystemTake(s, step))
  {
    SystemStepKeeps(s, step);
    match step
    case Work(i, inner) => QueueStepAnnounces(s.queues[i], inner);
    case ReportActive(i, k) => TotalsAt(s.queues[i].adders, k, s.queues[i].adders[k].(active := false));
    case ReportIdle(_) =>
  }

  lemma {:induction false} CarefulRunsAnnounce(s: System, steps: seq<SystemStep>)
    requires AllAnnounced(s) && Plays(s, steps) && AllCareful(s, steps)
    ensures AllAnnounced(After(s, steps)) && |After(s, steps).queues| == |s.queues|
    decreases |steps|
  {
    if steps == [] {
    } else {
      StepAnnounces(s, steps[0]);
      CarefulRunsAnnounce(SystemTake(s, steps[0]), steps[1..]);
    }
  }

  lemma {:induction false} NothingToReport()
    ensures var q := Queue([], 0, 0, 0, [], 0, [], 0); Announced(q) && Contribution(q) == 0
  {
  }

  lemma {:induction false} StartsAnnounced(s: System)
    requires SystemInit(s)
    ensures AllAnnounced(s)
  {
    StartsBalanced(s);
    NothingToReport();
  }

  lemma {:induction false} StartsEven(s: System, j: nat)
    requires SystemInit(s) && j < |s.queues|
    ensures Even(s, j)
  {
    StartsBalanced(s);
    NothingToReport();
  }

  /** What it takes to start counting. */
  predicate Even(s: System, j: nat) {
    SystemInv(s) && j < |s.queues| && Contribution(s.queues[j]) == 0
  }

  lemma {:induction false} EvenRun(s: System, steps: seq<SystemStep>, j: nat)
    requires Even(s, j) && Plays(s, steps)
    ensures |After(s, steps).queues| == |s.queues|
    ensures Contribution(After(s, steps).queues[j]) == Reports(steps, j)
  {
    ReportsAreContribution(s, steps, j);
  }

  lemma {:induction false} RunReports(s: System, steps: seq<SystemStep>, j: nat)
    requires SystemInit(s) && Plays(s, steps) && j < |s.queues|
    ensures |After(s, steps).queues| == |s.queues|
    ensures Contribution(After(s, steps).queues[j]) == Reports(steps, j)
  {
    StartsEven(s, j);
    EvenRun(s, steps, j);
  }

  lemma {:induction false} RunAnnounces(s: System, steps: seq<SystemStep>)
    requires SystemInit(s) && Plays(s, steps) && AllCareful(s, steps)
    ensures AllAnnounced(After(s, steps))
  {
    StartsAnnounced(s);
    CarefulRunsAnnounce(s, steps);
  }

  /** In a run that sets queues running, and cleans them up, only when no thread is
      late, every report "idle" follows a report "active" of its own: a queue has never made more of the
      former, and has made one more of the latter before it makes the next idle one. */
  lemma {:induction false} ActiveComesFirst(s: System, steps: seq<SystemStep>, j: nat)
    requires SystemInit(s) && Plays(s, steps) && AllCareful(s, steps) && j < |s.queues|
    ensures Reports(steps, j) >= 0
    ensures SystemEnabled(After(s, steps), ReportIdle(j)) ==> Reports(steps, j) >= 1
  {
    RunAnnounces(s, steps);
    RunReports(s, steps, j);
    AnnouncedAt(After(s, steps), j);
  }

  lemma {:induction false} AnnouncedAt(t: System, j: nat)
    requires AllAnnounced(t) && j < |t.queues|
    ensures Contribution(t.queues[j]) >= 0
    ensures SystemEnabled(t, ReportIdle(j)) ==> Contribution(t.queues[j]) >= 1
  {
    IdleIsAnnounced(t.queues[j]);
  }

  lemma {:induction false} SumOfNone(queues: seq<Queue>)
    requires forall j :: 0 <= j < |queues| ==> Contribution(queues[j]) >= 0
    ensures Contributions(queues) >= 0
    ensures Contributions(queues) == 0 <==> forall j :: 0 <= j < |queues| ==> Contribution(queues[j]) == 0
  {
    if queues == [] {
    } else {
      SumOfNone(queues[1..]);
    }
  }

  lemma {:induction false} NoneActiveDue(queues: seq<Queue>)
    ensures ActiveDue(queues) == 0 <==> forall j :: 0 <= j < |queues| ==> Actives(queues[j].adders) == 0
  {
    if queues == [] {
    } else {
      NoneActiveDue(queues[1..]);
    }
  }

  lemma {:induction false} ZeroIffAnnounced(t: System)
    requires AllAnnounced(t)
    ensures t.nonIdleQueueCount >= 0
    ensures t.nonIdleQueueCount == 0 ==> (AllIdle(t.queues) <==> ActiveDue(t.queues) == 0)
  {
    forall j | 0 <= j < |t.queues|
      ensures Contribution(t.queues[j]) >= 0
      ensures IsIdle(t.queues[j]) ==> Actives(t.queues[j].adders) == 0
      ensures Contribution(t.queues[j]) == 0 ==> IsIdle(t.queues[j]) || Actives(t.queues[j].adders) == 1
    {
      IdleIsAnnounced(t.queues[j]);
    }
    SumOfNone(t.queues);
    NoneActiveDue(t.queues);
  }

  /** In such a run the count is never negative; and a count of 0 means that every
      queue is idle exactly when no report "active" is due. */
  lemma {:induction false} ZeroMeansIdleIff(s: System, steps: seq<SystemStep>)
    requires SystemInit(s) && Plays(s, steps) && AllCareful(s, steps)
    ensures var t := After(s, steps);
            && t.nonIdleQueueCount >= 0
            && (t.nonIdleQueueCount == 0 ==> (AllIdle(t.queues) <==> ActiveDue(t.queues) == 0))
  {
    RunAnnounces(s, steps);
    ZeroIffAnnounced(After(s, steps));
  }

  // -------------------------------------- and what goes wrong otherwise

  /** One queue replaced. */
  function With(s: System, j: nat, q: Queue): System
    requires j < |s.queues|
  {
    s.(queues := s.queues[j := q])
  }

  lemma {:induction false} WorkFirst(s: System, j: nat, q: Queue, step: QueueStep, rest: seq<SystemStep>)
    requires j < |s.queues| && QueueEnabled(q, step) && QueueTake(q, step).ok && CarefulWork(q, step)
    requires Plays(With(s, j, QueueTake(q, step).queue), rest) && AllCareful(With(s, j, QueueTake(q, step).queue), rest)
    ensures var steps := [Work(j, step)] + rest;
            && Plays(With(s, j, q), steps) && AllCareful(With(s, j, q), steps)
            && After(With(s, j, q), steps) == After(With(s, j, QueueTake(q, step).queue), rest)
  {
    var r := QueueTake(q, step).queue;
    assert SystemTake(With(s, j, q), Work(j, step)) == With(s, j, r) by {
      assert s.queues[j := q][j := r] == s.queues[j := r];
    }
    assert ([Work(j, step)] + rest)[1..] == rest;
  }

  lemma {:induction false} NoTasks(adders: seq<Adder>)
    requires forall k :: 0 <= k < |adders| ==> adders[k].tasks == 0
    ensures Grabbed(adders) == 0
  {
    if adders == [] {
    } else {
      NoTasks(adders[1..]);
    }
  }

  lemma {:induction false} NoActives(adders: seq<Adder>)
    requires Actives(adders) == 0
    ensures forall k :: 0 <= k < |adders| ==> !adders[k].active
  {
    if adders == [] {
    } else {
      NoActives(adders[1..]);
    }
  }

  lemma {:induction false} OneActive(adders: seq<Adder>, k: nat)
    requires Actives(adders) <= 1 && k < |adders| && adders[k].active
    ensures Actives(adders) == 1
    ensures forall l :: 0 <= l < |adders| && l != k ==> !adders[l].active
  {
    var x := adders[k].(active := false);
    TotalsAt(adders, k, x);
    NoActives(adders[k := x]);
    assert forall l :: 0 <= l < |adders| && l != k ==> adders[k := x][l] == adders[l];
  }

  lemma {:induction false} TopExists(items: seq<Item>) returns (k: nat)
    requires items != []
    ensures IsTop(items, k)
  {
    var n := |items| - 1;
    if n == 0 {
      k := 0;
    } else {
      k := TopExists(items[..n]);
      forall j | 0 <= j < |items|
        ensures !RunsAfter(items[if RunsAfter(items[k], items[n]) then n else k], items[j])
      {
        assert j < n ==> items[..n][j] == items[j] && !RunsAfter(items[k], items[j]);
        RunsAfterIsStrictWeakOrder(items[k], items[n], items[j]);
        RunsAfterIsStrictWeakOrder(items[n], items[j], items[k]);
      }
      k := if RunsAfter(items[k], items[n]) then n else k;
    }
  }

  function Outstanding(q: Queue): nat {
    3 * Grabbed(q.adders) + 2 * q.submitted + |q.executing|
  }

  /** The next step towards an idle queue. */
  lemma {:induction false} DrainStep(q: Queue) returns (step: QueueStep)
    requires Balanced(q) && q.numTasksToAdd == 0 && !IsIdle(q)
    requires forall k :: 0 <= k < |q.adders| && q.adders[k].active ==> q.adders[k].tasks == 0
    ensures QueueEnabled(q, step) && QueueTake(q, step).ok && CarefulWork(q, step)
    ensures var r := QueueTake(q, step).queue;
            && Balanced(r) && r.numTasksToAdd == 0 && Outstanding(r) < Outstanding(q)
            && Actives(r.adders) == Actives(q.adders)
            && (forall k :: 0 <= k < |r.adders| && r.adders[k].active ==> r.adders[k].tasks == 0)
  {
    if k :| 0 <= k < |q.adders| && q.adders[k].tasks > 0 {
      step := HandOver(k);
      TotalsAt(q.adders, k, Adder(false, q.adders[k].tasks - 1));
    } else {
      NoTasks(q.adders);
      if q.submitted > 0 {
        var k := TopExists(q.items);
        step := RunNext(k);
      } else {
        step := Finish(0);
      }
    }
    QueueStepKeeps(q, step);
  }

  /** Everything waiting or under way is run and finished, while a thread that has
      yet to report its queue active stays where it is. */
  lemma {:induction false} Drain(s: System, j: nat, q: Queue) returns (steps: seq<SystemStep>, r: Queue)
    requires j < |s.queues| && Balanced(q) && q.numTasksToAdd == 0
    requires forall k :: 0 <= k < |q.adders| && q.adders[k].active ==> q.adders[k].tasks == 0
    ensures Plays(With(s, j, q), steps) && AllCareful(With(s, j, q), steps)
    ensures After(With(s, j, q), steps) == With(s, j, r)
    ensures IsIdle(r) && Actives(r.adders) == Actives(q.adders)
    decreases Outstanding(q)
  {
    if IsIdle(q) {
      steps, r := [], q;
    } else {
      var step := DrainStep(q);
      var rest;
      rest, r := Drain(s, j, QueueTake(q, step).queue);
      WorkFirst(s, j, q, step, rest);
      steps := [Work(j, step)] + rest;
    }
  }

  /** All reports "idle" of a queue are made. */
  lemma {:induction false} ReportAll(s: System, j: nat, n: nat) returns (steps: seq<SystemStep>)
    requires j < |s.queues| && s.queues[j].idleReports == n
    ensures Plays(s, steps) && AllCareful(s, steps)
    ensures |After(s, steps).queues| == |s.queues|
    ensures After(s, steps).queues[j] == s.queues[j].(idleReports := 0)
    decreases n
  {
    if n == 0 {
      steps := [];
    } else {
      var rest := ReportAll(SystemTake(s, ReportIdle(j)), j, n - 1);
      steps := [ReportIdle(j)] + rest;
      assert steps[1..] == rest;
    }
  }

  lemma {:induction false} CarefulOn(s: System, first: seq<SystemStep>, rest: seq<SystemStep>)
    requires Plays(s, first) && Plays(After(s, first), rest)
    requires AllCareful(s, first) && AllCareful(After(s, first), rest)
    ensures Plays(s, first + rest) && AllCareful(s, first + rest)
    ensures After(s, first + rest) == After(After(s, first), rest)
    decreases |first|
  {
    PlaysOn(s, first, rest);
    if first == [] {
      assert first + rest == rest;
    } else {
      assert (first + rest)[1..] == first[1..] + rest;
      CarefulOn(SystemTake(s, first[0]), first[1..], rest);
    }
  }

  /** A running queue whose tasks another thread takes before the one that is to
      report them has done so reports "idle" first. */
  lemma {:induction false} Overtaken(s: System, j: nat, q: Queue) returns (steps: seq<SystemStep>)
    requires j < |s.queues| && Balanced(q) && q.runningCount > 0 && Actives(q.adders) > 0
    requires forall k :: 0 <= k < |q.adders| && q.adders[k].active ==> q.adders[k].tasks == 0
    ensures Plays(With(s, j, q), steps) && AllCareful(With(s, j, q), steps)
    ensures |After(With(s, j, q), steps).queues| == |s.queues|
    ensures Contribution(After(With(s, j, q), steps).queues[j]) < 0
  {
    var q1 := QueueTake(q, SubmitWaiting).queue;
    GrabKeeps(q, false);
    var rest, r := Drain(s, j, q1);
    var last := ReportAll(With(s, j, r), j, r.idleReports);
    CarefulOn(With(s, j, q1), rest, last);
    WorkFirst(s, j, q, SubmitWaiting, rest + last);
    steps := [Work(j, SubmitWaiting)] + (rest + last);
  }

  /** What a step that is not careful can lead to. */
  lemma {:induction false} CarelessStep(s: System, j: nat, step: QueueStep) returns (more: seq<SystemStep>)
    requires AllAnnounced(s) && j < |s.queues| && QueueEnabled(s.queues[j], step)
    requires !CarefulWork(s.queues[j], step)
    ensures Continues(s, Work(j, step), more)
    ensures |After(s, more).queues| == |s.queues| && Contribution(After(s, more).queues[j]) < 0
  {
    var q := s.queues[j];
    var k :| 0 <= k < |q.adders| && q.adders[k].active && q.adders[k].tasks == 0;
    OneActive(q.adders, k);
    var r := QueueTake(q, step).queue;
    QueueStepKeeps(q, step);
    var t := SystemTake(s, Work(j, step));
    assert t == With(s, j, r) == With(t, j, r);
    var rest;
    if step.Cleanup? {
      ChecksHoldIff(q);
      rest := ReportAll(t, j, r.idleReports);
    } else {
      rest := Overtaken(t, j, r);
    }
    more := [Work(j, step)] + rest;
    assert more[1..] == rest;
  }

  /** A continuation that is careful but for its first step. */
  predicate Continues(s: System, step: SystemStep, more: seq<SystemStep>) {
    && more != [] && more[0] == step && Plays(s, more)
    && AllCareful(SystemTake(s, step), more[1..])
  }

  lemma {:induction false} CarefulStep(s: System, step: SystemStep, more: seq<SystemStep>, j: nat)
    requires AllAnnounced(s) && Careful(s, step) && Continues(s, step, more) && j < |s.queues|
    ensures |After(s, more).queues| == |s.queues| && Contribution(After(s, more).queues[j]) >= 0
  {
    CarefulRunsAnnounce(s, more);
    IdleIsAnnounced(After(s, more).queues[j]);
  }

  lemma {:induction false} ReportsAfter(s: System, before: seq<SystemStep>, j: nat, more: seq<SystemStep>)
    requires SystemInit(s) && Plays(s, before) && j < |s.queues| && Plays(After(s, before), more)
    ensures |After(After(s, before), more).queues| == |s.queues|
    ensures Reports(before + more, j) == Contribution(After(After(s, before), more).queues[j])
  {
    PlaysOn(s, before, more);
    RunReports(s, before + more, j);
  }

  lemma {:induction false} CarefulIsEnough(s: System, before: seq<SystemStep>, j: nat, step: QueueStep,
        more: seq<SystemStep>)
    requires SystemInit(s) && Plays(s, before) && AllCareful(s, before) && j < |s.queues|
    requires Continues(After(s, before), Work(j, step), more) && Careful(After(s, before), Work(j, step))
    ensures Reports(before + more, j) >= 0
  {
    RunAnnounces(s, before);
    ReportsAfter(s, before, j, more);
    CarefulStep(After(s, before), Work(j, step), more, j);
  }

  lemma {:induction false} CarefulIsNeeded(s: System, before: seq<SystemStep>, j: nat, step: QueueStep)
      returns (more: seq<SystemStep>)
    requires SystemInit(s) && Plays(s, before) && AllCareful(s, before) && j < |s.queues|
    requires |After(s, before).queues| == |s.queues| && QueueEnabled(After(s, before).queues[j], step)
    requires !CarefulWork(After(s, before).queues[j], step)
    ensures Continues(After(s, before), Work(j, step), more) && Reports(before + more, j) < 0
  {
    RunAnnounces(s, before);
    more := CarelessStep(After(s, before), j, step);
    ReportsAfter(s, before, j, more);
  }

  /** The exact condition. After a careful run from the start, setting a queue running
      or cleaning it up is safe if and only if no thread is late: then, however
      carefully the run goes on, the queue never reports "idle" more often than
      "active"; and otherwise some careful continuation makes it do so. */
  lemma {:induction false} CarefulIsExact(s: System, before: seq<SystemStep>, j: nat, step: QueueStep)
    requires SystemInit(s) && Plays(s, before) && AllCareful(s, before) && j < |s.queues|
    requires |After(s, before).queues| == |s.queues| && QueueEnabled(After(s, before).queues[j], step)
    ensures CarefulWork(After(s, before).queues[j], step) <==>
              forall more :: Continues(After(s, before), Work(j, step), more) ==> Reports(before + more, j) >= 0
  {
    var t := After(s, before);
    if CarefulWork(t.queues[j], step) {
      forall more | Continues(t, Work(j, step), more)
        ensures Reports(before + more, j) >= 0
      {
        CarefulIsEnough(s, before, j, step, more);
      }
    } else {
      var more := CarefulIsNeeded(s, before, j, step);
    }
  }

  // -------------------------------------------------- a count of 0 in passing

  lemma {:induction false} PlaysFrom(q: Queue, step: QueueStep, r: Queue, rest: seq<SystemStep>)
    requires QueueEnabled(q, step) && QueueTake(q, step) == QueueResult(r, true)
    requires Plays(Alone(r), rest) && AllCareful(Alone(r), rest)
    requires CarefulWork(q, step)
    ensures var steps := [Work(0, step)] + rest;
            && Plays(Alone(q), steps) && AllCareful(Alone(q), steps)
            && After(Alone(q), steps) == After(Alone(r), rest)
  {
    AloneStep(q, step);
    assert ([Work(0, step)] + rest)[1..] == rest;
  }

  /** A queue that has been running all along, and to which two threads have added. */
  function TwoAdders(a: Item, b: Item): Queue {
    Queue([a, b], 0, 2, 1, [Adder(true, 1), Adder(false, 1)], 0, [], 0)
  }

  function AddingTwo(a: Item, b: Item): seq<SystemStep> {
    [Work(0, QueueStep.SetRunning(true))] + ([Work(0, AddItem(a))] + ([Work(0, AddItem(b))] + []))
  }

  lemma {:induction false} TwoThreadsAdd(a: Item, b: Item)
    ensures var s := Alone(Queue([], 0, 0, 0, [], 0, [], 0));
            && SystemInit(s) && Plays(s, AddingTwo(a, b)) && AllCareful(s, AddingTwo(a, b))
            && After(s, AddingTwo(a, b)) == Alone(TwoAdders(a, b))
  {
    var q0 := Queue([], 0, 0, 0, [], 0, [], 0);
    var q1 := q0.(runningCount := 1);
    var q2 := q1.(items := [a], numPendingTasks := 1, adders := [Adder(true, 1)]);
    assert QueueTake(q1, AddItem(a)).queue == q2;
    assert q2.items + [b] == [a, b] && q2.adders + [Adder(false, 1)] == [Adder(true, 1), Adder(false, 1)];
    assert QueueTake(q2, AddItem(b)).queue == TwoAdders(a, b);
    PlaysFrom(q2, AddItem(b), TwoAdders(a, b), []);
    PlaysFrom(q1, AddItem(a), q2, [Work(0, AddItem(b))] + []);
    PlaysFrom(q0, QueueStep.SetRunning(true), q1, [Work(0, AddItem(a))] + ([Work(0, AddItem(b))] + []));
  }

  /** The second thread submits, and a task starts, before the first has reported:
      the count is 0 while an item executes, although every step was careful. */
  lemma {:induction false} SecondAdderOvertakes(a: Item, b: Item, k: nat)
    requires IsTop([a, b], k)
    ensures var s := Alone(TwoAdders(a, b));
            var steps := [Work(0, HandOver(1))] + ([Work(0, RunNext(k))] + []);
            && Plays(s, steps) && AllCareful(s, steps)
            && After(s, steps).nonIdleQueueCount == 0
            && |After(s, steps).queues| == 1 && !IsIdle(After(s, steps).queues[0])
            && After(s, steps).queues[0].executing == [[a, b][k]]
  {
    var q3 := TwoAdders(a, b);
    var q4 := q3.(adders := [Adder(true, 1), Adder(false, 0)], submitted := 1);
    assert q3.adders[1 := Adder(false, 0)] == q4.adders;
    assert QueueTake(q3, HandOver(1)).queue == q4;
    var q5 := QueueTake(q4, RunNext(k)).queue;
    PlaysFrom(q4, RunNext(k), q5, []);
    PlaysFrom(q3, HandOver(1), q4, [Work(0, RunNext(k))] + []);
  }

  // --------------------------------------------------- opening before the start

  /** Items have been added by a thread that has reported, and wait for the queue to
      run. */
  function Opening(items: seq<Item>): System {
    System([Queue(items, |items|, 0, 0, [], 0, [], 0)], if items == [] then 0 else 1, false)
  }

  /** One item more: it is added, the queue is reported active if it was idle, and
      the call returns. */
  function OpeningOne(first: bool, item: Item): seq<SystemStep> {
    [Work(0, AddItem(item))] + ((if first then [ReportActive(0, 0)] else []) + [Work(0, Return(0))])
  }

  function OpeningAll(items: seq<Item>): seq<SystemStep> {
    if items == [] then []
    else
      var n := |items| - 1;
      OpeningAll(items[..n]) + OpeningOne(n == 0, items[n])
  }

  lemma {:induction false} StepFirst(s: System, step: SystemStep, rest: seq<SystemStep>)
    requires SystemEnabled(s, step) && Careful(s, step)
    requires Plays(SystemTake(s, step), rest) && AllCareful(SystemTake(s, step), rest)
    ensures Plays(s, [step] + rest) && AllCareful(s, [step] + rest)
    ensures After(s, [step] + rest) == After(SystemTake(s, step), rest)
  {
    assert ([step] + rest)[1..] == rest;
  }

  lemma {:induction false} OpensOne(items: seq<Item>, item: Item)
    ensures Plays(Opening(items), OpeningOne(items == [], item))
    ensures AllCareful(Opening(items), OpeningOne(items == [], item))
    ensures After(Opening(items), OpeningOne(items == [], item)) == Opening(items + [item])
  {
    var first := items == [];
    var q1 := Queue(items + [item], |items| + 1, 0, 0, [Adder(first, 0)], 0, [], 0);
    var t1 := System([q1], if first then 0 else 1, false);
    var t2 := System([q1.(adders := [Adder(false, 0)])], 1, false);
    assert [] + [Adder(first, 0)] == [Adder(first, 0)] && [Adder(first, 0)][0 := Adder(false, 0)] == [Adder(false, 0)];
    assert SystemTake(Opening(items), Work(0, AddItem(item))) == t1;
    assert Remove([Adder(false, 0)], 0) == [];
    assert SystemTake(t2, Work(0, Return(0))) == Opening(items + [item]);
    StepFirst(t2, Work(0, Return(0)), []);
    if first {
      assert SystemTake(t1, ReportActive(0, 0)) == t2;
      StepFirst(t1, ReportActive(0, 0), [Work(0, Return(0))]);
    }
    var rest := (if first then [ReportActive(0, 0)] else []) + [Work(0, Return(0))];
    StepFirst(Opening(items), Work(0, AddItem(item)), rest);
  }

  /** Nodes are opened before the queues run: each is added to a queue that is not
      running, by a thread that reports. Setting the queue running then is careful. */
  lemma {:induction false} OpeningIsCareful(items: seq<Item>)
    ensures SystemInit(Opening([]))
    ensures Plays(Opening([]), OpeningAll(items)) && AllCareful(Opening([]), OpeningAll(items))
    ensures After(Opening([]), OpeningAll(items)) == Opening(items)
    ensures Careful(Opening(items), Work(0, QueueStep.SetRunning(true)))
  {
    if items == [] {
    } else {
      var n := |items| - 1;
      OpeningIsCareful(items[..n]);
      OpensOne(items[..n], items[n]);
      CarefulOn(Opening([]), OpeningAll(items[..n]), OpeningOne(n == 0, items[n]));
      assert items[..n] + [items[n]] == items;
    }
  }

  // ------------------------------------------------------------ cleaning up

  ghost predicate AllAtRest(s: System) {
    forall j :: 0 <= j < |s.queues| ==> NothingUnderWay(s.queues[j])
  }

  lemma {:induction false} IdleIsCleanable(t: System)
    requires SystemInv(t) && AllIdle(t.queues)
    ensures AllAtRest(t)
    ensures forall j :: 0 <= j < |t.queues| ==> QueueTake(t.queues[j], Cleanup).ok
  {
    forall j | 0 <= j < |t.queues|
      ensures NothingUnderWay(t.queues[j]) && QueueTake(t.queues[j], Cleanup).ok
    {
      assert Balanced(t.queues[j]) && IsIdle(t.queues[j]);
      ChecksHoldIff(t.queues[j]);
    }
  }

  /** In every run, a count of 0 while no report "active" is due means that the checks
      made when the queues are cleaned up will hold. */
  lemma {:induction false} ZeroMeansCleanable(s: System, steps: seq<SystemStep>)
    requires SystemInit(s) && Plays(s, steps)
    requires After(s, steps).nonIdleQueueCount == 0 && ActiveDue(After(s, steps).queues) == 0
    ensures AllAtRest(After(s, steps))
    ensures forall j :: 0 <= j < |After(s, steps).queues| ==> QueueTake(After(s, steps).queues[j], Cleanup).ok
  {
    RunIsBalanced(s, steps);
    ZeroMeansIdle(s, steps);
    IdleIsCleanable(After(s, steps));
  }

  /** Once nothing is under way and the queues have been stopped, nothing starts until
      one is set running again, whatever is added. */
  lemma {:induction false} StoppedStays(s: System, step: SystemStep)
    requires SystemInv(s) && SystemEnabled(s, step) && AllAtRest(s)
    requires forall j :: 0 <= j < |s.queues| ==> s.queues[j].runningCount <= 0
    requires !(step.Work? && step.step == QueueStep.SetRunning(true))
    ensures AllAtRest(SystemTake(s, step)) && |SystemTake(s, step).queues| == |s.queues|
    ensures forall j :: 0 <= j < |s.queues| ==> SystemTake(s, step).queues[j].runningCount <= 0
    ensures SystemTake(s, step).aborted == s.aborted
  {
    SystemStepKeeps(s, step);
    var q := s.queues[step.i];
    match step
    case Work(_, inner) => RestStays(q, inner);
    case ReportActive(_, k) => TotalsAt(q.adders, k, q.adders[k].(active := false));
    case ReportIdle(_) =>
  }

  lemma {:induction false} TasksAt(adders: seq<Adder>, k: nat)
    requires k < |adders|
    ensures adders[k].tasks <= Grabbed(adders)
  {
    TotalsAt(adders, k, adders[k]);
  }

  lemma {:induction false} RestStays(q: Queue, step: QueueStep)
    requires NothingUnderWay(q) && q.runningCount <= 0 && QueueEnabled(q, step) && step != QueueStep.SetRunning(true)
    ensures NothingUnderWay(QueueTake(q, step).queue) && QueueTake(q, step).queue.runningCount <= 0
  {
    TotalsSplit(q.adders, [Adder(IsIdle(q), 0)]);
    TotalsSplit(q.adders, [Adder(false, 0)]);
    match step
    case HandOver(k) => TasksAt(q.adders, k);
    case Return(k) => TotalsAt(q.adders, k, q.adders[k]);
    case _ =>
  }

  /** A careful run after which the count is 0 and cleaning up fails its check: the
      thread that added an item holds its task and has yet to report. */
  lemma {:induction false} CleanupMayFail(a: Item)
    ensures var s := Alone(Queue([], 0, 0, 0, [], 0, [], 0));
            var steps := [Work(0, QueueStep.SetRunning(true))] + ([Work(0, AddItem(a))] + []);
            && SystemInit(s) && Plays(s, steps) && AllCareful(s, steps)
            && After(s, steps) == Alone(Queue([a], 0, 1, 1, [Adder(true, 1)], 0, [], 0))
            && After(s, steps).nonIdleQueueCount == 0
            && SystemTake(After(s, steps), Work(0, Cleanup)).aborted
  {
    var q0 := Queue([], 0, 0, 0, [], 0, [], 0);
    var q1 := q0.(runningCount := 1);
    var q2 := Queue([a], 0, 1, 1, [Adder(true, 1)], 0, [], 0);
    assert QueueTake(q1, AddItem(a)).queue == q2;
    PlaysFrom(q1, AddItem(a), q2, []);
    PlaysFrom(q0, QueueStep.SetRunning(true), q1, [Work(0, AddItem(a))] + []);
  }
}
