/** The priority queues of runnable nodes and the accounting of tasks between a
    queue and its executor. Executors are a bag of submitted tasks, started in any
    order; several queues share one count of queues that are not idle. */
module SchedulerQueues {
  import opened Collections

  // ------------------------------------------------------ the order of items

  datatype Item = Item(id: int, isSource: bool, layer: int, processOrder: int, isOpen: bool)

  /** "This runs after that", as the priority queue reads it. */
  predicate RunsAfter(a: Item, b: Item) {
    if a.isOpen || b.isOpen then
      if !b.isOpen then false
      else if !a.isOpen then true
      else a.id > b.id
    else if a.isSource then
      if !b.isSource then true
      else if a.layer != b.layer then a.layer > b.layer
      else if a.processOrder != b.processOrder then a.processOrder > b.processOrder
      else a.id > b.id
    else if b.isSource then false
    else a.id < b.id
  }

  predicate Tied(a: Item, b: Item) {
    !RunsAfter(a, b) && !RunsAfter(b, a)
  }

  /** RunsAfter is a strict weak order, as a priority queue requires, and ties only
      items that agree in all that the comparison is meant to look at. */
  lemma {:induction false} RunsAfterIsStrictWeakOrder(a: Item, b: Item, c: Item)
    ensures !RunsAfter(a, a)
    ensures RunsAfter(a, b) ==> !RunsAfter(b, a)
    ensures RunsAfter(a, b) && RunsAfter(b, c) ==> RunsAfter(a, c)
    ensures Tied(a, b) && Tied(b, c) ==> Tied(a, c)
    ensures Tied(a, b) <==>
              && a.isOpen == b.isOpen && a.id == b.id
              && (a.isOpen || (a.isSource == b.isSource
                               && (a.isSource ==> a.layer == b.layer && a.processOrder == b.processOrder)))
  {
  }

  /** Nothing in the queue is to run before the item at `k`. */
  predicate IsTop(queue: seq<Item>, k: nat) {
    k < |queue| && forall j :: 0 <= j < |queue| ==> !RunsAfter(queue[k], queue[j])
  }

  /** What is promised of the item taken next: a node's Open comes before any
      Process, and a source runs only when nothing but sources of its layer or of
      higher ones is waiting. */
  lemma {:induction false} TopRespectsPriorities(queue: seq<Item>, k: nat, j: nat)
    requires IsTop(queue, k) && j < |queue|
    ensures queue[j].isOpen ==> queue[k].isOpen
    ensures !queue[k].isOpen && queue[k].isSource ==> queue[j].isSource && queue[j].layer >= queue[k].layer
  {
    assert !RunsAfter(queue[k], queue[j]);
  }

  /** Opens, in the order of the nodes; then nodes that are not sources, the last one
      first, since it is nearest to the outputs; then sources by layer, by the order
      they ask for, and by node. */
  predicate NoLater(a: Item, b: Item) {
    if a.isOpen && b.isOpen then a.id <= b.id
    else if a.isOpen || b.isOpen then a.isOpen
    else if !a.isSource && !b.isSource then a.id >= b.id
    else if !a.isSource || !b.isSource then !a.isSource
    else
      || a.layer < b.layer
      || (a.layer == b.layer && a.processOrder < b.processOrder)
      || (a.layer == b.layer && a.processOrder == b.processOrder && a.id <= b.id)
  }

  /** Exactly such an item may be taken next. */
  lemma {:induction false} TopIff(queue: seq<Item>, k: nat)
    requires k < |queue|
    ensures IsTop(queue, k) <==> forall j :: 0 <= j < |queue| ==> NoLater(queue[k], queue[j])
  {
    forall j | 0 <= j < |queue|
      ensures !RunsAfter(queue[k], queue[j]) <==> NoLater(queue[k], queue[j])
    {
    }
  }

  // --------------------------------------------------------- one queue

  /** A thread between its critical section and the end of the call: it may still
      have to report the queue active, and then has tasks to hand over. */
  datatype Adder = Adder(active: bool, tasks: nat)

  /** The four guarded fields, and what threads hold in their hands: adders, tasks
      handed to the executor, tasks executing, and reports "idle" not yet made. */
  datatype Queue = Queue(
    items: seq<Item>,
    numTasksToAdd: nat,
    numPendingTasks: int,
    runningCount: int,
    adders: seq<Adder>,
    submitted: nat,
    executing: seq<Item>,
    idleReports: nat)

  predicate IsIdle(q: Queue) {
    q.items == [] && q.numPendingTasks == 0
  }

  /** All tasks waiting to be handed over are taken by the calling thread. */
  function Grab(q: Queue, active: bool): Queue {
    if q.runningCount > 0 then
      q.(numTasksToAdd := 0, numPendingTasks := q.numPendingTasks + q.numTasksToAdd,
         adders := q.adders + [Adder(active, q.numTasksToAdd)])
    else q.(adders := q.adders + [Adder(active, 0)])
  }

  datatype QueueStep =
    | AddItem(item: Item)
    | SubmitWaiting
    | SetRunning(running: bool)
    | HandOver(k: nat)
    | Return(k: nat)
    | RunNext(k: nat)
    | Finish(k: nat)
    | Cleanup

  /** Reports are made by the system below. */
  predicate QueueEnabled(q: Queue, step: QueueStep) {
    match step
    case HandOver(k) => k < |q.adders| && !q.adders[k].active && q.adders[k].tasks > 0
    case Return(k) => k < |q.adders| && q.adders[k] == Adder(false, 0)
    case RunNext(k) => q.submitted > 0 && (q.items != [] ==> IsTop(q.items, k))
    case Finish(k) => k < |q.executing|
    case _ => true
  }

  /** `ok` is false when one of the code's checks fails; nothing happens then. */
  datatype QueueResult = QueueResult(queue: Queue, ok: bool)

  function QueueTake(q: Queue, step: QueueStep): QueueResult
    requires QueueEnabled(q, step)
  {
    match step
    case AddItem(item) =>
      QueueResult(Grab(q.(items := q.items + [item], numTasksToAdd := q.numTasksToAdd + 1), IsIdle(q)), true)
    case SubmitWaiting => QueueResult(Grab(q, false), true)
    case SetRunning(running) =>
      QueueResult(q.(runningCount := q.runningCount + if running then 1 else -1), true)
    case HandOver(k) =>
      QueueResult(q.(adders := q.adders[k := Adder(false, q.adders[k].tasks - 1)], submitted := q.submitted + 1), true)
    case Return(k) => QueueResult(q.(adders := Remove(q.adders, k)), true)
    case RunNext(k) =>
      if q.items == [] then QueueResult(q, false)
      else QueueResult(q.(submitted := q.submitted - 1, items := Remove(q.items, k),
                          executing := q.executing + [q.items[k]]), true)
    case Finish(k) =>
      var r := q.(numPendingTasks := q.numPendingTasks - 1, executing := Remove(q.executing, k));
      QueueResult(if IsIdle(r) then r.(idleReports := r.idleReports + 1) else r, q.numPendingTasks > 0)
    case Cleanup =>
      if q.numPendingTasks != 0 || q.numTasksToAdd != |q.items| then QueueResult(q, false)
      else QueueResult(q.(items := [], numTasksToAdd := 0,
                          idleReports := q.idleReports + if IsIdle(q) then 0 else 1), true)
  }

  function Grabbed(adders: seq<Adder>): nat {
    if adders == [] then 0 else adders[0].tasks + Grabbed(adders[1..])
  }

  function Actives(adders: seq<Adder>): nat {
    if adders == [] then 0 else (if adders[0].active then 1 else 0) + Actives(adders[1..])
  }

  lemma {:induction false} TotalsSplit(xs: seq<Adder>, ys: seq<Adder>)
    ensures Grabbed(xs + ys) == Grabbed(xs) + Grabbed(ys)
    ensures Actives(xs + ys) == Actives(xs) + Actives(ys)
  {
    if xs == [] {
      assert xs + ys == ys;
    } else {
      assert (xs + ys)[1..] == xs[1..] + ys;
      TotalsSplit(xs[1..], ys);
    }
  }

  lemma {:induction false} TotalsAt(xs: seq<Adder>, k: nat, x: Adder)
    requires k < |xs|
    ensures Grabbed(xs[k := x]) == Grabbed(xs) - xs[k].tasks + x.tasks
    ensures Actives(xs[k := x]) == Actives(xs) - (if xs[k].active then 1 else 0) + if x.active then 1 else 0
    ensures Grabbed(Remove(xs, k)) == Grabbed(xs) - xs[k].tasks
    ensures Actives(Remove(xs, k)) == Actives(xs) - if xs[k].active then 1 else 0
  {
    assert xs == xs[..k] + ([xs[k]] + xs[k + 1..]);
    assert xs[k := x] == xs[..k] + ([x] + xs[k + 1..]);
    TotalsSplit(xs[..k], [xs[k]] + xs[k + 1..]);
    TotalsSplit(xs[..k], [x] + xs[k + 1..]);
    TotalsSplit(xs[..k], xs[k + 1..]);
  }

  /** Every item waits for exactly one task, and every task not yet finished is
      counted as pending from the moment it was taken. */
  predicate Balanced(q: Queue) {
    && |q.items| == q.numTasksToAdd + Grabbed(q.adders) + q.submitted
    && q.numPendingTasks == Grabbed(q.adders) + q.submitted + |q.executing|
  }

  /** No task is in a thread's hands, in the executor, or executing. */
  predicate NothingUnderWay(q: Queue) {
    Grabbed(q.adders) == 0 && q.submitted == 0 && q.executing == []
  }

  /** The two checks made when a queue is cleaned up hold in that case only. */
  lemma {:induction false} ChecksHoldIff(q: Queue)
    requires Balanced(q)
    ensures q.numPendingTasks == 0 && q.numTasksToAdd == |q.items| <==> NothingUnderWay(q)
  {
  }

  /** How far the reports made lag behind the state of the queue. */
  function Contribution(q: Queue): int {
    (if IsIdle(q) then 0 else 1) - Actives(q.adders) + q.idleReports
  }

  lemma {:induction false} GrabKeeps(q: Queue, active: bool)
    requires |q.items| == q.numTasksToAdd + Grabbed(q.adders) + q.submitted
    requires q.numPendingTasks == Grabbed(q.adders) + q.submitted + |q.executing|
    ensures Balanced(Grab(q, active))
    ensures Actives(Grab(q, active).adders) == Actives(q.adders) + if active then 1 else 0
  {
    TotalsSplit(q.adders, [Adder(active, q.numTasksToAdd)]);
    TotalsSplit(q.adders, [Adder(active, 0)]);
  }

  lemma {:induction false} AddItemKeeps(q: Queue, item: Item)
    requires Balanced(q)
    ensures var r := QueueTake(q, AddItem(item)); r.ok && Balanced(r.queue) && Contribution(r.queue) == Contribution(q)
  {
    GrabKeeps(q.(items := q.items + [item], numTasksToAdd := q.numTasksToAdd + 1), IsIdle(q));
  }

  lemma {:induction false} RunNextKeeps(q: Queue, k: nat)
    requires Balanced(q) && QueueEnabled(q, RunNext(k))
    ensures var r := QueueTake(q, RunNext(k)); r.ok && Balanced(r.queue) && Contribution(r.queue) == Contribution(q)
  {
    assert q.items != [];
  }

  lemma {:induction false} FinishKeeps(q: Queue, k: nat)
    requires Balanced(q) && QueueEnabled(q, Finish(k))
    ensures var r := QueueTake(q, Finish(k)); r.ok && Balanced(r.queue) && Contribution(r.queue) == Contribution(q)
  {
  }

  lemma {:induction false} CleanupKeeps(q: Queue)
    requires Balanced(q)
    ensures var r := QueueTake(q, Cleanup);
            (r.ok <==> NothingUnderWay(q)) && Balanced(r.queue) && Contribution(r.queue) == Contribution(q)
  {
    ChecksHoldIff(q);
  }

  /** Each critical section keeps the balance and moves reports and state together;
      no check fails but those of cleaning up, and these exactly while a task is
      under way. */
  lemma {:induction false} QueueStepKeeps(q: Queue, step: QueueStep)
    requires Balanced(q) && QueueEnabled(q, step)
    ensures QueueTake(q, step).ok <==> (step.Cleanup? ==> NothingUnderWay(q))
    ensures Balanced(QueueTake(q, step).queue)
    ensures Contribution(QueueTake(q, step).queue) == Contribution(q)
  {
    match step
    case AddItem(item) => AddItemKeeps(q, item);
    case SubmitWaiting => GrabKeeps(q, false);
    case SetRunning(_) =>
    case HandOver(k) => TotalsAt(q.adders, k, Adder(false, q.adders[k].tasks - 1));
    case Return(k) => TotalsAt(q.adders, k, q.adders[k]);
    case RunNext(k) => RunNextKeeps(q, k);
    case Finish(k) => FinishKeeps(q, k);
    case Cleanup => CleanupKeeps(q);
  }

  // ------------------------------------------------- all queues together

  /** `nonIdleQueueCount` goes up with each report "active" and down with each
      report "idle". */
  datatype System = System(queues: seq<Queue>, nonIdleQueueCount: int, aborted: bool)

  datatype SystemStep =
    | Work(i: nat, step: QueueStep)
    | ReportActive(i: nat, k: nat)
    | ReportIdle(i: nat)

  predicate SystemEnabled(s: System, step: SystemStep) {
    match step
    case Work(i, inner) => i < |s.queues| && QueueEnabled(s.queues[i], inner)
    case ReportActive(i, k) => i < |s.queues| && k < |s.queues[i].adders| && s.queues[i].adders[k].active
    case ReportIdle(i) => i < |s.queues| && s.queues[i].idleReports > 0
  }

  function SystemTake(s: System, step: SystemStep): System
    requires SystemEnabled(s, step)
  {
    match step
    case Work(i, inner) =>
      var r := QueueTake(s.queues[i], inner);
      s.(queues := s.queues[i := r.queue], aborted := s.aborted || !r.ok)
    case ReportActive(i, k) =>
      var q := s.queues[i];
      s.(queues := s.queues[i := q.(adders := q.adders[k := q.adders[k].(active := false)])],
         nonIdleQueueCount := s.nonIdleQueueCount + 1)
    case ReportIdle(i) =>
      var q := s.queues[i];
      s.(queues := s.queues[i := q.(idleReports := q.idleReports - 1)],
         nonIdleQueueCount := s.nonIdleQueueCount - 1)
  }

  predicate SystemInit(s: System) {
    && (forall i :: 0 <= i < |s.queues| ==> s.queues[i] == Queue([], 0, 0, 0, [], 0, [], 0))
    && s.nonIdleQueueCount == 0 && !s.aborted
  }

  function Contributions(queues: seq<Queue>): int {
    if queues == [] then 0 else Contribution(queues[0]) + Contributions(queues[1..])
  }

  lemma {:induction false} ContributionsSplit(xs: seq<Queue>, ys: seq<Queue>)
    ensures Contributions(xs + ys) == Contributions(xs) + Contributions(ys)
  {
    if xs == [] {
      assert xs + ys == ys;
    } else {
      assert (xs + ys)[1..] == xs[1..] + ys;
      ContributionsSplit(xs[1..], ys);
    }
  }

  lemma {:induction false} ContributionsAt(xs: seq<Queue>, i: nat, x: Queue)
    requires i < |xs|
    ensures Contributions(xs[i := x]) == Contributions(xs) - Contribution(xs[i]) + Contribution(x)
  {
    assert xs == xs[..i] + ([xs[i]] + xs[i + 1..]);
    assert xs[i := x] == xs[..i] + ([x] + xs[i + 1..]);
    ContributionsSplit(xs[..i], [xs[i]] + xs[i + 1..]);
    ContributionsSplit(xs[..i], [x] + xs[i + 1..]);
  }

  predicate SystemInv(s: System) {
    && (forall i :: 0 <= i < |s.queues| ==> Balanced(s.queues[i]))
    && s.nonIdleQueueCount == Contributions(s.queues)
  }

  /** A queue is cleaned up while a task is under way. */
  predicate CleansEarly(s: System, step: SystemStep) {
    step.Work? && step.step.Cleanup? && step.i < |s.queues| && !NothingUnderWay(s.queues[step.i])
  }

  lemma {:induction false} SystemStepKeeps(s: System, step: SystemStep)
    requires SystemInv(s) && SystemEnabled(s, step)
    ensures SystemInv(SystemTake(s, step))
    ensures SystemTake(s, step).aborted <==> s.aborted || CleansEarly(s, step)
  {
    var t := SystemTake(s, step);
    ContributionsAt(s.queues, step.i, t.queues[step.i]);
    match step
    case Work(i, inner) => QueueStepKeeps(s.queues[i], inner);
    case ReportActive(i, k) => TotalsAt(s.queues[i].adders, k, s.queues[i].adders[k].(active := false));
    case ReportIdle(_) =>
  }

  lemma {:induction false} SystemInitHolds(queues: seq<Queue>)
    requires forall i :: 0 <= i < |queues| ==> queues[i] == Queue([], 0, 0, 0, [], 0, [], 0)
    ensures Contributions(queues) == 0
    ensures forall i :: 0 <= i < |queues| ==> Balanced(queues[i])
  {
    if queues == [] {
    } else {
      SystemInitHolds(queues[1..]);
    }
  }

  ghost predicate IsSystemRun(run: seq<System>, steps: seq<SystemStep>) {
    && |run| == |steps| + 1 && SystemInit(run[0])
    && (forall i :: 0 <= i < |steps| ==>
          SystemEnabled(run[i], steps[i]) && run[i + 1] == SystemTake(run[i], steps[i]))
  }

  /** Over all interleavings tasks and items are conserved, and the count of queues
      that are not idle is off by exactly the reports still to be made. */
  lemma {:induction false} TasksAreConserved(run: seq<System>, steps: seq<SystemStep>, i: nat)
    requires IsSystemRun(run, steps) && i < |run|
    ensures SystemInv(run[i])
  {
    if i == 0 {
      SystemInitHolds(run[0].queues);
    } else {
      TasksAreConserved(run, steps, i - 1);
      SystemStepKeeps(run[i - 1], steps[i - 1]);
    }
  }

  lemma {:induction false} AbortsIff(run: seq<System>, steps: seq<SystemStep>, i: nat)
    requires IsSystemRun(run, steps) && i < |run|
    ensures run[i].aborted <==> exists k :: 0 <= k < i && CleansEarly(run[k], steps[k])
  {
    if i == 0 {
    } else {
      AbortsIff(run, steps, i - 1);
      TasksAreConserved(run, steps, i - 1);
      SystemStepKeeps(run[i - 1], steps[i - 1]);
    }
  }

  /** A task about to start finds an item; and a check has failed exactly if a queue
      was cleaned up while a task was under way. */
  lemma {:induction false} TaskFindsItem(run: seq<System>, steps: seq<SystemStep>, i: nat, j: nat)
    requires IsSystemRun(run, steps) && i < |run| && j < |run[i].queues|
    ensures run[i].queues[j].submitted > 0 ==> run[i].queues[j].items != []
    ensures run[i].aborted <==> exists k :: 0 <= k < i && CleansEarly(run[k], steps[k])
  {
    TasksAreConserved(run, steps, i);
    assert Balanced(run[i].queues[j]);
    AbortsIff(run, steps, i);
  }

  /** With no report outstanding the count is the number of queues not idle. */
  function NonIdle(queues: seq<Queue>): nat {
    if queues == [] then 0 else (if IsIdle(queues[0]) then 0 else 1) + NonIdle(queues[1..])
  }

  predicate AllReported(queues: seq<Queue>) {
    forall i :: 0 <= i < |queues| ==> Actives(queues[i].adders) == 0 && queues[i].idleReports == 0
  }

  lemma {:induction false} ReportedCount(queues: seq<Queue>)
    requires AllReported(queues)
    ensures Contributions(queues) == NonIdle(queues)
  {
    if queues == [] {
    } else {
      ReportedCount(queues[1..]);
    }
  }

  lemma {:induction false} CountIsExactWhenReported(run: seq<System>, steps: seq<SystemStep>, i: nat)
    requires IsSystemRun(run, steps) && i < |run| && AllReported(run[i].queues)
    ensures run[i].nonIdleQueueCount == NonIdle(run[i].queues)
  {
    TasksAreConserved(run, steps, i);
    ReportedCount(run[i].queues);
  }

  /** One queue, and nothing reported yet. */
  function Alone(q: Queue): System {
    System([q], 0, false)
  }

  lemma {:induction false} AloneStep(q: Queue, step: QueueStep)
    requires QueueEnabled(q, step) && QueueTake(q, step).ok
    ensures SystemTake(Alone(q), Work(0, step)) == Alone(QueueTake(q, step).queue)
  {
    assert [q][0 := QueueTake(q, step).queue] == [QueueTake(q, step).queue];
  }

  /** A node is added while the queue is not running; before the thread that added
      it has reported the queue active, another thread lets the queue run and takes
      what is waiting. */
  lemma {:induction false} TaskTakenEarly(item: Item)
    ensures var s0 := Alone(Queue([], 0, 0, 0, [], 0, [], 0));
            var s1 := SystemTake(s0, Work(0, AddItem(item)));
            var s2 := SystemTake(s1, Work(0, SetRunning(true)));
            SystemTake(s2, Work(0, SubmitWaiting))
            == Alone(Queue([item], 0, 1, 1, [Adder(true, 0), Adder(false, 1)], 0, [], 0))
  {
    var q0 := Queue([], 0, 0, 0, [], 0, [], 0);
    var q1 := Queue([item], 1, 0, 0, [Adder(true, 0)], 0, [], 0);
    var q2 := q1.(runningCount := 1);
    assert [] + [item] == [item] && [] + [Adder(true, 0)] == [Adder(true, 0)];
    assert QueueTake(q0, AddItem(item)).queue == q1;
    AloneStep(q0, AddItem(item));
    AloneStep(q1, SetRunning(true));
    assert [Adder(true, 0)] + [Adder(false, 1)] == [Adder(true, 0), Adder(false, 1)];
    assert QueueTake(q2, SubmitWaiting).queue
        == Queue([item], 0, 1, 1, [Adder(true, 0), Adder(false, 1)], 0, [], 0);
    AloneStep(q2, SubmitWaiting);
  }

  /** From there the node executes while the count is 0, and once its end is
      reported the count is below 0. */
  lemma {:induction false} CountMayMislead(item: Item)
    ensures var s3 := Alone(Queue([item], 0, 1, 1, [Adder(true, 0), Adder(false, 1)], 0, [], 0));
            SystemEnabled(s3, Work(0, HandOver(1))) &&
            var s4 := SystemTake(s3, Work(0, HandOver(1)));
            SystemEnabled(s4, Work(0, RunNext(0))) &&
            var s5 := SystemTake(s4, Work(0, RunNext(0)));
            && s5 == Alone(Queue([], 0, 1, 1, [Adder(true, 0), Adder(false, 0)], 0, [item], 0))
            && SystemEnabled(s5, Work(0, Finish(0))) &&
            var s6 := SystemTake(s5, Work(0, Finish(0)));
            SystemEnabled(s6, ReportIdle(0)) && SystemTake(s6, ReportIdle(0)).nonIdleQueueCount == -1
  {
    var q3 := Queue([item], 0, 1, 1, [Adder(true, 0), Adder(false, 1)], 0, [], 0);
    var q4 := Queue([item], 0, 1, 1, [Adder(true, 0), Adder(false, 0)], 1, [], 0);
    var q5 := Queue([], 0, 1, 1, [Adder(true, 0), Adder(false, 0)], 0, [item], 0);
    var q6 := Queue([], 0, 0, 1, [Adder(true, 0), Adder(false, 0)], 0, [], 1);
    assert Remove([item], 0) == [] && [] + [item] == [item];
    assert q3.adders[1 := Adder(false, 0)] == q4.adders;
    assert QueueTake(q3, HandOver(1)).queue == q4;
    AloneStep(q3, HandOver(1));
    assert IsTop([item], 0);
    assert QueueTake(q4, RunNext(0)).queue == q5;
    AloneStep(q4, RunNext(0));
    assert QueueTake(q5, Finish(0)).queue == q6;
    AloneStep(q5, Finish(0));
    assert SystemEnabled(Alone(q6), ReportIdle(0));
  }

  // ---------------------------------------------------------------- the class

  class SchedulerQueue {
    var queue: seq<Item>
    var numPendingTasks: int
    var numTasksToAdd: nat
    var runningCount: int

    /** The guarded fields as part of a queue whose threads hold the rest. */
    function State(adders: seq<Adder>, submitted: nat, executing: seq<Item>, idleReports: nat): Queue
      reads this
    {
      Queue(queue, numTasksToAdd, numPendingTasks, runningCount, adders, submitted, executing, idleReports)
    }

    constructor ()
      ensures State([], 0, [], 0) == Queue([], 0, 0, 0, [], 0, [], 0)
    {
      queue, numPendingTasks, numTasksToAdd, runningCount := [], 0, 0, 0;
    }

    method GetTasksToSubmitToExecutor() returns (tasksToAdd: nat)
      modifies this
      ensures tasksToAdd == old(numTasksToAdd) && numTasksToAdd == 0
      ensures numPendingTasks == old(numPendingTasks) + tasksToAdd
      ensures queue == old(queue) && runningCount == old(runningCount)
    {
      tasksToAdd := numTasksToAdd;
      numTasksToAdd := 0;
      numPendingTasks := numPendingTasks + tasksToAdd;
    }

    /** The critical section of AddItemToQueue. */
    method AddItemToQueue(item: Item, ghost adders: seq<Adder>, ghost submitted: nat, ghost executing: seq<Item>,
          ghost idleReports: nat)
      returns (wasIdle: bool, tasksToAdd: nat)
      modifies this
      ensures State(adders + [Adder(wasIdle, tasksToAdd)], submitted, executing, idleReports)
              == QueueTake(old(State(adders, submitted, executing, idleReports)), AddItem(item)).queue
    {
      wasIdle := queue == [] && numPendingTasks == 0;
      queue := queue + [item];
      numTasksToAdd := numTasksToAdd + 1;
      tasksToAdd := 0;
      if runningCount > 0 {
        tasksToAdd := GetTasksToSubmitToExecutor();
      }
    }

    /** The critical section of SubmitWaitingTasksToExecutor. */
    method SubmitWaitingTasks(ghost adders: seq<Adder>, ghost submitted: nat, ghost executing: seq<Item>,
          ghost idleReports: nat)
      returns (tasksToAdd: nat)
      modifies this
      ensures State(adders + [Adder(false, tasksToAdd)], submitted, executing, idleReports)
              == QueueTake(old(State(adders, submitted, executing, idleReports)), SubmitWaiting).queue
    {
      tasksToAdd := 0;
      if runningCount > 0 {
        tasksToAdd := GetTasksToSubmitToExecutor();
      }
    }

    /** Takes out an item that nothing else is to run before. */
    method PopTop() returns (item: Item, ghost k: nat)
      requires queue != []
      modifies this`queue
      ensures IsTop(old(queue), k) && item == old(queue)[k] && queue == Remove(old(queue), k)
    {
      var top, j := 0, 1;
      while j < |queue|
        invariant 0 <= top < j <= |queue|
        invariant forall i :: 0 <= i < j ==> !RunsAfter(queue[top], queue[i])
      {
        if RunsAfter(queue[top], queue[j]) {
          forall i | 0 <= i < j
            ensures !RunsAfter(queue[j], queue[i])
          {
            RunsAfterIsStrictWeakOrder(queue[top], queue[j], queue[i]);
          }
          top := j;
        }
        j := j + 1;
      }
      RunsAfterIsStrictWeakOrder(queue[top], queue[top], queue[top]);
      item := queue[top];
      queue := queue[..top] + queue[top + 1..];
      k := top;
    }

    /** The end of RunNextTask. */
    method FinishTask(ghost adders: seq<Adder>, ghost submitted: nat, ghost executing: seq<Item>,
          ghost idleReports: nat, ghost k: nat)
      returns (isIdle: bool)
      requires k < |executing| && Balanced(State(adders, submitted, executing, idleReports))
      modifies this
      ensures State(adders, submitted, Remove(executing, k), idleReports + if isIdle then 1 else 0)
              == QueueTake(old(State(adders, submitted, executing, idleReports)), Finish(k)).queue
    {
      numPendingTasks := numPendingTasks - 1;
      isIdle := queue == [] && numPendingTasks == 0;
    }

    /** `ok` is false when a check fails; the program ends then. */
    method CleanupAfterRun(ghost adders: seq<Adder>, ghost submitted: nat, ghost executing: seq<Item>,
          ghost idleReports: nat)
      returns (wasIdle: bool, ok: bool)
      requires Balanced(State(adders, submitted, executing, idleReports))
      modifies this
      ensures ok <==> NothingUnderWay(old(State(adders, submitted, executing, idleReports)))
      ensures QueueResult(State(adders, submitted, executing, idleReports + if ok && !wasIdle then 1 else 0), ok)
              == QueueTake(old(State(adders, submitted, executing, idleReports)), Cleanup)
      ensures wasIdle == IsIdle(old(State(adders, submitted, executing, idleReports)))
      ensures ok ==> queue == [] && numTasksToAdd == 0 && numPendingTasks == 0
    {
      ChecksHoldIff(State(adders, submitted, executing, idleReports));
      wasIdle := queue == [] && numPendingTasks == 0;
      ok := numPendingTasks == 0 && numTasksToAdd == |queue|;
      if !ok {
        return;
      }
      numTasksToAdd := 0;
      while queue != []
        invariant numPendingTasks == old(numPendingTasks) && runningCount == old(runningCount) && numTasksToAdd == 0
        decreases |queue|
      {
        var _, _ := PopTop();
      }
    }
  }
}
