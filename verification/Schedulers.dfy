/** The scheduler's state machine. Its mutex is dropped in two places inside
    HandleIdle: while a layer of sources is being added to the queues, and while
    sources are being unthrottled. Everything else HandleIdle does is done with
    the mutex held, so other threads get in at those two places only; what needs
    no mutex, such as a source closing, can happen anywhere.

    Every queue sees the same SetRunning calls; one of them is followed here. */
module Schedulers {

  datatype RunState = NotStarted | Running | Paused | Cancelling | Terminated

  /** Where the one thread inside HandleIdle is. At `Pausing`, `Adding` and
      `Unthrottling` it does not hold the mutex. */
  datatype Point =
    | Outside
    | Guard
    | Cleaning
    | Deciding
    | Pausing
    | Adding(next: nat)
    | Unthrottling
    | Rechecking

  /** `missed` is history: whether a call has returned early since the thread in
      the body last looked at its guard. */
  datatype Control = Control(
    state: RunState,
    handlingIdle: nat,
    point: Point,
    runningCount: int,
    nonIdleQueueCount: int,
    inputsClosed: bool,
    throttledInputs: int,
    hasError: bool,
    missed: bool)

  /** Sources are numbered, and `layers` gives their layers. The last two fields are
      history: sources dropped from the active ones, and the layers activated. */
  datatype Sources = Sources(
    layers: seq<int>,
    unopened: set<nat>,
    ready: set<nat>,
    active: seq<nat>,
    activated: set<nat>,
    closed: set<nat>,
    retired: set<nat>,
    activations: seq<int>)

  datatype Scheduler = Scheduler(control: Control, sources: Sources, aborted: bool)

  datatype Call =
    | Start
    | IdleChanged(idle: bool)
    | AddedPacket
    | ClosedInputs
    | Pause
    | Resume
    | Cancel
    | Throttle(throttled: bool)

  datatype Step =
    | Outer(call: Call)
    | AddSource(source: nat)
    | CloseSource(source: nat)
    | RecordError
    | EvaluateGuard
    | CleanOne
    | Decide(picked: seq<nat>)
    | LowerCount
    | AddNext
    | RaiseCount
    | Unthrottled(did: bool)
    | Recheck

  // ------------------------------------------------------------- the mutex

  predicate LockFree(c: Control) {
    c.point.Outside? || c.point.Pausing? || c.point.Adding? || c.point.Unthrottling?
  }

  predicate IsRunning(c: Control) {
    c.state == Running || c.state == Cancelling
  }

  /** The start of HandleIdle. */
  function Handle(c: Control): Control {
    var d := c.(handlingIdle := c.handlingIdle + 1);
    if d.handlingIdle > 1 then d.(missed := true) else d.(point := Guard)
  }

  function Leave(c: Control): Control {
    c.(handlingIdle := 0, point := Outside)
  }

  /** Calls from outside. Starting twice is an error of the caller. */
  function Called(c: Control, call: Call): Control {
    match call
    case Start => Handle(c.(state := Running, runningCount := c.runningCount + 1))
    case IdleChanged(idle) =>
      var d := c.(nonIdleQueueCount := c.nonIdleQueueCount + if idle then -1 else 1);
      if d.nonIdleQueueCount == 0 then Handle(d) else d
    case AddedPacket => if c.state == Terminated then c else Handle(c)
    case ClosedInputs => Handle(c.(inputsClosed := true))
    case Pause => if c.state != Running then c else c.(state := Paused, runningCount := c.runningCount - 1)
    case Resume =>
      if c.state != Paused then c else Handle(c.(state := Running, runningCount := c.runningCount + 1))
    case Cancel =>
      if c.state != Running && c.state != Paused then c
      else
        Handle(c.(hasError := true, state := Cancelling,
                  runningCount := c.runningCount + if c.state == Paused then 1 else 0))
    case Throttle(throttled) => c.(throttledInputs := c.throttledInputs + if throttled then 1 else -1)
  }

  function Guarded(c: Control): Control {
    var d := c.(missed := false);
    if c.nonIdleQueueCount == 0 && IsRunning(c) then d.(point := Cleaning) else Leave(d)
  }

  function Stopped(c: Control): Control {
    Leave(c.(runningCount := c.runningCount - 1, state := Terminated))
  }

  function Rechecked(c: Control): Control {
    if c.handlingIdle > 1 then c.(handlingIdle := 1, point := Guard) else Leave(c)
  }

  // ------------------------------------------------------------ the sources

  predicate Source(s: Sources, i: nat) {
    i < |s.layers|
  }

  /** No source waiting is in a lower layer than `i`. */
  predicate LowestReady(s: Sources, i: nat) {
    i in s.ready && Source(s, i) && forall j :: j in s.ready && Source(s, j) ==> s.layers[i] <= s.layers[j]
  }

  /** All sources of the lowest layer waiting, in the order they are taken. */
  predicate PicksLayer(s: Sources, picked: seq<nat>) {
    && picked != [] && LowestReady(s, picked[0])
    && (forall k :: 0 <= k < |picked| ==>
          picked[k] in s.ready && Source(s, picked[k]) && s.layers[picked[k]] == s.layers[picked[0]])
    && (forall k, l :: 0 <= k < l < |picked| ==> picked[k] != picked[l])
    && (forall j :: j in s.ready && Source(s, j) && s.layers[j] == s.layers[picked[0]] ==> j in picked)
  }

  /** A source not even opened would have to come before the next layer. */
  predicate LowerUnopened(s: Sources, i: nat) {
    Source(s, i) && exists j :: j in s.unopened && Source(s, j) && s.layers[j] < s.layers[i]
  }

  function Picked(s: Sources, picked: seq<nat>): Sources
    requires PicksLayer(s, picked)
  {
    s.(active := picked, ready := s.ready - (set i | i in picked),
       activations := s.activations + [s.layers[picked[0]]])
  }

  predicate LastClosed(s: Sources) {
    s.active != [] && s.active[|s.active| - 1] in s.closed
  }

  function DropLast(s: Sources): Sources
    requires s.active != []
  {
    var last := s.active[|s.active| - 1];
    s.(active := s.active[..|s.active| - 1], retired := s.retired + {last})
  }

  // ------------------------------------------------------------------ steps

  predicate Enabled(s: Scheduler, step: Step) {
    match step
    case Outer(call) => LockFree(s.control) && (call.Start? ==> s.control.state == NotStarted)
    case AddSource(i) => LockFree(s.control) && i in s.sources.unopened
    case CloseSource(i) => i in s.sources.activated
    case RecordError => true
    case EvaluateGuard => s.control.point.Guard?
    case CleanOne => s.control.point.Cleaning?
    case Decide(picked) =>
      && s.control.point.Deciding?
      && (s.sources.active == [] && s.sources.ready != {} ==> PicksLayer(s.sources, picked))
    case LowerCount => s.control.point.Pausing?
    case AddNext => s.control.point.Adding? && s.control.point.next < |s.sources.active|
    case RaiseCount => s.control.point.Adding? && s.control.point.next >= |s.sources.active|
    case Unthrottled(_) => s.control.point.Unthrottling?
    case Recheck => s.control.point.Rechecking?
  }

  function Decided(s: Scheduler, picked: seq<nat>): Scheduler
    requires s.sources.active == [] && s.sources.ready != {} ==> PicksLayer(s.sources, picked)
  {
    var c, r := s.control, s.sources;
    if c.hasError || (r.active == [] && r.ready == {} && c.inputsClosed) then
      Scheduler(Stopped(c), r, s.aborted || !IsRunning(c))
    else if r.active == [] && r.ready != {} then
      if LowerUnopened(r, picked[0]) then
        Scheduler(c.(hasError := c.hasError || c.inputsClosed, point := Guard), r, s.aborted)
      else Scheduler(c.(point := Pausing), Picked(r, picked), s.aborted)
    else if r.active != [] || c.throttledInputs > 0 then Scheduler(c.(point := Unthrottling), r, s.aborted)
    else Scheduler(c.(point := Rechecking), r, s.aborted)
  }

  function Take(s: Scheduler, step: Step): Scheduler
    requires Enabled(s, step)
  {
    var c, r := s.control, s.sources;
    match step
    case Outer(call) => s.(control := Called(c, call))
    case AddSource(i) => s.(sources := r.(unopened := r.unopened - {i}, ready := r.ready + {i}))
    case CloseSource(i) => s.(sources := r.(closed := r.closed + {i}))
    case RecordError => s.(control := c.(hasError := true))
    case EvaluateGuard => s.(control := Guarded(c))
    case CleanOne =>
      if LastClosed(r) then s.(sources := DropLast(r)) else s.(control := c.(point := Deciding))
    case Decide(picked) => Decided(s, picked)
    case LowerCount => s.(control := c.(runningCount := c.runningCount - 1, point := Adding(0)))
    case AddNext =>
      var i := r.active[c.point.next];
      Scheduler(c.(point := Adding(c.point.next + 1)), r.(activated := r.activated + {i}),
                s.aborted || i in r.activated || i in r.closed)
    case RaiseCount => s.(control := c.(runningCount := c.runningCount + 1, point := Guard))
    case Unthrottled(did) => s.(control := c.(point := if did then Guard else Rechecking))
    case Recheck => s.(control := Rechecked(c))
  }

  ghost predicate Init(s: Scheduler) {
    && s.control == Control(NotStarted, 0, Outside, 0, 0, s.control.inputsClosed, 0, false, false)
    && (forall i :: i in s.sources.unopened <==> 0 <= i < |s.sources.layers|)
    && s.sources == Sources(s.sources.layers, s.sources.unopened, {}, [], {}, {}, {}, [])
    && !s.aborted
  }

  // ------------------------------------------- the body and the counts

  /** One thread at most is in the body; a call that returned early has been
      answered by a look at the guard, or will be before that thread leaves; and
      the queue runs just as much as the state says, less one while a layer is
      being added. */
  predicate BodyInv(c: Control) {
    && (c.point.Outside? <==> c.handlingIdle == 0)
    && (c.missed ==> c.handlingIdle > 1 || c.point.Guard?)
    && (c.point.Outside? || c.point.Cleaning? || c.point.Deciding? ==> !c.missed)
    && c.runningCount == (if IsRunning(c) then 1 else 0) - (if c.point.Adding? then 1 else 0)
    && (c.point.Cleaning? || c.point.Deciding? ==> IsRunning(c))
  }

  lemma {:induction false} CalledKeepsBody(c: Control, call: Call)
    requires BodyInv(c) && LockFree(c) && (call.Start? ==> c.state == NotStarted)
    ensures BodyInv(Called(c, call)) && Called(c, call).runningCount <= 1
  {
  }

  lemma {:induction false} BodyStep(s: Scheduler, step: Step)
    requires BodyInv(s.control) && Enabled(s, step)
    ensures BodyInv(Take(s, step).control) && Take(s, step).control.runningCount <= 1
  {
    if step.Outer? {
      CalledKeepsBody(s.control, step.call);
    }
  }

  // ------------------------------------------------------- layers

  /** Every source is in exactly one place, and is dropped only once closed. */
  ghost predicate SourcesInv(s: Sources) {
    && (forall i :: i in s.unopened || i in s.ready || i in s.active || i in s.retired <==> 0 <= i < |s.layers|)
    && (forall i :: i in s.unopened ==> i !in s.ready && i !in s.active && i !in s.retired)
    && (forall i :: i in s.ready ==> i !in s.active && i !in s.retired)
    && (forall i :: i in s.active ==> i !in s.retired)
    && (forall k, l :: 0 <= k < l < |s.active| ==> s.active[k] != s.active[l])
    && (forall i :: i in s.retired ==> i in s.closed)
    && (forall i :: i in s.closed ==> i in s.activated)
    && (forall i :: i in s.activated ==> i in s.active || i in s.retired)
  }

  /** Sources of the layer in hand count as activated one after another. */
  ghost predicate ActivatedInv(p: Point, s: Sources) {
    && (p.Adding? ==> p.next <= |s.active|)
    && (p.Pausing? ==> forall k :: 0 <= k < |s.active| ==> s.active[k] !in s.activated)
    && (p.Adding? ==> forall k :: p.next <= k < |s.active| ==> s.active[k] !in s.activated)
  }

  /** Below the layer activated last every source is closed. */
  ghost predicate LayersInv(s: Sources) {
    && (forall k, l :: 0 <= k < l < |s.activations| ==> s.activations[k] <= s.activations[l])
    && (s.activations != [] ==>
          forall i :: 0 <= i < |s.layers| && s.layers[i] < s.activations[|s.activations| - 1] ==> i in s.retired)
  }

  lemma {:induction false} PickedSources(s: Sources, picked: seq<nat>)
    requires SourcesInv(s) && s.active == [] && PicksLayer(s, picked)
    ensures SourcesInv(Picked(s, picked)) && ActivatedInv(Pausing, Picked(s, picked))
  {
    var t := Picked(s, picked);
    assert forall i :: i in t.ready || i in t.active <==> i in s.ready;
    assert forall i :: i in s.activated ==> i in s.retired;
  }

  lemma {:induction false} DroppedSources(s: Sources)
    requires SourcesInv(s) && LastClosed(s)
    ensures SourcesInv(DropLast(s))
  {
    var t, n := DropLast(s), |s.active| - 1;
    assert forall i :: i in s.active <==> i in t.active || i == s.active[n] by {
      assert s.active == t.active + [s.active[n]];
    }
    forall i | i in t.active
      ensures i !in t.retired
    {
      var k :| 0 <= k < n && t.active[k] == i;
      assert s.active[k] != s.active[n];
    }
  }

  lemma {:induction false} OtherSources(s: Scheduler, step: Step)
    requires SourcesInv(s.sources) && ActivatedInv(s.control.point, s.sources) && Enabled(s, step)
    requires step.AddSource? || step.CloseSource? || step.AddNext?
    ensures SourcesInv(Take(s, step).sources) && ActivatedInv(Take(s, step).control.point, Take(s, step).sources)
  {
  }

  /** What makes a layer the next: nothing lower is active, ready or unopened. */
  lemma {:induction false} LowerLayersClosed(s: Sources, picked: seq<nat>, i: nat)
    requires SourcesInv(s) && s.active == [] && PicksLayer(s, picked) && !LowerUnopened(s, picked[0])
    requires Source(s, i) && s.layers[i] < s.layers[picked[0]]
    ensures i in s.retired && i in s.closed
  {
    assert LowestReady(s, picked[0]);
    assert i !in s.unopened;
  }

  lemma {:induction false} PickedLayers(s: Sources, picked: seq<nat>)
    requires SourcesInv(s) && LayersInv(s) && s.active == [] && PicksLayer(s, picked) && !LowerUnopened(s, picked[0])
    ensures LayersInv(Picked(s, picked))
  {
    var t, layer := Picked(s, picked), s.layers[picked[0]];
    forall i | 0 <= i < |s.layers| && s.layers[i] < layer
      ensures i in t.retired
    {
      LowerLayersClosed(s, picked, i);
    }
    if s.activations != [] {
      assert picked[0] !in s.retired;
      assert layer >= s.activations[|s.activations| - 1];
    }
  }

  lemma {:induction false} OtherLayers(s: Sources, t: Sources)
    requires LayersInv(s) && t.layers == s.layers && t.activations == s.activations && s.retired <= t.retired
    ensures LayersInv(t)
  {
  }

  ghost predicate Inv(s: Scheduler) {
    && BodyInv(s.control) && SourcesInv(s.sources) && ActivatedInv(s.control.point, s.sources)
    && LayersInv(s.sources) && !s.aborted
  }

  lemma {:induction false} DecideKeeps(s: Scheduler, picked: seq<nat>)
    requires Inv(s) && Enabled(s, Decide(picked))
    ensures Inv(Decided(s, picked))
  {
    BodyStep(s, Decide(picked));
    if Decided(s, picked).control.point.Pausing? {
      PickedSources(s.sources, picked);
      PickedLayers(s.sources, picked);
    }
  }

  /** ActivateNode finds an open source that was never activated. */
  lemma {:induction false} SourceStepKeeps(s: Scheduler, step: Step)
    requires Inv(s) && Enabled(s, step)
    requires step.AddSource? || step.CloseSource? || step.AddNext?
    ensures Inv(Take(s, step))
  {
    BodyStep(s, step);
    OtherSources(s, step);
    OtherLayers(s.sources, Take(s, step).sources);
    if step.AddNext? {
      assert s.sources.active[s.control.point.next] !in s.sources.activated;
    }
  }

  lemma {:induction false} CleanKeeps(s: Scheduler)
    requires Inv(s) && Enabled(s, CleanOne)
    ensures Inv(Take(s, CleanOne))
  {
    BodyStep(s, CleanOne);
    if LastClosed(s.sources) {
      DroppedSources(s.sources);
      OtherLayers(s.sources, DropLast(s.sources));
    }
  }

  lemma {:induction false} ControlStepKeeps(s: Scheduler, step: Step)
    requires Inv(s) && Enabled(s, step)
    requires !step.AddSource? && !step.CloseSource? && !step.AddNext? && !step.CleanOne? && !step.Decide?
    ensures Inv(Take(s, step))
  {
    BodyStep(s, step);
    assert Take(s, step).sources == s.sources;
    PointMoves(s, step);
  }

  lemma {:induction false} PointMoves(s: Scheduler, step: Step)
    requires Enabled(s, step) && ActivatedInv(s.control.point, s.sources)
    requires !step.AddSource? && !step.CloseSource? && !step.AddNext? && !step.CleanOne? && !step.Decide?
    ensures ActivatedInv(Take(s, step).control.point, s.sources)
  {
    if step.Outer? {
      CalledMoves(s.control, step.call);
    }
  }

  /** A call from outside starts the body or leaves it where it is. */
  lemma {:induction false} CalledMoves(c: Control, call: Call)
    ensures Called(c, call).point == c.point || Called(c, call).point == Guard
  {
  }

  lemma {:induction false} StepKeeps(s: Scheduler, step: Step)
    requires Inv(s) && Enabled(s, step)
    ensures Inv(Take(s, step))
  {
    match step
    case Decide(picked) => DecideKeeps(s, picked);
    case CleanOne => CleanKeeps(s);
    case AddSource(_) => SourceStepKeeps(s, step);
    case CloseSource(_) => SourceStepKeeps(s, step);
    case AddNext => SourceStepKeeps(s, step);
    case _ => ControlStepKeeps(s, step);
  }

  ghost predicate IsRun(run: seq<Scheduler>, steps: seq<Step>) {
    && |run| == |steps| + 1 && Init(run[0])
    && (forall i :: 0 <= i < |steps| ==> Enabled(run[i], steps[i]) && run[i + 1] == Take(run[i], steps[i]))
  }

  lemma {:induction false} RunsHold(run: seq<Scheduler>, steps: seq<Step>, i: nat)
    requires IsRun(run, steps) && i < |run|
    ensures Inv(run[i])
  {
    if i == 0 {
    } else {
      RunsHold(run, steps, i - 1);
      StepKeeps(run[i - 1], steps[i - 1]);
    }
  }

  /** Over every run, at every lock boundary: the queue's count follows the state,
      less one while a layer is being added, so it never exceeds 1; one thread at
      most is in the body of HandleIdle; and no check fails. */
  lemma {:induction false} QueuesFollowState(run: seq<Scheduler>, steps: seq<Step>, i: nat)
    requires IsRun(run, steps) && i < |run|
    ensures var c := run[i].control;
            && c.runningCount == (if IsRunning(c) then 1 else 0) - (if c.point.Adding? then 1 else 0)
            && c.runningCount <= 1
            && (c.handlingIdle == 0 <==> c.point.Outside?)
    ensures !run[i].aborted
  {
    RunsHold(run, steps, i);
  }

  lemma {:induction false} MissedStays(s: Scheduler, step: Step)
    requires Enabled(s, step) && !step.EvaluateGuard? && s.control.missed
    ensures Take(s, step).control.missed
  {
  }

  lemma {:induction false} MissedUntil(run: seq<Scheduler>, steps: seq<Step>, i: nat, j: nat)
    requires IsRun(run, steps) && i <= j < |run| && run[i].control.missed
    requires forall k :: i <= k < j ==> !steps[k].EvaluateGuard?
    ensures run[j].control.missed
    decreases j
  {
    if i == j {
    } else {
      MissedUntil(run, steps, i, j - 1);
      MissedStays(run[j - 1], steps[j - 1]);
    }
  }

  /** The thread in the body looks at its guard after every call that returned
      early: it never leaves with one unanswered. */
  lemma {:induction false} EarlyReturnIsAnswered(run: seq<Scheduler>, steps: seq<Step>, i: nat, j: nat)
    requires IsRun(run, steps) && i <= j < |run|
    requires run[i].control.missed
    ensures run[j].control.missed || exists k :: i <= k < j && steps[k].EvaluateGuard?
    ensures run[j].control.point.Outside? ==> exists k :: i <= k < j && steps[k].EvaluateGuard?
  {
    if forall k :: i <= k < j ==> !steps[k].EvaluateGuard? {
      MissedUntil(run, steps, i, j);
      RunsHold(run, steps, j);
    }
  }

  lemma {:induction false} OnlyDecideActivates(s: Scheduler, step: Step)
    requires Enabled(s, step) && Take(s, step).sources.activations != s.sources.activations
    ensures step.Decide? && Take(s, step).sources == Picked(s.sources, step.picked)
    ensures s.sources.active == [] && !LowerUnopened(s.sources, step.picked[0])
  {
  }

  /** Whenever a layer is activated every source below it is closed, so layers are
      activated in order over the whole run. */
  lemma {:induction false} LayersInOrder(run: seq<Scheduler>, steps: seq<Step>, i: nat, j: nat)
    requires IsRun(run, steps) && i < |steps|
    ensures forall k, l :: 0 <= k < l < |run[i].sources.activations| ==>
              run[i].sources.activations[k] <= run[i].sources.activations[l]
    ensures var s, t := run[i].sources, run[i + 1].sources;
            t.activations != s.activations ==>
              && |t.activations| == |s.activations| + 1
              && (j < |s.layers| && s.layers[j] < t.activations[|s.activations|] ==> j in s.closed)
  {
    RunsHold(run, steps, i);
    if run[i + 1].sources.activations != run[i].sources.activations {
      OnlyDecideActivates(run[i], steps[i]);
      var s, picked := run[i].sources, steps[i].picked;
      if j < |s.layers| && s.layers[j] < s.layers[picked[0]] {
        LowerLayersClosed(s, picked, j);
      }
    }
  }

  // ------------------------------------------------- the body goes on

  /** The ready sources of a layer among the first `n`, in order. */
  function Members(s: Sources, layer: int, n: nat): (m: seq<nat>)
    requires n <= |s.layers|
    ensures forall k :: 0 <= k < |m| ==> m[k] < n && m[k] in s.ready && s.layers[m[k]] == layer
    ensures forall k, l :: 0 <= k < l < |m| ==> m[k] != m[l]
    ensures forall j :: 0 <= j < n && j in s.ready && s.layers[j] == layer ==> j in m
  {
    if n == 0 then []
    else
      var rest := Members(s, layer, n - 1);
      if n - 1 in s.ready && s.layers[n - 1] == layer then rest + [n - 1] else rest
  }

  lemma {:induction false} LowestExists(s: Sources, n: nat, i: nat) returns (low: nat)
    requires n <= |s.layers| && i < n && i in s.ready
    ensures low < n && low in s.ready
    ensures forall j :: 0 <= j < n && j in s.ready ==> s.layers[low] <= s.layers[j]
  {
    low := n - 1;
    if j :| 0 <= j < n - 1 && j in s.ready {
      var rest := LowestExists(s, n - 1, j);
      if n - 1 !in s.ready || s.layers[rest] <= s.layers[n - 1] {
        low := rest;
      }
    }
  }

  lemma {:induction false} PickExists(s: Sources) returns (picked: seq<nat>)
    requires SourcesInv(s) && s.ready != {}
    ensures PicksLayer(s, picked)
  {
    var i :| i in s.ready;
    var low := LowestExists(s, |s.layers|, i);
    picked := Members(s, s.layers[low], |s.layers|);
    assert low in picked && LowestReady(s, low);
    assert LowestReady(s, picked[0]);
  }

  /** The thread in the body never waits for anything but the mutex: it can always
      take its next step. */
  lemma {:induction false} BodyGoesOn(run: seq<Scheduler>, steps: seq<Step>, i: nat) returns (step: Step)
    requires IsRun(run, steps) && i < |run| && !run[i].control.point.Outside?
    ensures Enabled(run[i], step)
    ensures !step.Outer? && !step.AddSource? && !step.CloseSource? && !step.RecordError?
  {
    RunsHold(run, steps, i);
    var s := run[i];
    match s.control.point
    case Guard => step := EvaluateGuard;
    case Cleaning => step := CleanOne;
    case Deciding =>
      if s.sources.ready != {} {
        var picked := PickExists(s.sources);
        step := Decide(picked);
      } else {
        step := Decide([]);
      }
    case Pausing => step := LowerCount;
    case Adding(next) => step := if next < |s.sources.active| then AddNext else RaiseCount;
    case Unthrottling => step := Step.Unthrottled(false);
    case Rechecking => step := Recheck;
  }

  // ---------------------------------------------------------- the class

  /** The fields guarded by the scheduler's mutex. A method that calls HandleIdle
      does its first part, up to the return of a call that finds a thread in the
      body; `enters` says that the caller becomes that thread. */
  class SchedulerControl {
    var state: RunState
    var handlingIdle: nat
    var runningCount: int
    var nonIdleQueueCount: int
    var graphInputStreamsClosed: bool
    var throttledGraphInputStreamCount: int
    var hasError: bool

    function State(point: Point, missed: bool): Control
      reads this
    {
      Control(state, handlingIdle, point, runningCount, nonIdleQueueCount,
              graphInputStreamsClosed, throttledGraphInputStreamCount, hasError, missed)
    }

    /** What an entry into HandleIdle makes of the point and of `missed`. */
    ghost predicate Entered(before: Control, after: Control, call: Call, enters: bool) {
      && after == Called(before, call)
      && (enters <==> before.handlingIdle == 0 && after.handlingIdle == 1)
    }

    constructor (graphInputStreamsClosed: bool)
      ensures State(Outside, false) == Control(NotStarted, 0, Outside, 0, 0, graphInputStreamsClosed, 0, false, false)
    {
      state, handlingIdle, runningCount, nonIdleQueueCount := NotStarted, 0, 0, 0;
      this.graphInputStreamsClosed, throttledGraphInputStreamCount, hasError := graphInputStreamsClosed, 0, false;
    }

    method HandleIdleEntry() returns (enters: bool)
      modifies this`handlingIdle
      ensures handlingIdle == old(handlingIdle) + 1
      ensures enters <==> handlingIdle == 1
    {
      handlingIdle := handlingIdle + 1;
      enters := handlingIdle == 1;
    }

    method QueueIdleStateChanged(idle: bool, ghost p: Point, ghost m: bool)
      returns (enters: bool, ghost q: Point, ghost n: bool)
      modifies this
      ensures Entered(old(State(p, m)), State(q, n), IdleChanged(idle), enters)
    {
      nonIdleQueueCount := nonIdleQueueCount + if idle then -1 else 1;
      enters, q, n := false, p, m;
      if nonIdleQueueCount == 0 {
        enters := HandleIdleEntry();
        q, n := if enters then Guard else p, m || !enters;
      }
    }

    method Pause(ghost p: Point, ghost m: bool)
      modifies this
      ensures State(p, m) == Called(old(State(p, m)), Call.Pause)
    {
      if state != Running {
        return;
      }
      state := Paused;
      runningCount := runningCount - 1;
    }

    method Resume(ghost p: Point, ghost m: bool) returns (enters: bool, ghost q: Point, ghost n: bool)
      modifies this
      ensures Entered(old(State(p, m)), State(q, n), Call.Resume, enters)
    {
      enters, q, n := false, p, m;
      if state != Paused {
        return;
      }
      state := Running;
      runningCount := runningCount + 1;
      enters := HandleIdleEntry();
      q, n := if enters then Guard else p, m || !enters;
    }

    method Cancel(ghost p: Point, ghost m: bool) returns (enters: bool, ghost q: Point, ghost n: bool)
      modifies this
      ensures Entered(old(State(p, m)), State(q, n), Call.Cancel, enters)
    {
      enters, q, n := false, p, m;
      if state != Running && state != Paused {
        return;
      }
      hasError := true;
      if state == Paused {
        runningCount := runningCount + 1;
      }
      state := Cancelling;
      enters := HandleIdleEntry();
      q, n := if enters then Guard else p, m || !enters;
    }

    /** Called in the body, with the mutex held: the state is checked first. */
    method Quit(ghost p: Point, ghost m: bool)
      requires BodyInv(State(p, m)) && p.Deciding?
      modifies this
      ensures State(Outside, m) == Stopped(old(State(p, m)))
      ensures runningCount == 0
    {
      assert state == Running || state == Cancelling;
      runningCount := runningCount - 1;
      state := Terminated;
      handlingIdle := 0;
    }
  }

  /** A source node, as the scheduler sees it. */
  class SourceNode {
    const layer: int
    var closed: bool

    constructor (layer: int)
      ensures this.layer == layer && !closed
    {
      this.layer := layer;
      closed := false;
    }
  }

  /** The parts of HandleIdle that loop, in place. `sourcesQueue` holds the sources
      ready to be activated, lowest layers first. */
  class SourceLists {
    var activeSources: seq<SourceNode>
    var sourcesQueue: seq<SourceNode>

    ghost predicate Sorted()
      reads this
    {
      forall i, j :: 0 <= i < j < |sourcesQueue| ==> sourcesQueue[i].layer <= sourcesQueue[j].layer
    }

    constructor ()
      ensures activeSources == [] && sourcesQueue == []
    {
      activeSources, sourcesQueue := [], [];
    }

    /** Drops closed sources from the back, up to one that is still open. */
    method CleanupActiveSources()
      modifies this`activeSources
      ensures activeSources <= old(activeSources)
      ensures forall k :: |activeSources| <= k < |old(activeSources)| ==> old(activeSources)[k].closed
      ensures activeSources != [] ==> !activeSources[|activeSources| - 1].closed
    {
      while activeSources != []
        invariant activeSources <= old(activeSources)
        invariant forall k :: |activeSources| <= k < |old(activeSources)| ==> old(activeSources)[k].closed
        decreases |activeSources|
      {
        var activeSource := activeSources[|activeSources| - 1];
        if activeSource.closed {
          activeSources := activeSources[..|activeSources| - 1];
        } else {
          break;
        }
      }
    }

    /** Moves the sources of the lowest layer, all of them and no others. */
    method TakeLowestLayer()
      requires Sorted() && activeSources == [] && sourcesQueue != []
      modifies this
      ensures activeSources != [] && activeSources + sourcesQueue == old(sourcesQueue)
      ensures forall k :: 0 <= k < |activeSources| ==> activeSources[k].layer == old(sourcesQueue)[0].layer
      ensures forall k :: 0 <= k < |sourcesQueue| ==> sourcesQueue[k].layer > old(sourcesQueue)[0].layer
    {
      ghost var all := sourcesQueue;
      var activatedAny := false;
      ghost var n := 0;
      while sourcesQueue != []
        invariant 0 <= n <= |all| && activatedAny == (n > 0)
        invariant activeSources == all[..n] && sourcesQueue == all[n..]
        invariant forall k :: 0 <= k < n ==> all[k].layer == all[0].layer
        decreases |sourcesQueue|
      {
        var node := sourcesQueue[0];
        if activatedAny && node.layer != activeSources[|activeSources| - 1].layer {
          break;
        }
        activeSources := activeSources + [node];
        activatedAny := true;
        sourcesQueue := sourcesQueue[1..];
        n := n + 1;
      }
      assert n < |all| ==> all[n].layer > all[0].layer;
      assert forall k :: n <= k < |all| ==> all[k].layer >= all[n].layer;
    }
  }
}
