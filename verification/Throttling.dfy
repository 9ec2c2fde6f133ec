/** Throttling. A stream whose queue is full holds back every source upstream of
    it. The bookkeeping is a set of full streams for each source and each graph
    input, changed in one critical section per report; the reports themselves are
    callbacks made without any lock.

    Node ids below `|sources|` are sources; the others are graph inputs. */
module Throttling {
  import opened InputStreams
  import opened NodeProtocol

  // ---------------------------------------------- when callbacks are made

  /** Whether an operation on a stream calls back about its queue. */
  predicate CallsBack(s: Stream, op: Op)
    requires Legal(s, op)
  {
    match op
    case Add(batch) => AfterAdd(s, batch).becameFull
    case Pop(at) => s.IsFull() && !Advance(s, at).IsFull()
    case Resize(maxSize) => AfterResize(s, maxSize).becameFull || AfterResize(s, maxSize).becameNonFull
    case _ => false
  }

  /** Without an error, a callback is made just when the fullness of the queue
      changes. */
  lemma {:induction false} CallbacksFollowFullness(x: Tracked, op: Op)
    requires Legal(x.stream, op) && Succeeds(x.stream, op)
    ensures CallsBack(x.stream, op) <==> x.stream.IsFull() != Apply(x, op).stream.IsFull()
  {
    match op
    case Add(batch) => PushAllAppends(x.stream, batch);
    case _ =>
  }

  /** What can be said of a batch beforehand: it will be taken whole, or not at all,
      or its accepted part will not fill the queue. */
  predicate FillsLoudly(s: Stream, batch: seq<Packet>) {
    || s.closed
    || AcceptedCount(s, batch) == |batch|
    || s.maxSize == -1
    || |s.queue| >= s.maxSize
    || |s.queue| + AcceptedCount(s, batch) < s.maxSize
  }

  /** Errors included: the callback agrees with the change of fullness if and only if
      the operation adds no batch, or one that the stream takes whole, or that meets a
      full queue or leaves it short of full. */
  lemma {:induction false} CallbacksAgreeIff(x: Tracked, op: Op)
    requires Legal(x.stream, op)
    ensures (CallsBack(x.stream, op) <==> x.stream.IsFull() != Apply(x, op).stream.IsFull())
            <==> (op.Add? ==> FillsLoudly(x.stream, op.batch))
  {
    match op
    case Add(batch) => PushAllAppends(x.stream, batch);
    case _ =>
  }

  /** The same packet twice in one batch: the second is rejected, the queue is full,
      and there has been neither a callback nor a notification. */
  lemma {:induction false} RejectedBatchIsSilent(p: Packet)
    requires Accepts(EmptyStream(AnyType, 1), p)
    ensures var x := Tracked(EmptyStream(AnyType, 1), [], []);
            var op := Op.Add([p, p]);
            && !Succeeds(x.stream, op) && !CallsBack(x.stream, op) && !Signals(x.stream, op)
            && !x.stream.IsFull() && Apply(x, op).stream.IsFull()
            && Apply(x, op).stream.queue == [p]
            && !FillsLoudly(x.stream, op.batch)
  {
    var s := EmptyStream(AnyType, 1);
    var batch := [p, p];
    assert batch[1..] == [p] && s.queue + [p] == [p];
    assert !Accepts(Push(s, p), p);
    assert AcceptedCount(s, batch) == 1 + AcceptedCount(Push(s, p), batch[1..]);
    assert PushAll(s, batch) == PushAll(Push(s, p), batch[1..]);
  }

  // ------------------------------------------------------- the full sets

  /** Who holds the mutex of the sets. `checking` says that the node at `next` has
      just been freed and is about to be asked whether it is active. */
  datatype Section = NoOne | Updating(stream: nat, isFull: bool, next: nat, checking: bool)

  /** `upstream` lists the nodes above each stream. `isFull` is the state of the
      queues, `reported` what the last critical section saw of it, `callbacks` the
      callbacks that have not entered the critical section yet. */
  datatype Sets = Sets(
    upstream: seq<seq<nat>>,
    isFull: seq<bool>,
    reported: seq<bool>,
    callbacks: seq<nat>,
    sets: seq<set<nat>>,
    section: Section,
    throttledInputs: int)

  predicate Shaped(f: Sets) {
    && |f.upstream| == |f.isFull| == |f.reported| == |f.callbacks|
    && (forall s, i :: 0 <= s < |f.upstream| && 0 <= i < |f.upstream[s]| ==> f.upstream[s][i] < |f.sets|)
    && (forall s, i, j :: 0 <= s < |f.upstream| && 0 <= i < j < |f.upstream[s]| ==>
          f.upstream[s][i] != f.upstream[s][j])
    && (f.section.Updating? ==>
          && f.section.stream < |f.upstream| && f.section.next <= |f.upstream[f.section.stream]|
          && (f.section.checking ==> f.section.next < |f.upstream[f.section.stream]|)
          && f.section.isFull != f.reported[f.section.stream])
  }

  datatype SetStep =
    | Flip(s: nat)
    | EnterSection(s: nat)
    | UpdateNext
    | LeaveSection

  predicate AtNext(f: Sets) {
    && f.section.Updating? && f.section.stream < |f.upstream| && !f.section.checking
    && f.section.next < |f.upstream[f.section.stream]|
  }

  predicate SetEnabled(f: Sets, step: SetStep) {
    match step
    case Flip(s) => s < |f.isFull|
    case EnterSection(s) => f.section.NoOne? && s < |f.isFull| && s < |f.callbacks| && f.callbacks[s] > 0
    case UpdateNext => AtNext(f)
    case LeaveSection =>
      && f.section.Updating? && f.section.stream < |f.upstream| && !f.section.checking
      && f.section.next == |f.upstream[f.section.stream]|
  }

  function NextNode(f: Sets): nat
    requires f.section.Updating? && f.section.stream < |f.upstream| && f.section.next < |f.upstream[f.section.stream]|
  {
    f.upstream[f.section.stream][f.section.next]
  }

  function NextSet(f: Sets): set<nat>
    requires Shaped(f) && AtNext(f)
  {
    if f.section.isFull then f.sets[NextNode(f)] + {f.section.stream}
    else f.sets[NextNode(f)] - {f.section.stream}
  }

  /** A graph input that gains its first stream, or loses its last, is counted; a
      source that loses its last stream is asked whether it is active. */
  function UpdatedNext(f: Sets, firstInput: nat): Sets
    requires Shaped(f) && AtNext(f)
  {
    var n, after := NextNode(f), NextSet(f);
    var wasThrottled, isThrottled := f.sets[n] != {}, after != {};
    var freed := !isThrottled && n < firstInput;
    f.(sets := f.sets[n := after],
       section := if freed then f.section.(checking := true) else f.section.(next := f.section.next + 1),
       throttledInputs :=
         if n < firstInput then f.throttledInputs
         else if !isThrottled then f.throttledInputs - 1
         else if !wasThrottled then f.throttledInputs + 1
         else f.throttledInputs)
  }

  function SetTake(f: Sets, step: SetStep, firstInput: nat): Sets
    requires Shaped(f) && SetEnabled(f, step)
  {
    match step
    case Flip(s) => f.(isFull := f.isFull[s := !f.isFull[s]], callbacks := f.callbacks[s := f.callbacks[s] + 1])
    case EnterSection(s) =>
      f.(callbacks := f.callbacks[s := f.callbacks[s] - 1],
         section := if f.isFull[s] != f.reported[s] then Updating(s, f.isFull[s], 0, false) else NoOne)
    case UpdateNext => UpdatedNext(f, firstInput)
    case LeaveSection => f.(reported := f.reported[f.section.stream := f.section.isFull], section := NoOne)
  }

  /** How many of the first `n` nodes are graph inputs held back. */
  function HeldInputs(sets: seq<set<nat>>, firstInput: nat, n: nat): nat
    requires n <= |sets|
  {
    if n == 0 then 0
    else HeldInputs(sets, firstInput, n - 1) + if n - 1 >= firstInput && sets[n - 1] != {} then 1 else 0
  }

  lemma {:induction false} HeldInputsAt(sets: seq<set<nat>>, firstInput: nat, n: nat, k: nat, x: set<nat>)
    requires n <= |sets| && k < |sets|
    ensures HeldInputs(sets[k := x], firstInput, n) ==
            HeldInputs(sets, firstInput, n)
            + if k < n && k >= firstInput then (if x != {} then 1 else 0) - (if sets[k] != {} then 1 else 0) else 0
  {
    if n == 0 {
    } else {
      HeldInputsAt(sets, firstInput, n - 1, k, x);
    }
  }

  /** The node at `i` above stream `s` has been updated in the critical section. */
  predicate Visited(f: Sets, s: nat, i: nat) {
    f.section.Updating? && f.section.stream == s && (i < f.section.next || (i == f.section.next && f.section.checking))
  }

  ghost predicate MemberInv(f: Sets, s: nat, i: nat)
    requires s < |f.upstream| && i < |f.upstream[s]| && f.upstream[s][i] < |f.sets| && s < |f.reported|
  {
    s in f.sets[f.upstream[s][i]] <==> (if Visited(f, s, i) then f.section.isFull else f.reported[s])
  }

  /** Nothing is lost between the queues and the sets: unless a callback is still
      to come, what is reported, or about to be, is how the queue is. */
  ghost predicate FreshInv(f: Sets, s: nat)
    requires s < |f.isFull| && s < |f.reported| && s < |f.callbacks|
  {
    f.callbacks[s] == 0 ==>
      f.isFull[s] == if f.section.Updating? && f.section.stream == s then f.section.isFull else f.reported[s]
  }

  /** Only streams below a node are in its set. */
  ghost predicate OnlyUpstream(f: Sets, n: nat)
    requires n < |f.sets|
  {
    forall s: nat :: s in f.sets[n] ==> s < |f.upstream| && n in f.upstream[s]
  }

  ghost predicate SetsInv(f: Sets, firstInput: nat) {
    && Shaped(f)
    && (forall s, i :: 0 <= s < |f.upstream| && 0 <= i < |f.upstream[s]| ==> MemberInv(f, s, i))
    && (forall n: nat :: n < |f.sets| ==> OnlyUpstream(f, n))
    && (forall s :: 0 <= s < |f.isFull| ==> FreshInv(f, s))
    && f.throttledInputs == HeldInputs(f.sets, firstInput, |f.sets|)
    && (f.section.Updating? && f.section.checking ==> NextNode(f) < firstInput && f.sets[NextNode(f)] == {})
  }

  lemma {:induction false} FlipKeeps(f: Sets, s: nat, firstInput: nat)
    requires SetsInv(f, firstInput) && SetEnabled(f, Flip(s))
    ensures SetsInv(SetTake(f, Flip(s), firstInput), firstInput)
  {
    var g := SetTake(f, Flip(s), firstInput);
    assert g.sets == f.sets && g.upstream == f.upstream && g.section == f.section;
    assert g.section.Updating? && g.section.checking ==> NextNode(f) == NextNode(g);
    forall n: nat | n < |g.sets|
      ensures OnlyUpstream(g, n)
    {
      assert OnlyUpstream(f, n);
    }
    forall t, i | 0 <= t < |g.upstream| && 0 <= i < |g.upstream[t]|
      ensures MemberInv(g, t, i)
    {
      assert MemberInv(f, t, i);
    }
    forall t | 0 <= t < |f.isFull|
      ensures FreshInv(g, t)
    {
      assert FreshInv(f, t);
    }
  }

  lemma {:induction false} SectionKeeps(f: Sets, step: SetStep, firstInput: nat)
    requires SetsInv(f, firstInput) && SetEnabled(f, step) && (step.EnterSection? || step.LeaveSection?)
    ensures SetsInv(SetTake(f, step, firstInput), firstInput)
  {
    var g := SetTake(f, step, firstInput);
    forall t, i | 0 <= t < |g.upstream| && 0 <= i < |g.upstream[t]|
      ensures MemberInv(g, t, i)
    {
      assert MemberInv(f, t, i);
    }
    forall t | 0 <= t < |f.isFull|
      ensures FreshInv(g, t)
    {
      assert FreshInv(f, t);
    }
    forall n: nat | n < |g.sets|
      ensures OnlyUpstream(g, n)
    {
      assert OnlyUpstream(f, n);
    }
  }

  /** The set of one node gains or loses one stream: never one it has, or lacks. */
  lemma {:induction false} UpdateIsProper(f: Sets, firstInput: nat)
    requires SetsInv(f, firstInput) && AtNext(f)
    ensures f.section.isFull <==> f.section.stream !in f.sets[NextNode(f)]
  {
    assert MemberInv(f, f.section.stream, f.section.next);
  }

  lemma {:induction false} UpdateMembers(f: Sets, firstInput: nat, s: nat, i: nat)
    requires SetsInv(f, firstInput) && AtNext(f) && s < |f.upstream| && i < |f.upstream[s]|
    ensures MemberInv(UpdatedNext(f, firstInput), s, i)
  {
    assert MemberInv(f, s, i);
    if s == f.section.stream && i != f.section.next {
      assert f.upstream[s][i] != NextNode(f);
    }
  }

  lemma {:induction false} UpdateCount(f: Sets, firstInput: nat)
    requires SetsInv(f, firstInput) && AtNext(f)
    ensures UpdatedNext(f, firstInput).throttledInputs
            == HeldInputs(UpdatedNext(f, firstInput).sets, firstInput, |f.sets|)
  {
    UpdateIsProper(f, firstInput);
    HeldInputsAt(f.sets, firstInput, |f.sets|, NextNode(f), NextSet(f));
  }

  lemma {:induction false} UpdateKeeps(f: Sets, firstInput: nat)
    requires SetsInv(f, firstInput) && AtNext(f)
    ensures SetsInv(UpdatedNext(f, firstInput), firstInput)
  {
    var g := UpdatedNext(f, firstInput);
    UpdateCount(f, firstInput);
    forall s, i | 0 <= s < |g.upstream| && 0 <= i < |g.upstream[s]|
      ensures MemberInv(g, s, i)
    {
      UpdateMembers(f, firstInput, s, i);
    }
    forall s | 0 <= s < |f.isFull|
      ensures FreshInv(g, s)
    {
      assert FreshInv(f, s);
    }
    forall n: nat | n < |g.sets|
      ensures OnlyUpstream(g, n)
    {
      assert OnlyUpstream(f, n);
    }
  }

  lemma {:induction false} SetStepKeeps(f: Sets, step: SetStep, firstInput: nat)
    requires SetsInv(f, firstInput) && SetEnabled(f, step)
    ensures SetsInv(SetTake(f, step, firstInput), firstInput)
  {
    match step
    case Flip(s) => FlipKeeps(f, s, firstInput);
    case UpdateNext => UpdateKeeps(f, firstInput);
    case _ => SectionKeeps(f, step, firstInput);
  }

  // ------------------------------------------------------------- sources

  /** Where a thread in a source's scheduling loop is: about to enter, about to ask
      whether the source is throttled, about to add it, or about to leave. */
  datatype LoopAt = NoLoop | Entering | Asking | Adding | Ending

  /** The thread that activates the source's layer. */
  datatype ActivatorAt = Absent | Asks | Adds | Done

  /** One invocation of a source may be in flight. `holders` counts the reports
      that found the source freed and active and will add it. */
  datatype SourceNode = SourceNode(
    protocol: Protocol,
    queued: nat,
    running: nat,
    loop: LoopAt,
    activator: ActivatorAt,
    holders: nat)

  /** The first half of AddNode; what it begins is on its way to the queue. */
  function Added(v: SourceNode): SourceNode {
    var o := OnTryToBegin(v.protocol);
    if o.enters then v.(protocol := o.protocol, queued := v.queued + 1) else v
  }

  datatype SourceStep =
    | Activate
    | ActivatorAsks
    | ActivatorAdds
    | LoopEnters
    | LoopAsks
    | LoopAdds
    | LoopEnds
    | HolderAdds
    | Begin
    | CloseSelf
    | Finish

  predicate SourceEnabled(v: SourceNode, step: SourceStep) {
    match step
    case Activate => v.activator.Absent? && v.protocol.status == Opened
    case ActivatorAsks => v.activator.Asks?
    case ActivatorAdds => v.activator.Adds?
    case LoopEnters => v.loop.Entering?
    case LoopAsks => v.loop.Asking?
    case LoopAdds => v.loop.Adding?
    case LoopEnds => v.loop.Ending?
    case HolderAdds => v.holders > 0
    case Begin => v.queued > 0
    case CloseSelf => v.running > 0 && v.protocol.status == Active
    case Finish => v.running > 0
  }

  /** `throttled` is the answer of IsNodeThrottled to the steps that ask. */
  function SourceTake(v: SourceNode, step: SourceStep, throttled: bool): SourceNode
    requires SourceEnabled(v, step)
  {
    match step
    case Activate => v.(protocol := v.protocol.(status := Active), activator := Asks)
    case ActivatorAsks => v.(activator := if throttled then Done else Adds)
    case ActivatorAdds => Added(v).(activator := Done)
    case LoopEnters =>
      var o := OnLoopEntry(v.protocol);
      v.(protocol := o.protocol, loop := if o.enters then Asking else NoLoop)
    case LoopAsks => v.(loop := if throttled then Ending else Adding)
    case LoopAdds => Added(v).(loop := Ending)
    case LoopEnds =>
      var o := OnLoopEnd(v.protocol);
      v.(protocol := o.protocol, loop := if o.enters then Asking else NoLoop)
    case HolderAdds => Added(v).(holders := v.holders - 1)
    case Begin => v.(queued := v.queued - 1, running := v.running + 1)
    case CloseSelf => v.(protocol := v.protocol.(status := Closed))
    case Finish =>
      var o := OnEndScheduling(v.protocol);
      v.(protocol := o.protocol, running := v.running - 1, loop := if o.enters then Entering else v.loop)
  }

  /** Who will still try to add the source. */
  predicate TryDue(v: SourceNode) {
    || v.holders > 0
    || v.activator.Asks? || v.activator.Adds?
    || v.loop.Entering? || v.loop.Asking? || v.loop.Adding?
    || v.protocol.scheduling.SchedulingPending?
  }

  /** One task at most is queued or running; a closed source is never queued; only
      a source that was activated does anything. */
  predicate SingleInv(v: SourceNode) {
    var p := v.protocol;
    && p.maxInFlight == 1 && !p.status.Prepared?
    && 0 <= p.inFlight <= 1 && v.queued + v.running <= p.inFlight
    && (p.status.Active? ==> v.queued + v.running == p.inFlight)
    && (p.status.Closed? ==> p.inFlight == 1 && v.queued == 0)
    && (v.loop.NoLoop? <==> p.scheduling.Idle?)
    && (p.status.Opened? <==> v.activator.Absent?)
    && (p.status.Opened? ==> p.inFlight == 0 && v.holders == 0 && v.loop.NoLoop?)
  }

  /** An active source that nobody is about to add has a task, or is held back. */
  predicate NotStranded(v: SourceNode, held: bool) {
    v.protocol.status.Active? ==> v.protocol.inFlight == 1 || held || TryDue(v)
  }

  predicate AddsSource(step: SourceStep) {
    step.ActivatorAdds? || step.LoopAdds? || step.HolderAdds?
  }

  predicate MovesLoop(step: SourceStep) {
    step.LoopEnters? || step.LoopEnds? || step.Finish?
  }

  lemma {:induction false} AddingKeeps(v: SourceNode, step: SourceStep, throttled: bool, held: bool)
    requires SingleInv(v) && NotStranded(v, held) && SourceEnabled(v, step) && AddsSource(step)
    ensures SingleInv(SourceTake(v, step, throttled)) && NotStranded(SourceTake(v, step, throttled), held)
  {
  }

  lemma {:induction false} EnterKeeps(v: SourceNode, held: bool)
    requires SingleInv(v) && NotStranded(v, held) && v.loop.Entering?
    ensures SingleInv(SourceTake(v, LoopEnters, held)) && NotStranded(SourceTake(v, LoopEnters, held), held)
  {
  }

  lemma {:induction false} EndKeeps(v: SourceNode, held: bool)
    requires SingleInv(v) && NotStranded(v, held) && v.loop.Ending?
    ensures SingleInv(SourceTake(v, LoopEnds, held)) && NotStranded(SourceTake(v, LoopEnds, held), held)
  {
  }

  lemma {:induction false} FinishKeeps(v: SourceNode, held: bool)
    requires SingleInv(v) && NotStranded(v, held) && v.running > 0
    ensures SingleInv(SourceTake(v, Finish, held)) && NotStranded(SourceTake(v, Finish, held), held)
  {
  }

  lemma {:induction false} LoopKeeps(v: SourceNode, step: SourceStep, throttled: bool, held: bool)
    requires SingleInv(v) && NotStranded(v, held) && SourceEnabled(v, step) && MovesLoop(step)
    ensures SingleInv(SourceTake(v, step, throttled)) && NotStranded(SourceTake(v, step, throttled), held)
  {
    match step
    case LoopEnters => EnterKeeps(v, held);
    case LoopEnds => EndKeeps(v, held);
    case Finish => FinishKeeps(v, held);
  }

  lemma {:induction false} SourceKeeps(v: SourceNode, step: SourceStep, throttled: bool, held: bool)
    requires SingleInv(v) && NotStranded(v, held) && SourceEnabled(v, step) && (throttled ==> held)
    ensures SingleInv(SourceTake(v, step, throttled)) && NotStranded(SourceTake(v, step, throttled), held)
  {
    if AddsSource(step) {
      AddingKeeps(v, step, throttled, held);
    } else if MovesLoop(step) {
      LoopKeeps(v, step, throttled, held);
    }
  }

  // ------------------------------------------------------------- together

  /** `limited` says whether queue sizes are limited at all. */
  datatype Graph = Graph(sets: Sets, sources: seq<SourceNode>, limited: bool)

  datatype Step =
    | Report(report: SetStep)
    | AskActive
    | OfSource(n: nat, work: SourceStep)

  predicate AsksGraph(step: SourceStep) {
    step.ActivatorAsks? || step.LoopAsks?
  }

  /** Asking takes the mutex of the sets. */
  predicate Enabled(g: Graph, step: Step) {
    match step
    case Report(inner) => SetEnabled(g.sets, inner)
    case AskActive =>
      && g.sets.section.Updating? && g.sets.section.checking
      && g.sets.section.stream < |g.sets.upstream|
      && g.sets.section.next < |g.sets.upstream[g.sets.section.stream]|
    case OfSource(n, inner) =>
      n < |g.sources| && SourceEnabled(g.sources[n], inner) && (AsksGraph(inner) ==> g.sets.section.NoOne?)
  }

  predicate IsThrottled(g: Graph, n: nat)
    requires n < |g.sets.sets|
  {
    g.limited && g.sets.sets[n] != {}
  }

  /** The source just freed is added later if it is active and not closed. */
  function Asked(g: Graph): Graph
    requires Shaped(g.sets) && Enabled(g, AskActive)
  {
    var n := NextNode(g.sets);
    var sets := g.sets.(section := g.sets.section.(next := g.sets.section.next + 1, checking := false));
    if n < |g.sources| && g.sources[n].protocol.status == Active then
      Graph(sets, g.sources[n := g.sources[n].(holders := g.sources[n].holders + 1)], g.limited)
    else g.(sets := sets)
  }

  function Take(g: Graph, step: Step): Graph
    requires Shaped(g.sets) && |g.sources| <= |g.sets.sets| && Enabled(g, step)
  {
    match step
    case Report(inner) => g.(sets := SetTake(g.sets, inner, |g.sources|))
    case AskActive => Asked(g)
    case OfSource(n, inner) =>
      g.(sources := g.sources[n := SourceTake(g.sources[n], inner, IsThrottled(g, n))])
  }

  /** Held back: some stream below is full, or the report that it no longer is has
      yet to ask whether the source is active. */
  predicate Held(f: Sets, n: nat)
    requires n < |f.sets|
  {
    || f.sets[n] != {}
    || (&& f.section.Updating? && f.section.checking && f.section.stream < |f.upstream|
        && f.section.next < |f.upstream[f.section.stream]| && NextNode(f) == n)
  }

  ghost predicate SourceInv(g: Graph, n: nat)
    requires n < |g.sources| && n < |g.sets.sets|
  {
    SingleInv(g.sources[n]) && NotStranded(g.sources[n], Held(g.sets, n))
  }

  ghost predicate Inv(g: Graph) {
    && |g.sources| <= |g.sets.sets| && SetsInv(g.sets, |g.sources|)
    && (forall n: nat :: n < |g.sources| ==> SourceInv(g, n))
  }

  /** A set that becomes empty leaves its source held until it has been asked. */
  lemma {:induction false} ReportHolds(f: Sets, step: SetStep, firstInput: nat, n: nat)
    requires SetsInv(f, firstInput) && SetEnabled(f, step) && n < firstInput && n < |f.sets|
    requires Held(f, n)
    ensures Held(SetTake(f, step, firstInput), n)
  {
  }

  lemma {:induction false} ReportKeeps(g: Graph, step: SetStep)
    requires Inv(g) && Enabled(g, Report(step))
    ensures Inv(Take(g, Report(step)))
  {
    var h := Take(g, Report(step));
    SetStepKeeps(g.sets, step, |g.sources|);
    forall n: nat | n < |h.sources|
      ensures SourceInv(h, n)
    {
      assert SourceInv(g, n);
      if Held(g.sets, n) {
        ReportHolds(g.sets, step, |g.sources|, n);
      }
    }
  }

  lemma {:induction false} AskedSets(f: Sets, firstInput: nat)
    requires SetsInv(f, firstInput) && f.section.Updating? && f.section.checking
    ensures SetsInv(f.(section := f.section.(next := f.section.next + 1, checking := false)), firstInput)
  {
    var h := f.(section := f.section.(next := f.section.next + 1, checking := false));
    forall s, i | 0 <= s < |h.upstream| && 0 <= i < |h.upstream[s]|
      ensures MemberInv(h, s, i)
    {
      assert MemberInv(f, s, i);
    }
    forall s | 0 <= s < |h.isFull|
      ensures FreshInv(h, s)
    {
      assert FreshInv(f, s);
    }
    forall n: nat | n < |h.sets|
      ensures OnlyUpstream(h, n)
    {
      assert OnlyUpstream(f, n);
    }
  }

  lemma {:induction false} AskedKeeps(g: Graph)
    requires Inv(g) && Enabled(g, AskActive)
    ensures Inv(Asked(g))
  {
    var h := Asked(g);
    AskedSets(g.sets, |g.sources|);
    forall n: nat | n < |h.sources|
      ensures SourceInv(h, n)
    {
      assert SourceInv(g, n);
    }
  }

  lemma {:induction false} OfSourceKeeps(g: Graph, n: nat, step: SourceStep)
    requires Inv(g) && Enabled(g, OfSource(n, step))
    ensures Inv(Take(g, OfSource(n, step)))
  {
    var h := Take(g, OfSource(n, step));
    forall k: nat | k < |h.sources|
      ensures SourceInv(h, k)
    {
      assert SourceInv(g, k);
      if k == n {
        SourceKeeps(g.sources[n], step, IsThrottled(g, n), Held(g.sets, n));
      }
    }
  }

  lemma {:induction false} StepKeeps(g: Graph, step: Step)
    requires Inv(g) && Enabled(g, step)
    ensures Inv(Take(g, step))
  {
    match step
    case Report(inner) => ReportKeeps(g, inner);
    case AskActive => AskedKeeps(g);
    case OfSource(n, inner) => OfSourceKeeps(g, n, inner);
  }

  ghost predicate Init(g: Graph) {
    && |g.sources| <= |g.sets.sets| && Shaped(g.sets)
    && g.sets.section == NoOne && g.sets.throttledInputs == 0
    && (forall n :: 0 <= n < |g.sets.sets| ==> g.sets.sets[n] == {})
    && (forall s :: 0 <= s < |g.sets.isFull| ==>
          !g.sets.isFull[s] && !g.sets.reported[s] && g.sets.callbacks[s] == 0)
    && (forall n :: 0 <= n < |g.sources| ==>
          g.sources[n] == SourceNode(Protocol(Opened, Idle, 0, 1), 0, 0, NoLoop, Absent, 0))
  }

  lemma {:induction false} NoneHeld(sets: seq<set<nat>>, firstInput: nat, n: nat)
    requires n <= |sets| && forall k :: 0 <= k < |sets| ==> sets[k] == {}
    ensures HeldInputs(sets, firstInput, n) == 0
  {
    if n == 0 {
    } else {
      NoneHeld(sets, firstInput, n - 1);
    }
  }

  lemma {:induction false} InitHolds(g: Graph)
    requires Init(g)
    ensures Inv(g)
  {
    NoneHeld(g.sets.sets, |g.sources|, |g.sets.sets|);
  }

  ghost predicate IsRun(run: seq<Graph>, steps: seq<Step>) {
    && |run| == |steps| + 1 && Init(run[0])
    && (forall i :: 0 <= i < |steps| ==>
          && Shaped(run[i].sets) && |run[i].sources| <= |run[i].sets.sets|
          && Enabled(run[i], steps[i]) && run[i + 1] == Take(run[i], steps[i]))
  }

  lemma {:induction false} RunsHold(run: seq<Graph>, steps: seq<Step>, i: nat)
    requires IsRun(run, steps) && i < |run|
    ensures Inv(run[i])
  {
    if i == 0 {
      InitHolds(run[0]);
    } else {
      RunsHold(run, steps, i - 1);
      StepKeeps(run[i - 1], steps[i - 1]);
    }
  }

  /** Throttle accounting, over every run. Outside the critical section a stream is
      in a node's set exactly when it was last reported full and the node is above
      it; as many graph inputs are counted as have a non-empty set; and a stream
      whose fullness differs from the report has a callback still to come. */
  lemma {:induction false} ThrottleAccounting(run: seq<Graph>, steps: seq<Step>, i: nat, s: nat, n: nat)
    requires IsRun(run, steps) && i < |run| && run[i].sets.section.NoOne?
    requires s < |run[i].sets.isFull| && n < |run[i].sets.sets|
    ensures var f := run[i].sets;
            && |f.upstream| == |f.isFull| == |f.reported| == |f.callbacks|
            && (s in f.sets[n] <==> f.reported[s] && n in f.upstream[s])
            && f.throttledInputs == HeldInputs(f.sets, |run[i].sources|, |f.sets|)
            && (f.isFull[s] != f.reported[s] ==> f.callbacks[s] > 0)
  {
    RunsHold(run, steps, i);
    var f := run[i].sets;
    assert OnlyUpstream(f, n) && FreshInv(f, s);
    if n in f.upstream[s] {
      var k :| 0 <= k < |f.upstream[s]| && f.upstream[s][k] == n;
      assert MemberInv(f, s, k);
    }
  }

  /** An active source is never stranded and never doubled: at every moment it has
      at most one task queued or running, and whenever nobody is about to try to
      add it, it has exactly one, or a full stream below. */
  lemma {:induction false} SourceNeverStranded(run: seq<Graph>, steps: seq<Step>, i: nat, n: nat)
    requires IsRun(run, steps) && i < |run| && n < |run[i].sources|
    ensures var v := run[i].sources[n];
            && v.queued + v.running <= 1
            && (v.protocol.status == Closed ==> v.queued == 0)
            && (v.protocol.status == Active && !TryDue(v) && run[i].sets.section.NoOne? ==>
                  n < |run[i].sets.sets| && (v.queued + v.running == 1 || run[i].sets.sets[n] != {}))
  {
    RunsHold(run, steps, i);
    assert SourceInv(run[i], n);
    QuietSource(run[i].sources[n], Held(run[i].sets, n));
  }

  lemma {:induction false} QuietSource(v: SourceNode, held: bool)
    requires SingleInv(v) && NotStranded(v, held)
    ensures v.queued + v.running <= 1 && (v.protocol.status == Closed ==> v.queued == 0)
    ensures v.protocol.status == Active && !TryDue(v) ==> v.queued + v.running == 1 || held
  {
  }

  // ------------------------------------------------------- unthrottling

  function Grown(s: Stream): Stream {
    AfterResize(s, |s.queue| + 1).stream
  }

  /** A stream given room for one packet more than it holds is not full, and calls
      back if it was. */
  lemma {:induction false} GrowthFrees(x: Tracked)
    requires Legal(x.stream, Resize(|x.stream.queue| + 1))
    ensures var op := Resize(|x.stream.queue| + 1);
            && Apply(x, op).stream == Grown(x.stream) && !Grown(x.stream).IsFull()
            && (CallsBack(x.stream, op) <==> x.stream.IsFull())
  {
  }

  // ------------------------------------------------------ a whole update

  /** The sets after the first `k` nodes above stream `s` have been updated. */
  function AfterNodes(sets: seq<set<nat>>, s: nat, upstream: seq<nat>, isFull: bool, k: nat): (r: seq<set<nat>>)
    requires k <= |upstream| && forall i :: 0 <= i < |upstream| ==> upstream[i] < |sets|
    ensures |r| == |sets|
  {
    if k == 0 then sets
    else
      var p, n := AfterNodes(sets, s, upstream, isFull, k - 1), upstream[k - 1];
      p[n := if isFull then p[n] + {s} else p[n] - {s}]
  }

  /** Exactly those nodes' sets have changed, and only in stream `s`. */
  lemma {:induction false} AfterNodesMember(sets: seq<set<nat>>, s: nat, upstream: seq<nat>, isFull: bool, k: nat,
        n: nat, t: nat)
    requires k <= |upstream| && forall i :: 0 <= i < |upstream| ==> upstream[i] < |sets|
    requires n < |sets|
    ensures t in AfterNodes(sets, s, upstream, isFull, k)[n] <==>
              if t == s && n in upstream[..k] then isFull else t in sets[n]
  {
    if k == 0 {
    } else {
      AfterNodesMember(sets, s, upstream, isFull, k - 1, n, t);
      assert upstream[..k] == upstream[..k - 1] + [upstream[k - 1]];
    }
  }

  /** After all of them the stream is in every set above it or in none, and every
      other membership is as before. */
  lemma {:induction false} AfterAllNodes(sets: seq<set<nat>>, s: nat, upstream: seq<nat>, isFull: bool)
    requires forall i :: 0 <= i < |upstream| ==> upstream[i] < |sets|
    ensures var r := AfterNodes(sets, s, upstream, isFull, |upstream|);
            && (forall i :: 0 <= i < |upstream| ==> (s in r[upstream[i]] <==> isFull))
            && (forall n, t: nat :: 0 <= n < |sets| && (t != s || n !in upstream) ==> (t in r[n] <==> t in sets[n]))
  {
    assert upstream[..|upstream|] == upstream;
    forall n: nat, t: nat | n < |sets|
      ensures t in AfterNodes(sets, s, upstream, isFull, |upstream|)[n] <==>
                if t == s && n in upstream then isFull else t in sets[n]
    {
      AfterNodesMember(sets, s, upstream, isFull, |upstream|, n, t);
    }
  }

  // ------------------------------------------------------------- the class

  class SourceState {
    var active: bool
    var closed: bool
  }

  /** The fields of the graph that throttling uses. `upstream` holds the nodes above
      the stream in question. */
  class CalculatorGraph {
    var fullInputStreams: seq<set<nat>>
    var throttledGraphInputStreamCount: int
    const nodes: seq<SourceState>

    ghost predicate InSomeSet(s: nat)
      reads this
    {
      exists n :: 0 <= n < |fullInputStreams| && s in fullInputStreams[n]
    }

    /** The first half of UnthrottleSources. */
    method FullStreams(outputs: set<nat>) returns (fullStreams: set<nat>)
      ensures forall s: nat :: s in fullStreams <==> InSomeSet(s) && s !in outputs
    {
      fullStreams := {};
      var i := 0;
      while i < |fullInputStreams|
        invariant 0 <= i <= |fullInputStreams|
        invariant forall s: nat :: s in fullStreams <==>
                    s !in outputs && exists n :: 0 <= n < i && s in fullInputStreams[n]
      {
        fullStreams := fullStreams + (fullInputStreams[i] - outputs);
        i := i + 1;
      }
    }

    /** Grows every full stream that is no graph output by one packet; or, if
        deadlocks are to be reported, records an error for each instead. */
    method UnthrottleSources(streams: seq<InputStreamManager>, outputs: set<nat>, reportDeadlock: bool)
      returns (did: bool, ghost grown: set<nat>, errors: set<nat>)
      requires forall i, j :: 0 <= i < j < |streams| ==> streams[i] != streams[j]
      requires forall s: nat :: InSomeSet(s) ==> s < |streams|
      modifies streams
      ensures forall s: nat :: s in grown + errors <==> InSomeSet(s) && s !in outputs
      ensures (if reportDeadlock then grown else errors) == {}
      ensures did <==> grown + errors != {}
      ensures forall s: nat :: s < |streams| ==>
                streams[s].State() == if s in grown then Grown(old(streams[s].State())) else old(streams[s].State())
    {
      var fullStreams := FullStreams(outputs);
      did := fullStreams != {};
      if reportDeadlock {
        errors, grown := fullStreams, {};
        return;
      }
      errors, grown := {}, fullStreams;
      var left := fullStreams;
      while left != {}
        invariant left <= fullStreams
        invariant forall s: nat :: s < |streams| ==>
                    streams[s].State() == if s in fullStreams - left then Grown(old(streams[s].State()))
                                          else old(streams[s].State())
        decreases |left|
      {
        var s :| s in left;
        left := left - {s};
        var _, _ := streams[s].SetMaxQueueSize(|streams[s].queue| + 1);
      }
    }

    constructor (nodes: seq<SourceState>, inputs: nat)
      ensures this.nodes == nodes && throttledGraphInputStreamCount == 0
      ensures fullInputStreams == seq(|nodes| + inputs, _ => {})
    {
      this.nodes := nodes;
      fullInputStreams := seq(|nodes| + inputs, _ => {});
      throttledGraphInputStreamCount := 0;
    }

    /** One turn of the loop below: whether the node is a source just freed. */
    method UpdateNode(s: nat, nodeId: nat, streamIsFull: bool) returns (freed: bool)
      requires |nodes| <= |fullInputStreams| && nodeId < |fullInputStreams|
      requires s in fullInputStreams[nodeId] <==> !streamIsFull
      requires throttledGraphInputStreamCount == HeldInputs(fullInputStreams, |nodes|, |fullInputStreams|)
      modifies this
      ensures |fullInputStreams| == |old(fullInputStreams)|
      ensures fullInputStreams == old(fullInputStreams)[
                nodeId := if streamIsFull then old(fullInputStreams)[nodeId] + {s}
                          else old(fullInputStreams)[nodeId] - {s}]
      ensures throttledGraphInputStreamCount == HeldInputs(fullInputStreams, |nodes|, |fullInputStreams|)
      ensures freed <==> nodeId < |nodes| && fullInputStreams[nodeId] == {} && nodes[nodeId].active
                         && !nodes[nodeId].closed
    {
      var wasThrottled := fullInputStreams[nodeId] != {};
      var after := if streamIsFull then fullInputStreams[nodeId] + {s} else fullInputStreams[nodeId] - {s};
      HeldInputsAt(fullInputStreams, |nodes|, |fullInputStreams|, nodeId, after);
      fullInputStreams := fullInputStreams[nodeId := after];
      var isThrottled := fullInputStreams[nodeId] != {};
      freed := false;
      if nodeId >= |nodes| {
        if !isThrottled {
          throttledGraphInputStreamCount := throttledGraphInputStreamCount - 1;
        } else if !wasThrottled {
          throttledGraphInputStreamCount := throttledGraphInputStreamCount + 1;
        }
      } else if !isThrottled {
        freed := nodes[nodeId].active && !nodes[nodeId].closed;
      }
    }

    /** The critical section of UpdateThrottledNodes: the new value of the flag and
        the sources that have just been freed. */
    method UpdateThrottledNodes(s: nat, upstream: seq<nat>, streamIsFull: bool, streamWasFull: bool)
      returns (nowFull: bool, nodesToSchedule: seq<nat>)
      requires |nodes| <= |fullInputStreams|
      requires forall i :: 0 <= i < |upstream| ==> upstream[i] < |fullInputStreams|
      requires forall i, j :: 0 <= i < j < |upstream| ==> upstream[i] != upstream[j]
      requires forall i :: 0 <= i < |upstream| ==> (s in fullInputStreams[upstream[i]] <==> streamWasFull)
      requires throttledGraphInputStreamCount == HeldInputs(fullInputStreams, |nodes|, |fullInputStreams|)
      modifies this
      ensures nowFull == streamIsFull
      ensures fullInputStreams == if streamIsFull == streamWasFull then old(fullInputStreams)
                                  else AfterNodes(old(fullInputStreams), s, upstream, streamIsFull, |upstream|)
      ensures throttledGraphInputStreamCount == HeldInputs(fullInputStreams, |nodes|, |fullInputStreams|)
      ensures forall n :: 0 <= n < |nodes| && n in upstream && old(fullInputStreams)[n] != {}
                          && fullInputStreams[n] == {} && nodes[n].active && !nodes[n].closed ==>
                n in nodesToSchedule
      ensures forall n :: n in nodesToSchedule ==>
                && n < |nodes| && n in upstream && old(fullInputStreams)[n] != {}
                && fullInputStreams[n] == {} && nodes[n].active && !nodes[n].closed
    {
      nodesToSchedule, nowFull := [], streamIsFull;
      if streamWasFull == streamIsFull {
        return;
      }
      ghost var before := fullInputStreams;
      var i := 0;
      while i < |upstream|
        invariant 0 <= i <= |upstream| && fullInputStreams == AfterNodes(before, s, upstream, streamIsFull, i)
        invariant throttledGraphInputStreamCount == HeldInputs(fullInputStreams, |nodes|, |fullInputStreams|)
        invariant forall j :: 0 <= j < i && upstream[j] < |nodes| && fullInputStreams[upstream[j]] == {}
                              && nodes[upstream[j]].active && !nodes[upstream[j]].closed ==>
                    upstream[j] in nodesToSchedule
        invariant forall n :: n in nodesToSchedule ==>
                    && n < |nodes| && n in upstream[..i] && before[n] != {}
                    && fullInputStreams[n] == {} && nodes[n].active && !nodes[n].closed
      {
        AfterNodesMember(before, s, upstream, streamIsFull, i, upstream[i], s);
        var freed := UpdateNode(s, upstream[i], streamIsFull);
        if freed {
          assert s !in fullInputStreams[upstream[i]] && !streamIsFull && s in before[upstream[i]];
          nodesToSchedule := nodesToSchedule + [upstream[i]];
        }
        i := i + 1;
      }
    }
  }
}
