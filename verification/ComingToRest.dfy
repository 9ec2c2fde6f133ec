/** Left to itself a graph comes to rest. Three numbers measure what is still to
    happen: what producers can still announce and deliver, what nodes can still
    decide, and what threads and invocations are under way. */
module ComingToRest {
  import opened Timestamps
  import opened InputStreams
  import opened SyncSets
  import opened NodeProtocol
  import opened NodeRuns
  import opened NodeInvariants
  import opened NodeWakeups
  import opened NodeTheorems
  import opened QuietNodes
  import opened Dataflow

  // -------------------------------------------------------------- one node

  function OpenInputs(xs: seq<Tracked>, n: nat): nat
    requires n <= |xs|
  {
    if n == 0 then 0 else OpenInputs(xs, n - 1) + if xs[n - 1].stream.closed then 0 else 1
  }

  lemma {:induction false} OpenInputsAt(xs: seq<Tracked>, n: nat, i: nat, y: Tracked)
    requires n <= |xs| && i < |xs|
    ensures OpenInputs(xs[i := y], n) ==
            OpenInputs(xs, n)
            + if i < n then (if y.stream.closed then 0 else 1) - (if xs[i].stream.closed then 0 else 1) else 0
  {
    if n == 0 {
    } else {
      OpenInputsAt(xs, n - 1, i, y);
    }
  }

  /** Timestamps that may still be decided. */
  function Undecided(v: Node): nat {
    if v.drained then 0 else DONE - v.lastProcessed + 1
  }

  function StatusRank(status: Status): nat {
    match status
    case Prepared => 2
    case Opened => 1
    case Active => 1
    case Closed => 0
  }

  /** What a node can still decide: each decision is made once. */
  function Decisions(v: Node): nat {
    Undecided(v) + (if v.closePrepared then 0 else 1) + StatusRank(v.protocol.status)
    + OpenInputs(v.streams, |v.streams|)
  }

  /** How far the thread in the loop is from leaving it. A set in hand still has to
      be filled, handed over, queued, run and ended. */
  function Distance(at: LoopPoint, n: nat): nat {
    match at
    case Entering => n + 5
    case Scanning(read, _) => 4 + if |read| < n then n - |read| else 0
    case Filling(_, row, _) => 2 * n + 14 + if |row| < n then n - |row| else 0
    case Submitting(task, _) => if task.Process? then 2 * n + 13 else 3
    case Propagating(_) => 2
    case Leaving(_) => 1
  }

  /** The thread, and the pass it still owes. */
  function Scheduling(v: Node): nat {
    (if v.loops == [] then 0 else Distance(v.loops[0], |v.streams|))
    + if v.protocol.scheduling == SchedulingPending then |v.streams| + 5 else 0
  }

  /** What is under way: the thread, the invocations, and the calls to look again. */
  function UnderWay(v: Node): nat {
    var n := |v.streams|;
    Scheduling(v) + (n + 8) * |v.queued| + (n + 7) * |v.running| + (n + 7) * v.checks
  }

  predicate Less(w: Node, v: Node) {
    Decisions(w) < Decisions(v) || (Decisions(w) == Decisions(v) && UnderWay(w) < UnderWay(v))
  }

  // Steps that decide something.

  lemma {:induction false} OpenLess(v: Node)
    requires Enabled(v, Step.Open)
    ensures Less(Take(v, Step.Open), v)
  {
  }

  lemma {:induction false} SetClosedLess(v: Node)
    requires ThreadInv(v) && Enabled(v, SetClosed)
    ensures Less(Take(v, SetClosed), v)
  {
  }

  lemma {:induction false} ShutLess(v: Node, i: nat)
    requires Enabled(v, ShutInput(i))
    ensures Less(Take(v, ShutInput(i)), v)
  {
    OpenInputsAt(v.streams, |v.streams|, i, Apply(v.streams[i], Shut));
  }

  /** A decision to process is for a later timestamp than any before. */
  lemma {:induction false} DecidedIsLater(v: Node)
    requires ThreadInv(v) && StreamsInv(v) && ScanInv(v) && DrainInv(v) && LogInv(v) && LastInv(v)
    requires v.loops != [] && v.loops[0].Scanning? && |v.loops[0].read| == |v.streams|
    requires VerdictOf(v, 0).readiness == ReadyForProcess
    ensures !v.drained && VerdictOf(v, 0).lastProcessed > v.lastProcessed
  {
    DecidedFilling(v, 0);
    VerdictKeepsLast(MinimaOf(v.loops[0].read), v.processTimestamps, v.lastProcessed);
    assert !IsFilling(v);
  }

  lemma {:induction false} RuledDecides(v: Node, active: bool, verdict: Verdict)
    requires v.loops != [] && v.loops[0].Scanning?
    requires verdict.readiness == NotReady ==> verdict.lastProcessed == v.lastProcessed
    requires verdict.readiness == ReadyForProcess ==> !v.drained && verdict.lastProcessed > v.lastProcessed
    ensures var w := Ruled(v, 0, active, verdict);
            if verdict.readiness == ReadyForProcess || (verdict.readiness == ReadyForClose && !v.drained)
            then Undecided(w) < Undecided(v) else Undecided(w) == Undecided(v)
  {
    RuledHistory(v, active, verdict);
  }

  lemma {:induction false} RuledDistance(v: Node, active: bool, verdict: Verdict)
    requires v.loops != [] && v.loops[0].Scanning? && verdict.readiness != ReadyForProcess
    ensures var w := Ruled(v, 0, active, verdict);
            && |w.loops| == |v.loops| && w.queued == v.queued && w.running == v.running
            && Distance(w.loops[0], |v.streams|) < Distance(v.loops[0], |v.streams|)
  {
  }

  /** A verdict that decides nothing moves the thread. */
  lemma {:induction false} RuledWeighs(v: Node, w: Node)
    requires && w.streams == v.streams && w.closePrepared == v.closePrepared && w.protocol == v.protocol
             && w.checks == v.checks && w.queued == v.queued && w.running == v.running
    requires || Undecided(w) < Undecided(v)
             || (&& Undecided(w) == Undecided(v) && v.loops != [] && w.loops != []
                 && Distance(w.loops[0], |v.streams|) < Distance(v.loops[0], |v.streams|))
    ensures Less(w, v)
  {
  }

  lemma {:induction false} RuledQueues(v: Node, active: bool, verdict: Verdict)
    requires v.loops != [] && v.loops[0].Scanning?
    ensures var w := Ruled(v, 0, active, verdict); w.queued == v.queued && w.running == v.running && w.loops != []
  {
  }

  lemma {:induction false} RuledLess(v: Node, active: bool)
    requires ThreadInv(v) && StreamsInv(v) && ScanInv(v) && DrainInv(v) && LogInv(v) && LastInv(v)
    requires Enabled(v, Decide(0, active))
    ensures Less(Ruled(v, 0, active, VerdictOf(v, 0)), v)
  {
    var verdict := VerdictOf(v, 0);
    if verdict.readiness == ReadyForProcess {
      DecidedIsLater(v);
    }
    VerdictKeepsLast(MinimaOf(v.loops[0].read), v.processTimestamps, v.lastProcessed);
    VerdictLess(v, active, verdict);
  }

  lemma {:induction false} VerdictLess(v: Node, active: bool, verdict: Verdict)
    requires v.loops != [] && v.loops[0].Scanning?
    requires verdict.readiness == NotReady ==> verdict.lastProcessed == v.lastProcessed
    requires verdict.readiness == ReadyForProcess ==> !v.drained && verdict.lastProcessed > v.lastProcessed
    ensures Less(Ruled(v, 0, active, verdict), v)
  {
    RuledKeeps(v, active, verdict);
    RuledQueues(v, active, verdict);
    RuledDecides(v, active, verdict);
    if verdict.readiness != ReadyForProcess {
      RuledDistance(v, active, verdict);
    }
    RuledWeighs(v, Ruled(v, 0, active, verdict));
  }

  // Steps that only move on.

  lemma {:induction false} MovedDecisions(v: Node, w: Node)
    requires SameSets(v, w) && w.protocol.status == v.protocol.status
    ensures Decisions(w) == Decisions(v)
  {
  }

  lemma {:induction false} CheckLess(v: Node)
    requires ThreadInv(v) && Enabled(v, Check)
    ensures Less(Take(v, Check), v)
  {
    var w, n := Take(v, Check), |v.streams|;
    PlainFrame(v, Check);
    MovedDecisions(v, w);
    assert (n + 7) * v.checks == (n + 7) * w.checks + (n + 7);
  }

  lemma {:induction false} EnterLess(v: Node)
    requires ThreadInv(v) && Enabled(v, Enter(0))
    ensures Less(Take(v, Enter(0)), v)
  {
    PlainFrame(v, Enter(0));
    MovedDecisions(v, Take(v, Enter(0)));
  }

  lemma {:induction false} ReadLess(v: Node)
    requires ThreadInv(v) && Enabled(v, Read(0))
    ensures Less(Take(v, Read(0)), v)
  {
    PlainFrame(v, Read(0));
    MovedDecisions(v, Take(v, Read(0)));
  }

  lemma {:induction false} FilledLess(v: Node)
    requires ThreadInv(v) && StreamsInv(v) && DrainInv(v) && FillInv(v) && SelectInv(v) && Enabled(v, FillOne(0))
    ensures Less(Filled(v, 0), v)
  {
    FillOnePop(v);
    var i, t := |v.loops[0].row|, v.loops[0].t;
    var y, p := Apply(v.streams[i], Op.Pop(t)), Selected(v.streams[i].stream, t);
    FilledMoves(v, y, p);
    FilledWeighs(v, Filled(v, 0), i, y);
  }

  lemma {:induction false} FilledWeighs(v: Node, w: Node, i: nat, y: Tracked)
    requires i < |v.streams| && w.streams == v.streams[i := y] && y.stream.closed == v.streams[i].stream.closed
    requires v.loops != [] && w.loops != []
    requires Distance(w.loops[0], |v.streams|) < Distance(v.loops[0], |v.streams|)
    requires && w.lastProcessed == v.lastProcessed && w.drained == v.drained
             && w.closePrepared == v.closePrepared && w.protocol == v.protocol
             && w.queued == v.queued && w.running == v.running && w.checks == v.checks
    ensures Less(w, v)
  {
    OpenInputsAt(v.streams, |v.streams|, i, y);
  }

  lemma {:induction false} FilledMoves(v: Node, y: Tracked, p: Packet)
    requires v.loops != [] && v.loops[0].Filling? && |v.loops[0].row| < |v.streams|
    ensures var w := Popped(v, 0, y, p);
            && w.loops != [] && Distance(w.loops[0], |v.streams|) < Distance(v.loops[0], |v.streams|)
            && w.lastProcessed == v.lastProcessed && w.drained == v.drained
            && w.closePrepared == v.closePrepared && w.protocol == v.protocol
            && w.queued == v.queued && w.running == v.running && w.checks == v.checks
  {
  }

  lemma {:induction false} SubmittedLess(v: Node)
    requires ThreadInv(v) && DrainInv(v) && TaskInv(v) && Enabled(v, Submit(0))
    ensures Less(Submitted(v, 0), v)
  {
    SubmittedThread(v, 0);
    var w, n := Submitted(v, 0), |v.streams|;
    if v.loops[0].task.Process? {
      SubmittedHandsOver(v);
      SubmittedMoves(v);
      assert (n + 8) * |w.queued| == (n + 8) * |v.queued| + (n + 8);
    } else {
      SubmittedCloses(v);
    }
  }

  lemma {:induction false} SubmittedMoves(v: Node)
    requires ThreadInv(v) && Enabled(v, Submit(0)) && v.loops[0].task.Process?
    ensures var w := Submitted(v, 0);
            && w.loops != [] && Distance(w.loops[0], |v.streams|) <= |v.streams| + 4
            && w.protocol == v.protocol.(inFlight := v.protocol.inFlight + 1)
            && |w.queued| == |v.queued| + 1 && w.running == v.running && w.checks == v.checks
  {
    SubmittedThread(v, 0);
  }

  lemma {:induction false} SubmittedCloses(v: Node)
    requires ThreadInv(v) && TaskInv(v) && Enabled(v, Submit(0)) && v.loops[0].task.CloseNode?
    ensures var w := Submitted(v, 0);
            && !v.closePrepared && w.closePrepared && w.drained == v.drained && w.lastProcessed == v.lastProcessed
            && w.protocol.status == v.protocol.status
  {
    SubmittedThread(v, 0);
  }

  lemma {:induction false} PropagatedLess(v: Node)
    requires ThreadInv(v) && Enabled(v, Propagated(0))
    ensures Less(Take(v, Propagated(0)), v)
  {
    PlainFrame(v, Propagated(0));
    MovedDecisions(v, Take(v, Propagated(0)));
  }

  lemma {:induction false} LeaveLess(v: Node)
    requires ThreadInv(v) && Enabled(v, Leave(0))
    ensures Less(Take(v, Leave(0)), v)
  {
    PlainFrame(v, Leave(0));
    MovedDecisions(v, Take(v, Leave(0)));
  }

  lemma {:induction false} BeginLess(v: Node, k: nat)
    requires ThreadInv(v) && Enabled(v, Begin(k))
    ensures Less(Take(v, Begin(k)), v)
  {
    var w, n := Take(v, Begin(k)), |v.streams|;
    PlainFrame(v, Begin(k));
    MovedDecisions(v, w);
    assert (n + 8) * |v.queued| == (n + 8) * |w.queued| + (n + 8);
    assert (n + 7) * |w.running| == (n + 7) * |v.running| + (n + 7);
  }

  /** The end of an invocation may cost one more pass. */
  lemma {:induction false} EndSchedules(v: Node, k: nat)
    requires ThreadInv(v) && Enabled(v, End(k))
    ensures Scheduling(Take(v, End(k))) <= Scheduling(v) + |v.streams| + 5
    ensures |Take(v, End(k)).running| == |v.running| - 1
  {
  }

  lemma {:induction false} EndLess(v: Node, k: nat)
    requires ThreadInv(v) && Enabled(v, End(k))
    ensures Less(Take(v, End(k)), v)
  {
    var w, n := Take(v, End(k)), |v.streams|;
    PlainFrame(v, End(k));
    MovedDecisions(v, w);
    EndSchedules(v, k);
    assert (n + 7) * |v.running| == (n + 7) * |w.running| + (n + 7);
  }

  predicate OfThread(step: Step) {
    step.Enter? || step.Read? || step.Decide? || step.FillOne? || step.Submit? || step.Propagated? || step.Leave?
  }

  lemma {:induction false} ThreadStepLess(v: Node, step: Step)
    requires NodeInv(v) && LastInv(v) && Enabled(v, step) && OfThread(step)
    ensures Less(Take(v, step), v)
  {
    assert step.k == 0;
    match step
    case Enter(_) => EnterLess(v);
    case Read(_) => ReadLess(v);
    case Decide(_, active) => RuledLess(v, active);
    case FillOne(_) => FilledLess(v);
    case Submit(_) => SubmittedLess(v);
    case Propagated(_) => PropagatedLess(v);
    case Leave(_) => LeaveLess(v);
  }

  /** Every step of a node but its producers' brings it closer to rest. */
  lemma {:induction false} NodeStepLess(v: Node, step: Step)
    requires NodeInv(v) && LastInv(v) && Enabled(v, step) && !step.Produce?
    ensures Less(Take(v, step), v)
  {
    if OfThread(step) {
      ThreadStepLess(v, step);
    } else {
      OtherStepLess(v, step);
    }
  }

  lemma {:induction false} OtherStepLess(v: Node, step: Step)
    requires ThreadInv(v) && Enabled(v, step) && !step.Produce? && !OfThread(step)
    ensures Less(Take(v, step), v)
  {
    match step
    case Open => OpenLess(v);
    case Check => CheckLess(v);
    case Begin(k) => BeginLess(v, k);
    case ShutInput(i) => ShutLess(v, i);
    case SetClosed => SetClosedLess(v);
    case End(k) => EndLess(v, k);
  }

  // ------------------------------------------------------------- the graph

  function Total(xs: seq<nat>): nat {
    if xs == [] then 0 else Total(xs[..|xs| - 1]) + xs[|xs| - 1]
  }

  lemma {:induction false} TotalAt(xs: seq<nat>, i: nat, x: nat)
    requires i < |xs|
    ensures Total(xs[i := x]) == Total(xs) - xs[i] + x
  {
    var n := |xs| - 1;
    if i == n {
      assert xs[i := x][..n] == xs[..n];
    } else {
      assert xs[i := x][..n] == xs[..n][i := x];
      TotalAt(xs[..n], i, x);
    }
  }

  /** What a manager may still say: each bound is larger than the last. */
  function Sayings(m: Manager): nat {
    DONE - m.bound + if m.closed then 0 else 1
  }

  /** Critical sections that the message under way still needs. */
  function Deliveries(s: Out.Sending, mirrors: nat): nat {
    if s.Serving? && s.mirror < mirrors then 2 * (mirrors - s.mirror) - (if s.added then 1 else 0) else 0
  }

  /** What one stream may still carry, counted in deliveries. */
  function Traffic(m: Manager, s: Out.Sending, mirrors: nat): nat {
    Sayings(m) * (2 * mirrors + 1) + Deliveries(s, mirrors)
  }

  function Traffics(f: Flow): (r: seq<nat>)
    requires Shaped(f)
    ensures |r| == |f.managers|
  {
    seq(|f.managers|, s requires 0 <= s < |f.managers| =>
      Traffic(f.managers[s], f.sending[s], |f.topology.mirrors[s]|))
  }

  function AllDecisions(f: Flow): (r: seq<nat>)
    ensures |r| == |f.nodes|
  {
    seq(|f.nodes|, n requires 0 <= n < |f.nodes| => Decisions(f.nodes[n]))
  }

  function AllUnderWay(f: Flow): (r: seq<nat>)
    ensures |r| == |f.nodes|
  {
    seq(|f.nodes|, n requires 0 <= n < |f.nodes| => UnderWay(f.nodes[n]))
  }

  /** The graph is closer to rest: first comes what streams may carry, then what
      nodes may decide, then what is under way. */
  predicate Closer(g: Flow, f: Flow)
    requires Shaped(g) && Shaped(f)
  {
    var a, b, c := Total(Traffics(f)), Total(AllDecisions(f)), Total(AllUnderWay(f));
    || Total(Traffics(g)) < a
    || (Total(Traffics(g)) == a && Total(AllDecisions(g)) < b)
    || (Total(Traffics(g)) == a && Total(AllDecisions(g)) == b && Total(AllUnderWay(g)) < c)
  }

  lemma {:induction false} LessOften(b: nat, c: nat, d: nat, a: nat)
    requires b < a && d < c
    ensures b * c + d < a * c
  {
    if a == b + 1 {
      assert a * c == b * c + c;
    } else {
      LessOften(b, c, d, a - 1);
      assert a * c == (a - 1) * c + c;
    }
  }

  lemma {:induction false} SaidTraffic(m: Manager, w: Manager, message: Out.Message, mirrors: nat)
    requires Sayings(w) < Sayings(m)
    ensures Traffic(w, Out.Start(message, mirrors), mirrors) < Traffic(m, Out.Resting, mirrors)
  {
    LessOften(Sayings(w), 2 * mirrors + 1, Deliveries(Out.Start(message, mirrors), mirrors), Sayings(m));
  }

  lemma {:induction false} ServedTraffic(m: Manager, s: Out.Sending, mirrors: nat)
    requires s.Serving? && s.mirror < mirrors
    ensures Traffic(m, Out.Proceed(s, mirrors), mirrors) < Traffic(m, s, mirrors)
  {
  }

  /** Only one stream's traffic has changed, and it has become less. */
  lemma {:induction false} LessTraffic(f: Flow, g: Flow, s: nat)
    requires Shaped(f) && Shaped(g) && g.topology == f.topology && s < |f.managers|
    requires g.managers == f.managers[s := g.managers[s]] && g.sending == f.sending[s := g.sending[s]]
    requires Traffics(g)[s] < Traffics(f)[s]
    ensures Closer(g, f)
  {
    assert Traffics(g) == Traffics(f)[s := Traffics(g)[s]];
    TotalAt(Traffics(f), s, Traffics(g)[s]);
  }

  lemma {:induction false} SayingIsCloser(f: Flow, s: nat, m: Out.Message, closing: bool)
    requires FlowInv(f) && Fits(f, s, m)
    requires closing || f.managers[s].bound < m.bound <= DONE
    ensures Closer(Said(f, s, m, closing), f)
  {
    var g := Said(f, s, m, closing);
    SaidTraffic(f.managers[s], g.managers[s], m, |f.topology.mirrors[s]|);
    LessTraffic(f, g, s);
  }

  lemma {:induction false} DeliveringIsCloser(f: Flow, s: nat)
    requires FlowInv(f) && FlowEnabled(f, Deliver(s))
    ensures Closer(Delivered(f, s), f)
  {
    ServedTraffic(f.managers[s], f.sending[s], |f.topology.mirrors[s]|);
    LessTraffic(f, Delivered(f, s), s);
  }

  /** Only one node has changed, and it is closer to rest. */
  lemma {:induction false} LessNode(f: Flow, n: nat, w: Node)
    requires Shaped(f) && n < |f.nodes| && Less(w, f.nodes[n])
    ensures Closer(f.(nodes := f.nodes[n := w]), f)
  {
    var g := f.(nodes := f.nodes[n := w]);
    assert Traffics(g) == Traffics(f);
    assert AllDecisions(g) == AllDecisions(f)[n := Decisions(w)];
    assert AllUnderWay(g) == AllUnderWay(f)[n := UnderWay(w)];
    TotalAt(AllDecisions(f), n, Decisions(w));
    TotalAt(AllUnderWay(f), n, UnderWay(w));
  }

  lemma {:induction false} InnerIsCloser(f: Flow, n: nat, step: Step)
    requires FlowInv(f) && FlowEnabled(f, Inner(n, step))
    ensures Closer(FlowTake(f, Inner(n, step)), f)
  {
    assert NodeGood(f, n);
    NodeStepLess(f.nodes[n], step);
    LessNode(f, n, Take(f.nodes[n], step));
  }

  /** Every step that needs neither a graph input nor a calculator brings the graph
      closer to rest. */
  lemma {:induction false} OwnStepIsCloser(f: Flow, step: FlowStep)
    requires FlowInv(f) && IsOwn(step) && FlowEnabled(f, step)
    ensures FlowInv(FlowTake(f, step)) && Closer(FlowTake(f, step), f)
  {
    FlowStepKeeps(f, step);
    match step
    case Raise(n, o, bound) => SayingIsCloser(f, f.topology.outs[n][o], Out.Message([], bound), false);
    case CloseOutput(n, o, packets) => SayingIsCloser(f, f.topology.outs[n][o], Out.Message(packets, DONE), true);
    case Deliver(s) => DeliveringIsCloser(f, s);
    case Inner(n, inner) => InnerIsCloser(f, n, inner);
  }

  // ------------------------------------------------------------ whole runs

  ghost predicate OwnMove(f: Flow, step: FlowStep, g: Flow) {
    Shaped(f) && IsOwn(step) && FlowEnabled(f, step) && g == FlowTake(f, step)
  }

  /** Left to itself a graph cannot go on for ever. */
  lemma {:induction false} NothingIsEndless(states: nat -> Flow, steps: nat -> FlowStep, from: nat)
    requires FlowInv(states(from))
    ensures exists i: nat :: i >= from && !OwnMove(states(i), steps(i), states(i + 1))
    decreases Total(Traffics(states(from))), Total(AllDecisions(states(from))), Total(AllUnderWay(states(from)))
  {
    if !OwnMove(states(from), steps(from), states(from + 1)) {
    } else {
      OwnStepIsCloser(states(from), steps(from));
      NothingIsEndless(states, steps, from + 1);
    }
  }

  lemma {:induction false} RunGoesOn(run: seq<Flow>, steps: seq<FlowStep>, step: FlowStep, g: Flow)
    requires IsFlowRun(run, steps) && OwnMove(run[|steps|], step, g)
    ensures IsFlowRun(run + [g], steps + [step])
  {
    var longer, more := run + [g], steps + [step];
    assert longer[0] == run[0];
    forall i | 0 <= i < |more|
      ensures Shaped(longer[i]) && FlowEnabled(longer[i], more[i]) && longer[i + 1] == FlowTake(longer[i], more[i])
    {
      if i < |steps| {
        assert longer[i] == run[i] && longer[i + 1] == run[i + 1] && more[i] == steps[i];
      }
    }
  }

  ghost predicate AtRest(f: Flow) {
    FlowQuiescent(f) || exists n :: 0 <= n < |f.nodes| && f.nodes[n].failed
  }

  lemma {:induction false} OneMore(run: seq<Flow>, steps: seq<FlowStep>) returns (step: FlowStep, g: Flow)
    requires IsFlowRun(run, steps) && FlowInv(run[|steps|]) && !AtRest(run[|steps|])
    ensures OwnMove(run[|steps|], step, g) && FlowInv(g) && Closer(g, run[|steps|])
    ensures IsFlowRun(run + [g], steps + [step])
  {
    var f := run[|steps|];
    NeverStuck(run, steps, |steps|);
    step :| IsOwn(step) && FlowEnabled(f, step);
    OwnStepIsCloser(f, step);
    g := FlowTake(f, step);
    RunGoesOn(run, steps, step, g);
  }

  /** `end` continues the run by own steps until nothing is left to do. */
  ghost predicate Settled(run: seq<Flow>, steps: seq<FlowStep>, end: seq<Flow>, own: seq<FlowStep>) {
    && |end| == |own| && IsFlowRun(run + end, steps + own) && AtRest((run + end)[|steps + own|])
    && (forall i :: 0 <= i < |own| ==> IsOwn(own[i]))
  }

  lemma {:induction false} OneStepBefore(run: seq<Flow>, steps: seq<FlowStep>, g: Flow, step: FlowStep,
        end: seq<Flow>, own: seq<FlowStep>)
    requires IsOwn(step) && Settled(run + [g], steps + [step], end, own)
    ensures Settled(run, steps, [g] + end, [step] + own)
  {
    assert (run + [g]) + end == run + ([g] + end);
    assert (steps + [step]) + own == steps + ([step] + own);
  }

  lemma {:induction false} Settles(run: seq<Flow>, steps: seq<FlowStep>) returns (end: seq<Flow>, own: seq<FlowStep>)
    requires IsFlowRun(run, steps) && FlowInv(run[|steps|])
    ensures Settled(run, steps, end, own)
    decreases Total(Traffics(run[|steps|])), Total(AllDecisions(run[|steps|])), Total(AllUnderWay(run[|steps|])), 0
  {
    if AtRest(run[|steps|]) {
      end, own := [], [];
      assert run + end == run && steps + own == steps;
    } else {
      var step, g := OneMore(run, steps);
      end, own := SettlesAfter(run, steps, g, step);
      OneStepBefore(run, steps, g, step, end, own);
      end, own := [g] + end, [step] + own;
    }
  }

  lemma {:induction false} SettlesAfter(run: seq<Flow>, steps: seq<FlowStep>, g: Flow, step: FlowStep)
      returns (end: seq<Flow>, own: seq<FlowStep>)
    requires IsFlowRun(run + [g], steps + [step]) && |run| == |steps| + 1 && FlowInv(g)
    ensures Settled(run + [g], steps + [step], end, own)
    decreases Total(Traffics(g)), Total(AllDecisions(g)), Total(AllUnderWay(g)), 1
  {
    end, own := Settles(run + [g], steps + [step]);
  }

  /** From every state of every run the graph's own steps lead to rest, unless a
      stream rejects an update on the way. */
  lemma {:induction false} ComesToRest(run: seq<Flow>, steps: seq<FlowStep>)
      returns (end: seq<Flow>, own: seq<FlowStep>)
    requires IsFlowRun(run, steps)
    ensures Settled(run, steps, end, own)
  {
    FlowRunsHold(run, steps, |steps|);
    end, own := Settles(run, steps);
  }

  // ----------------------------------------------------- the end of the input

  predicate InputsEnded(f: Flow) {
    f.topology.graphInputs <= |f.managers|
    && forall s :: 0 <= s < f.topology.graphInputs ==> f.managers[s].bound == DONE
  }

  lemma {:induction false} OwnStepKeepsInputs(f: Flow, step: FlowStep, g: Flow)
    requires FlowInv(f) && OwnMove(f, step, g) && InputsEnded(f)
    ensures InputsEnded(g)
  {
  }

  lemma {:induction false} InputsStillEnded(run: seq<Flow>, steps: seq<FlowStep>, i: nat)
    requires IsFlowRun(run, steps) && i < |steps| && IsOwn(steps[i]) && InputsEnded(run[i])
    ensures InputsEnded(run[i + 1])
  {
    FlowRunsHold(run, steps, i);
    OwnStepKeepsInputs(run[i], steps[i], run[i + 1]);
  }

  lemma {:induction false} InputsStayEnded(run: seq<Flow>, steps: seq<FlowStep>, from: nat, i: nat)
    requires IsFlowRun(run, steps) && from <= i < |run| && InputsEnded(run[from])
    requires forall j :: from <= j < |steps| ==> IsOwn(steps[j])
    ensures InputsEnded(run[i])
  {
    if i == from {
    } else {
      InputsStayEnded(run, steps, from, i - 1);
      InputsStillEnded(run, steps, i - 1);
    }
  }

  /** Once the graph inputs have ended, the graph ends by itself: its own steps
      close every node and use up every packet. */
  lemma {:induction false} EndsByItself(run: seq<Flow>, steps: seq<FlowStep>)
      returns (end: seq<Flow>, own: seq<FlowStep>)
    requires IsFlowRun(run, steps) && InputsEnded(run[|steps|])
    ensures Settled(run, steps, end, own)
    ensures var f := (run + end)[|steps + own|];
            || (exists n :: 0 <= n < |f.nodes| && f.nodes[n].failed)
            || (forall n :: 0 <= n < |f.nodes| ==>
                  && f.nodes[n].protocol.status == Closed
                  && forall p :: 0 <= p < |f.nodes[n].streams| ==> f.nodes[n].streams[p].stream.queue == [])
  {
    end, own := ComesToRest(run, steps);
    var all, more := run + end, steps + own;
    assert all[|steps|] == run[|steps|];
    assert forall j :: |steps| <= j < |more| ==> more[j] == own[j - |steps|];
    InputsStayEnded(all, more, |steps|, |more|);
    if FlowQuiescent(all[|more|]) {
      EverythingCloses(all, more, |more|);
    }
  }
}
