/** What a whole graph computes does not depend on how its threads are interleaved.
    A history for each stream records everything its producer has sent. */
module GraphDeterminism {
  import opened Timestamps
  import opened InputStreams
  import opened SyncSets
  import opened NodeRuns
  import opened NodeInvariants
  import opened NodeTheorems
  import opened QuietNodes
  import opened Dataflow

  type Sent = seq<seq<Packet>>

  // ------------------------------------------------------ what was sent

  predicate Says(step: FlowStep) {
    step.Feed? || step.Emit? || step.Raise? || step.CloseOutput?
  }

  /** The stream and the message of a step that hands one to a manager. */
  function StreamOf(f: Flow, step: FlowStep): nat
    requires Says(step) && FlowEnabled(f, step)
  {
    if step.Feed? then step.s else f.topology.outs[step.n][step.o]
  }

  function Told(step: FlowStep): Out.Message
    requires Says(step)
  {
    match step
    case Feed(_, m, _) => m
    case Emit(_, _, m, _) => m
    case Raise(_, _, bound) => Out.Message([], bound)
    case CloseOutput(_, _, packets) => Out.Message(packets, DONE)
  }

  function Closing(step: FlowStep): bool
    requires Says(step)
  {
    step.CloseOutput? || (step.Feed? && step.closing) || (step.Emit? && step.closing)
  }

  lemma {:induction false} SayingTakes(f: Flow, step: FlowStep)
    requires Shaped(f) && FlowEnabled(f, step) && Says(step)
    ensures Fits(f, StreamOf(f, step), Told(step)) && StreamOf(f, step) < |f.topology.mirrors|
    ensures Closing(step) ==> Told(step).bound == DONE
    ensures FlowTake(f, step) == Said(f, StreamOf(f, step), Told(step), Closing(step))
  {
  }

  function SentAfter(f: Flow, h: Sent, step: FlowStep): (r: Sent)
    requires Shaped(f) && FlowEnabled(f, step) && |h| == |f.managers|
    ensures |r| == |h|
  {
    if Says(step) then h[StreamOf(f, step) := h[StreamOf(f, step)] + Told(step).packets] else h
  }

  /** The bound announced with packets covers them, and nothing is sent on a stream
      that has reached its end: its consumers may have closed it, and a closed stream
      takes packets without adding them and without an error. */
  predicate Orderly(m: Out.Message, bound: Timestamp) {
    m.packets != [] ==> bound <= POST_STREAM && Next(m.packets[|m.packets| - 1].timestamp) <= m.bound
  }

  predicate OrderlyStep(f: Flow, step: FlowStep)
    requires Shaped(f) && FlowEnabled(f, step)
  {
    Says(step) ==> Orderly(Told(step), f.managers[StreamOf(f, step)].bound)
  }

  // ------------------------------------------------------ what steps keep

  /** A consumer to which the packets of the message under way have been added, or
      for which there is none. */
  predicate Served(s: Out.Sending, k: nat) {
    s.Resting? || k < s.mirror || (k == s.mirror && s.added)
  }

  function PortAt(f: Flow, port: Port): Tracked
    requires port.node < |f.nodes| && port.input < |f.nodes[port.node].streams|
  {
    f.nodes[port.node].streams[port.input]
  }

  /** A consumer has accepted what was sent, up to the message that has yet to reach
      it; it is never ahead of its producer; and it has closed only if nothing more
      can come. */
  ghost predicate HistoryAt(x: Tracked, sending: Out.Sending, m: Manager, sent: seq<Packet>, k: nat) {
    && (if Served(sending, k) then x.accepted == sent else x.accepted + sending.message.packets == sent)
    && (!x.stream.closed ==> x.stream.bound <= m.bound)
    && (x.stream.closed ==> m.bound >= ONE_OVER_POST_STREAM)
    && (!Served(sending, k) && sending.message.packets != [] ==>
          !x.stream.closed && x.stream.bound <= POST_STREAM)
  }

  ghost predicate EdgeHistory(f: Flow, h: Sent, s: nat, k: nat)
    requires s < |f.sending| && s < |f.managers| && s < |h| && s < |f.topology.mirrors| && k < |f.topology.mirrors[s]|
  {
    var port := f.topology.mirrors[s][k];
    && port.node < |f.nodes| && port.input < |f.nodes[port.node].streams|
    && (!f.nodes[port.node].failed ==> HistoryAt(PortAt(f, port), f.sending[s], f.managers[s], h[s], k))
  }

  predicate MessageInv(s: Out.Sending) {
    && (s.Serving? && s.added ==> s.message.packets != [])
    && (s.Serving? && s.message.packets != [] ==>
          Next(s.message.packets[|s.message.packets| - 1].timestamp) <= s.message.bound)
  }

  ghost predicate HistoryInv(f: Flow, h: Sent) {
    && FlowInv(f) && |h| == |f.managers|
    && (forall s :: 0 <= s < |f.sending| ==> MessageInv(f.sending[s]))
    && (forall s, k :: 0 <= s < |f.managers| && 0 <= k < |f.topology.mirrors[s]| ==> EdgeHistory(f, h, s, k))
  }

  // Sending.

  lemma {:induction false} SaidHistoryAt(x: Tracked, sending: Out.Sending, m: Manager, sent: seq<Packet>, k: nat,
        message: Out.Message, n: Manager, mirrors: nat)
    requires HistoryAt(x, sending, m, sent, k) && sending.Resting? && k < mirrors
    requires Orderly(message, m.bound) && (message.bound == UNSET ==> message.packets == []) && n.bound >= m.bound
    ensures HistoryAt(x, Out.Start(message, mirrors), n, sent + message.packets, k)
  {
    assert sent + [] == sent;
  }

  lemma {:induction false} SaidEdgeHistory(f: Flow, h: Sent, s: nat, m: Out.Message, closing: bool, t: nat, k: nat)
    requires HistoryInv(f, h) && Fits(f, s, m) && Orderly(m, f.managers[s].bound) && (closing ==> m.bound == DONE)
    requires t < |f.managers| && k < |f.topology.mirrors[t]|
    ensures EdgeHistory(Said(f, s, m, closing), h[s := h[s] + m.packets], t, k)
  {
    var g := Said(f, s, m, closing);
    var port := f.topology.mirrors[t][k];
    assert EdgeHistory(f, h, t, k);
    if t == s && !f.nodes[port.node].failed {
      SaidHistoryAt(PortAt(f, port), f.sending[s], f.managers[s], h[s], k, m, g.managers[s], |f.topology.mirrors[s]|);
    }
  }

  lemma {:induction false} SayingKeeps(f: Flow, h: Sent, step: FlowStep)
    requires HistoryInv(f, h) && FlowEnabled(f, step) && Says(step) && OrderlyStep(f, step)
    ensures HistoryInv(FlowTake(f, step), SentAfter(f, h, step))
  {
    FlowStepKeeps(f, step);
    SayingTakes(f, step);
    SaidKeepsHistory(f, h, StreamOf(f, step), Told(step), Closing(step));
  }

  lemma {:induction false} SaidKeepsHistory(f: Flow, h: Sent, s: nat, m: Out.Message, closing: bool)
    requires HistoryInv(f, h) && Fits(f, s, m) && Orderly(m, f.managers[s].bound) && (closing ==> m.bound == DONE)
    requires FlowInv(Said(f, s, m, closing))
    ensures HistoryInv(Said(f, s, m, closing), h[s := h[s] + m.packets])
  {
    var g, r := Said(f, s, m, closing), h[s := h[s] + m.packets];
    forall t, k | 0 <= t < |g.managers| && 0 <= k < |g.topology.mirrors[t]|
      ensures EdgeHistory(g, r, t, k)
    {
      SaidEdgeHistory(f, h, s, m, closing, t, k);
    }
  }

  // Delivering.

  lemma {:induction false} AddReaches(x: Tracked, packets: seq<Packet>)
    requires Consistent(x) && !x.stream.closed && packets != [] && Succeeds(x.stream, Op.Add(packets))
    ensures var y := Apply(x, Op.Add(packets));
            && y.accepted == x.accepted + packets && !y.stream.closed
            && y.stream.bound == Next(packets[|packets| - 1].timestamp)
  {
    PushAllAppends(x.stream, packets);
    assert packets[..|packets|] == packets;
  }

  lemma {:induction false} ReachedHistoryAt(x: Tracked, sending: Out.Sending, m: Manager, sent: seq<Packet>,
        mirrors: nat)
    requires Consistent(x) && sending.Serving? && MessageInv(sending) && HistoryAt(x, sending, m, sent, sending.mirror)
    requires m.bound == sending.message.bound
    requires Succeeds(x.stream, Out.NextOp(sending.message, sending.added))
    ensures HistoryAt(
              Apply(x, Out.NextOp(sending.message, sending.added)), Out.Proceed(sending, mirrors), m, sent,
              sending.mirror)
  {
    var packets := sending.message.packets;
    if packets != [] && !sending.added {
      AddReaches(x, packets);
    } else {
      assert packets == [] ==> x.accepted + packets == x.accepted;
    }
  }

  /** Passing on to the next consumer changes nothing for the others. */
  lemma {:induction false} OthersWait(x: Tracked, sending: Out.Sending, m: Manager, sent: seq<Packet>, k: nat,
        mirrors: nat)
    requires sending.Serving? && k != sending.mirror && k < mirrors && sending.mirror < mirrors
    requires HistoryAt(x, sending, m, sent, k)
    ensures HistoryAt(x, Out.Proceed(sending, mirrors), m, sent, k)
  {
  }

  lemma {:induction false} ReachedEdge(f: Flow, h: Sent, s: nat)
    requires HistoryInv(f, h) && FlowEnabled(f, Deliver(s)) && s < |f.managers|
    ensures EdgeHistory(Delivered(f, s), h, s, f.sending[s].mirror)
  {
    var sending := f.sending[s];
    var port := f.topology.mirrors[s][sending.mirror];
    assert EdgeHistory(f, h, s, sending.mirror) && SendingInv(f, s) && f.topology.ValidMirror(s, port);
    assert NodeGood(f, port.node) && Consistent(PortAt(f, port));
    if !Delivered(f, s).nodes[port.node].failed {
      ReachedHistoryAt(PortAt(f, port), sending, f.managers[s], h[s], |f.topology.mirrors[s]|);
    }
  }

  lemma {:induction false} DeliveredEdge(f: Flow, h: Sent, s: nat, t: nat, k: nat)
    requires HistoryInv(f, h) && FlowEnabled(f, Deliver(s))
    requires t < |f.managers| && k < |f.topology.mirrors[t]|
    ensures EdgeHistory(Delivered(f, s), h, t, k)
  {
    var g, sending := Delivered(f, s), f.sending[s];
    var port, other := f.topology.mirrors[s][sending.mirror], f.topology.mirrors[t][k];
    assert EdgeHistory(f, h, t, k) && EdgeHistory(f, h, s, sending.mirror) && SendingInv(f, s);
    assert f.topology.ValidMirror(s, port) && f.topology.ValidMirror(t, other);
    if !g.nodes[other.node].failed {
      if other == port {
        ReachedEdge(f, h, s);
        assert t == s && k == sending.mirror;
      } else if t == s {
        OthersWait(PortAt(f, other), sending, f.managers[s], h[s], k, |f.topology.mirrors[s]|);
      }
    }
  }

  lemma {:induction false} DeliverKeepsHistory(f: Flow, h: Sent, s: nat)
    requires HistoryInv(f, h) && FlowEnabled(f, Deliver(s))
    ensures HistoryInv(Delivered(f, s), h)
  {
    var g := Delivered(f, s);
    FlowStepKeeps(f, Deliver(s));
    forall t, k | 0 <= t < |g.managers| && 0 <= k < |g.topology.mirrors[t]|
      ensures EdgeHistory(g, h, t, k)
    {
      DeliveredEdge(f, h, s, t, k);
    }
  }

  // Steps of one node.

  /** A node's own step accepts nothing, leaves the bounds of its open streams, and
      closes a stream only once it is drained. */
  ghost predicate KeptOpen(x: Tracked, y: Tracked) {
    && y.accepted == x.accepted
    && (!y.stream.closed ==> !x.stream.closed && y.stream.bound == x.stream.bound)
    && (y.stream.closed && !x.stream.closed ==> x.stream.bound >= ONE_OVER_POST_STREAM)
  }

  lemma {:induction false} FilledKeptOpen(v: Node)
    requires StreamsInv(v) && DrainInv(v) && FillInv(v) && SelectInv(v)
    requires v.loops != [] && v.loops[0].Filling? && |v.loops[0].row| < |v.streams|
    ensures var i, t := |v.loops[0].row|, v.loops[0].t;
            Legal(v.streams[i].stream, Op.Pop(t)) && KeptOpen(v.streams[i], Apply(v.streams[i], Op.Pop(t)))
  {
    var i, t := |v.loops[0].row|, v.loops[0].t;
    FillOnePop(v);
    assert FillingAt(v, t, v.loops[0].row) && SettledAt(v.streams[i].stream, t);
    PopLeavesLater(v.streams[i], t);
  }

  lemma {:induction false} ShutKeepsOpen(v: Node, i: nat, p: nat)
    requires DrainInv(v) && TaskInv(v) && Enabled(v, ShutInput(i)) && p < |v.streams|
    ensures KeptOpen(v.streams[p], Take(v, ShutInput(i)).streams[p])
  {
    assert v.closePrepared && Done(v.streams[p].stream);
  }

  lemma {:induction false} FilledKeepsOpen(v: Node, p: nat)
    requires NodeInv(v) && Enabled(v, FillOne(0)) && p < |v.streams|
    ensures |Filled(v, 0).streams| == |v.streams| && KeptOpen(v.streams[p], Filled(v, 0).streams[p])
  {
    FilledKeptOpen(v);
  }

  lemma {:induction false} StepKeepsOpen(v: Node, step: Step, p: nat)
    requires NodeInv(v) && Enabled(v, step) && !step.Produce? && p < |v.streams|
    ensures |Take(v, step).streams| == |v.streams| && KeptOpen(v.streams[p], Take(v, step).streams[p])
  {
    if step.FillOne? {
      assert step.k == 0;
      FilledKeepsOpen(v, p);
    } else if step.ShutInput? {
      ShutKeepsOpen(v, step.i, p);
    }
  }

  lemma {:induction false} KeptHistoryAt(x: Tracked, y: Tracked, sending: Out.Sending, m: Manager,
        sent: seq<Packet>, k: nat)
    requires HistoryAt(x, sending, m, sent, k) && KeptOpen(x, y)
    ensures HistoryAt(y, sending, m, sent, k)
  {
  }

  lemma {:induction false} InnerEdge(f: Flow, h: Sent, n: nat, step: Step, t: nat, k: nat)
    requires HistoryInv(f, h) && FlowEnabled(f, Inner(n, step))
    requires t < |f.managers| && k < |f.topology.mirrors[t]|
    ensures EdgeHistory(f.(nodes := f.nodes[n := Take(f.nodes[n], step)]), h, t, k)
  {
    var port := f.topology.mirrors[t][k];
    assert EdgeHistory(f, h, t, k) && NodeGood(f, n);
    if port.node == n {
      StepKeepsOpen(f.nodes[n], step, port.input);
      if f.nodes[n].failed {
        FailureStays(f.nodes[n], step);
      } else {
        KeptHistoryAt(
          PortAt(f, port), Take(f.nodes[n], step).streams[port.input], f.sending[t], f.managers[t], h[t], k);
      }
    }
  }

  lemma {:induction false} InnerKeepsHistory(f: Flow, h: Sent, n: nat, step: Step)
    requires HistoryInv(f, h) && FlowEnabled(f, Inner(n, step))
    ensures HistoryInv(FlowTake(f, Inner(n, step)), h)
  {
    var g := FlowTake(f, Inner(n, step));
    FlowStepKeeps(f, Inner(n, step));
    forall t, k | 0 <= t < |g.managers| && 0 <= k < |g.topology.mirrors[t]|
      ensures EdgeHistory(g, h, t, k)
    {
      InnerEdge(f, h, n, step, t, k);
    }
  }

  lemma {:induction false} StepKeepsHistory(f: Flow, h: Sent, step: FlowStep)
    requires HistoryInv(f, h) && FlowEnabled(f, step) && OrderlyStep(f, step)
    ensures HistoryInv(FlowTake(f, step), SentAfter(f, h, step))
  {
    if Says(step) {
      SayingKeeps(f, h, step);
    } else if step.Deliver? {
      DeliverKeepsHistory(f, h, step.s);
    } else {
      InnerKeepsHistory(f, h, step.n, step.step);
    }
  }

  // ---------------------------------------------------------------- runs

  ghost predicate OrderlyRun(run: seq<Flow>, steps: seq<FlowStep>) {
    IsFlowRun(run, steps) && forall i :: 0 <= i < |steps| ==> OrderlyStep(run[i], steps[i])
  }

  /** What every stream's producer has sent in the first `i` steps. */
  ghost function History(run: seq<Flow>, steps: seq<FlowStep>, i: nat): (h: Sent)
    requires OrderlyRun(run, steps) && i < |run|
    ensures |h| == |run[i].managers|
  {
    if i == 0 then seq(|run[0].managers|, _ => [])
    else
      FlowRunsHold(run, steps, i - 1);
      SentAfter(run[i - 1], History(run, steps, i - 1), steps[i - 1])
  }

  lemma {:induction false} HistoriesHold(run: seq<Flow>, steps: seq<FlowStep>, i: nat)
    requires OrderlyRun(run, steps) && i < |run|
    ensures HistoryInv(run[i], History(run, steps, i))
  {
    if i == 0 {
      FlowInitHolds(run[0]);
      var f, h := run[0], History(run, steps, 0);
      forall s, k | 0 <= s < |f.managers| && 0 <= k < |f.topology.mirrors[s]|
        ensures EdgeHistory(f, h, s, k)
      {
        var port := f.topology.mirrors[s][k];
        assert f.topology.ValidMirror(s, port) && Init(f.nodes[port.node]);
      }
    } else {
      HistoriesHold(run, steps, i - 1);
      StepKeepsHistory(run[i - 1], History(run, steps, i - 1), steps[i - 1]);
    }
  }

  // -------------------------------------------------- the same every time

  /** A run that has come to its end: the graph inputs are closed, everything is at
      rest, and nothing went wrong. */
  ghost predicate Complete(run: seq<Flow>, steps: seq<FlowStep>) {
    && OrderlyRun(run, steps)
    && (var f := run[|run| - 1];
        && FlowQuiescent(f) && f.topology.graphInputs <= |f.managers|
        && (forall s :: 0 <= s < f.topology.graphInputs ==> f.managers[s].bound == DONE))
  }

  function Final<T>(run: seq<T>): T
    requires run != []
  {
    run[|run| - 1]
  }

  ghost function Total(run: seq<Flow>, steps: seq<FlowStep>): Sent
    requires OrderlyRun(run, steps)
  {
    History(run, steps, |run| - 1)
  }

  type Calculators = (nat, nat, seq<InputSet>) -> seq<Packet>

  /** Each calculator put out on each output what it makes of the input sets that
      carry a packet; without timestamp-bound processing these are all. */
  ghost predicate Computed(run: seq<Flow>, steps: seq<FlowStep>, calculators: Calculators)
    requires OrderlyRun(run, steps)
  {
    var f, h := Final(run), Total(run, steps);
    forall n: nat, o: nat :: HasOutput(f, n, o) && f.topology.outs[n][o] < |h| ==>
      h[f.topology.outs[n][o]] == calculators(n, o, Carried(f.nodes[n].log))
  }

  lemma {:induction false} AcceptedAtRest(f: Flow, h: Sent, n: nat, p: nat)
    requires HistoryInv(f, h) && FlowQuiescent(f) && n < |f.nodes| && p < |f.topology.ins[n]|
    ensures p < |f.nodes[n].streams| && f.topology.ins[n][p] < |h|
    ensures f.nodes[n].streams[p].accepted == h[f.topology.ins[n][p]]
  {
    var s := f.topology.ins[n][p];
    assert NodeGood(f, n) && Port(n, p) in f.topology.mirrors[s];
    var k :| 0 <= k < |f.topology.mirrors[s]| && f.topology.mirrors[s][k] == Port(n, p);
    assert EdgeHistory(f, h, s, k);
  }

  /** At the end an input has accepted exactly what its stream's producer sent. */
  lemma {:induction false} AcceptedIsSent(run: seq<Flow>, steps: seq<FlowStep>, n: nat, p: nat)
    requires Complete(run, steps) && n < |Final(run).nodes| && n < |Final(run).topology.ins|
    requires p < |Final(run).topology.ins[n]|
    ensures p < |Final(run).nodes[n].streams| && Final(run).topology.ins[n][p] < |Total(run, steps)|
    ensures Final(run).nodes[n].streams[p].accepted == Total(run, steps)[Final(run).topology.ins[n][p]]
  {
    HistoriesHold(run, steps, |run| - 1);
    AcceptedAtRest(Final(run), Total(run, steps), n, p);
  }

  lemma {:induction false} FinalLog(run: seq<Flow>, steps: seq<FlowStep>, n: nat)
    requires Complete(run, steps) && n < |Final(run).nodes|
    ensures var v := Final(run).nodes[n]; Ordered(AcceptedAll(v)) && Carried(v.log) == Merge(AcceptedAll(v))
    ensures !Final(run).nodes[n].processTimestamps ==> Carried(Final(run).nodes[n].log) == Final(run).nodes[n].log
  {
    FlowRunsHold(run, steps, |run| - 1);
    EverythingCloses(run, steps, |run| - 1);
    assert NodeGood(Final(run), n);
    DrainedLog(Final(run).nodes[n]);
  }

  lemma {:induction false} FinalIsGood(run: seq<Flow>, steps: seq<FlowStep>)
    requires Complete(run, steps)
    ensures FlowInv(Final(run)) && |Total(run, steps)| == |Final(run).managers|
  {
    FlowRunsHold(run, steps, |run| - 1);
  }

  /** Two complete runs of the same graph. */
  ghost predicate Comparable(run: seq<Flow>, steps: seq<FlowStep>, run': seq<Flow>, steps': seq<FlowStep>,
        calculators: Calculators) {
    && Complete(run, steps) && Complete(run', steps') && Final(run).topology == Final(run').topology
    && |Final(run).nodes| == |Final(run').nodes| && |Total(run, steps)| == |Total(run', steps')|
    && Computed(run, steps, calculators) && Computed(run', steps', calculators)
  }

  /** What a node has accepted is what it was sent. */
  lemma {:induction false} SameAccepted(
    run: seq<Flow>, steps: seq<FlowStep>, run': seq<Flow>, steps': seq<FlowStep>, n: nat, p: nat)
    requires Complete(run, steps) && Complete(run', steps') && Final(run).topology == Final(run').topology
    requires n < |Final(run).nodes| == |Final(run').nodes| == |Final(run).topology.ins|
    requires p < |Final(run).topology.ins[n]| && Final(run).topology.ins[n][p] < |Total(run, steps)|
    requires Final(run).topology.ins[n][p] < |Total(run', steps')|
    requires Total(run, steps)[Final(run).topology.ins[n][p]] == Total(run', steps')[Final(run).topology.ins[n][p]]
    ensures p < |Final(run).nodes[n].streams| && p < |Final(run').nodes[n].streams|
    ensures Final(run).nodes[n].streams[p].accepted == Final(run').nodes[n].streams[p].accepted
  {
    AcceptedIsSent(run, steps, n, p);
    AcceptedIsSent(run', steps', n, p);
  }

  lemma {:induction false} FinalInputs(run: seq<Flow>, steps: seq<FlowStep>, n: nat)
    requires Complete(run, steps) && n < |Final(run).nodes|
    ensures n < |Final(run).topology.ins| && |Final(run).nodes[n].streams| == |Final(run).topology.ins[n]|
  {
    FinalIsGood(run, steps);
    assert NodeGood(Final(run), n);
  }

  /** A node that was sent the same processed the same. */
  lemma {:induction false} SameNode(
    run: seq<Flow>, steps: seq<FlowStep>, run': seq<Flow>, steps': seq<FlowStep>, calculators: Calculators, n: nat)
    requires Comparable(run, steps, run', steps', calculators) && n < |Final(run).nodes| == |Final(run).topology.ins|
    requires forall p :: 0 <= p < |Final(run).topology.ins[n]| ==>
               && Final(run).topology.ins[n][p] < |Total(run, steps)|
               && Total(run, steps)[Final(run).topology.ins[n][p]] == Total(run', steps')[Final(run).topology.ins[n][p]]
    ensures Carried(Final(run).nodes[n].log) == Carried(Final(run').nodes[n].log)
    ensures !Final(run).nodes[n].processTimestamps && !Final(run').nodes[n].processTimestamps ==>
              Final(run).nodes[n].log == Final(run').nodes[n].log
  {
    FinalInputs(run, steps, n);
    FinalInputs(run', steps', n);
    var v, w := Final(run).nodes[n], Final(run').nodes[n];
    forall p | 0 <= p < |v.streams|
      ensures v.streams[p].accepted == w.streams[p].accepted
    {
      SameAccepted(run, steps, run', steps', n, p);
    }
    assert AcceptedAll(v) == AcceptedAll(w);
    FinalLog(run, steps, n);
    FinalLog(run', steps', n);
  }

  lemma {:induction false} SameOutput(
    run: seq<Flow>, steps: seq<FlowStep>, run': seq<Flow>, steps': seq<FlowStep>, calculators: Calculators,
    n: nat, o: nat)
    requires Comparable(run, steps, run', steps', calculators) && HasOutput(Final(run), n, o)
    requires Carried(Final(run).nodes[n].log) == Carried(Final(run').nodes[n].log)
    requires Final(run).topology.outs[n][o] < |Total(run, steps)|
    ensures Total(run, steps)[Final(run).topology.outs[n][o]] == Total(run', steps')[Final(run).topology.outs[n][o]]
  {
    assert HasOutput(Final(run'), n, o);
  }

  lemma {:induction false} SameStream(
    run: seq<Flow>, steps: seq<FlowStep>, run': seq<Flow>, steps': seq<FlowStep>, calculators: Calculators, s: nat)
    requires Comparable(run, steps, run', steps', calculators) && s < |Total(run, steps)|
    requires forall g :: 0 <= g < Final(run).topology.graphInputs && g < |Total(run, steps)| ==>
               Total(run, steps)[g] == Total(run', steps')[g]
    ensures Total(run, steps)[s] == Total(run', steps')[s]
    decreases s
  {
    FinalIsGood(run, steps);
    var t := Final(run).topology;
    if s < t.graphInputs {
    } else {
      var n := t.owner[s];
      var o :| 0 <= o < |t.outs[n]| && t.outs[n][o] == s;
      forall p | 0 <= p < |t.ins[n]|
        ensures t.ins[n][p] < |Total(run, steps)| && Total(run, steps)[t.ins[n][p]] == Total(run', steps')[t.ins[n][p]]
      {
        SameStream(run, steps, run', steps', calculators, t.ins[n][p]);
      }
      SameNode(run, steps, run', steps', calculators, n);
      SameOutput(run, steps, run', steps', calculators, n, o);
    }
  }

  /** Determinism of a whole graph. If every calculator is a function of the sets it is
      given that carry a packet, two complete runs with the same packets on the graph
      inputs carry the same packets on every stream and give every node the same such
      sets, however their threads were interleaved; a node without timestamp-bound
      processing is given no others. */
  lemma {:induction false} SameInputsSameRun(
    run: seq<Flow>, steps: seq<FlowStep>, run': seq<Flow>, steps': seq<FlowStep>, calculators: Calculators)
    requires Comparable(run, steps, run', steps', calculators)
    requires forall g :: 0 <= g < Final(run).topology.graphInputs && g < |Total(run, steps)| ==>
               Total(run, steps)[g] == Total(run', steps')[g]
    ensures Total(run, steps) == Total(run', steps')
    ensures forall n :: 0 <= n < |Final(run).nodes| ==>
              Carried(Final(run).nodes[n].log) == Carried(Final(run').nodes[n].log)
    ensures forall n :: 0 <= n < |Final(run).nodes|
                        && !Final(run).nodes[n].processTimestamps && !Final(run').nodes[n].processTimestamps ==>
              Final(run).nodes[n].log == Final(run').nodes[n].log
  {
    FinalIsGood(run, steps);
    var t := Final(run).topology;
    forall s | 0 <= s < |Total(run, steps)|
      ensures Total(run, steps)[s] == Total(run', steps')[s]
    {
      SameStream(run, steps, run', steps', calculators, s);
    }
    forall n | 0 <= n < |Final(run).nodes|
      ensures Carried(Final(run).nodes[n].log) == Carried(Final(run').nodes[n].log)
      ensures !Final(run).nodes[n].processTimestamps && !Final(run').nodes[n].processTimestamps ==>
                Final(run).nodes[n].log == Final(run').nodes[n].log
    {
      assert NodeGood(Final(run), n);
      SameNode(run, steps, run', steps', calculators, n);
    }
  }
}
