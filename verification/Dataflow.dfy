/** A graph of nodes without cycles. Every stream runs from one producer to the
    input ports that mirror it; a graph input, or an output of a source, has no
    node behind it here. Nodes have timestamp offset zero and one invocation at a
    time; nothing is throttled.

    Each node moves by the steps of `NodeRuns`. Its producers are the other nodes:
    what a node sends travels to one input port after another, and every one of
    those deliveries is a step of its own. */
module Dataflow {
  import opened Timestamps
  import opened InputStreams
  import opened NodeProtocol
  import opened NodeRuns
  import opened NodeInvariants
  import opened NodeWakeups
  import opened NodeTheorems
  import opened QuietNodes
  import Out = OutputStreams

  datatype Port = Port(node: nat, input: nat)

  /** Streams are numbered so that a node's inputs come before its outputs. The
      first `graphInputs` streams are fed from outside. */
  datatype Topology = Topology(
    graphInputs: nat,
    ins: seq<seq<nat>>,
    outs: seq<seq<nat>>,
    mirrors: seq<seq<Port>>,
    owner: seq<nat>)
  {
    predicate ValidMirror(s: nat, port: Port) {
      port.node < |ins| && port.input < |ins[port.node]| && ins[port.node][port.input] == s
    }

    ghost predicate Valid() {
      && |ins| == |outs| && |owner| == |mirrors| && graphInputs <= |mirrors|
      && (forall s, k :: 0 <= s < |mirrors| && 0 <= k < |mirrors[s]| ==> ValidMirror(s, mirrors[s][k]))
      && (forall s, k, l :: 0 <= s < |mirrors| && 0 <= k < l < |mirrors[s]| ==> mirrors[s][k] != mirrors[s][l])
      && (forall n, p :: 0 <= n < |ins| && 0 <= p < |ins[n]| ==>
            ins[n][p] < |mirrors| && Port(n, p) in mirrors[ins[n][p]])
      && (forall n, o :: 0 <= n < |outs| && 0 <= o < |outs[n]| ==>
            graphInputs <= outs[n][o] < |mirrors| && owner[outs[n][o]] == n)
      && (forall s :: graphInputs <= s < |mirrors| ==> owner[s] < |outs| && s in outs[owner[s]])
      && (forall n, p, o :: 0 <= n < |ins| && 0 <= p < |ins[n]| && 0 <= o < |outs[n]| ==> ins[n][p] < outs[n][o])
    }
  }

  /** The manager of a stream: its bound and whether it was closed. */
  datatype Manager = Manager(bound: Timestamp, closed: bool)

  datatype Flow = Flow(topology: Topology, nodes: seq<Node>, managers: seq<Manager>, sending: seq<Out.Sending>)

  datatype FlowStep =
    | Feed(s: nat, message: Out.Message, closing: bool)
    | Emit(n: nat, o: nat, message: Out.Message, closing: bool)
    | Raise(n: nat, o: nat, bound: Timestamp)
    | CloseOutput(n: nat, o: nat, packets: seq<Packet>)
    | Deliver(s: nat)
    | Inner(n: nat, step: Step)

  predicate Shaped(f: Flow) {
    && |f.nodes| == |f.topology.ins| == |f.topology.outs|
    && |f.managers| == |f.sending| == |f.topology.mirrors|
  }

  /** A manager sends one message at a time, on an open stream, and never a bound
      below the one it has: a consumer would take that for an error. */
  predicate Fits(f: Flow, s: nat, m: Out.Message) {
    && s < |f.managers| && s < |f.sending| && f.sending[s].Resting? && !f.managers[s].closed
    && (m.bound == UNSET ==> m.packets == [])
    && (m.bound == UNSET || m.bound >= f.managers[s].bound)
  }

  predicate HasOutput(f: Flow, n: nat, o: nat) {
    n < |f.nodes| && n < |f.topology.outs| && o < |f.topology.outs[n]|
  }

  predicate OutputsRest(f: Flow, n: nat) {
    n < |f.topology.outs| && forall o :: 0 <= o < |f.topology.outs[n]| ==>
      f.topology.outs[n][o] < |f.sending| && f.sending[f.topology.outs[n][o]].Resting?
  }

  /** A bound on the inputs that an open output has not been told. */
  predicate Due(m: Manager, bound: Timestamp) {
    IsRange(bound) && !m.closed && bound > m.bound
  }

  predicate AllTold(f: Flow, n: nat, bound: Timestamp) {
    n < |f.topology.outs| && forall o :: 0 <= o < |f.topology.outs[n]| ==>
      f.topology.outs[n][o] < |f.managers| && !Due(f.managers[f.topology.outs[n][o]], bound)
  }

  predicate AllClosed(f: Flow, n: nat) {
    n < |f.topology.outs| && forall o :: 0 <= o < |f.topology.outs[n]| ==>
      f.topology.outs[n][o] < |f.managers| && f.managers[f.topology.outs[n][o]].closed
  }

  /** Open runs before the node counts as open, Process while one is running. */
  predicate Talking(v: Node) {
    v.protocol.status == Prepared || exists k :: 0 <= k < |v.running| && v.running[k].Process?
  }

  /** A critical section of the node itself. The scheduling loop goes on once every
      output has been told; an invocation ends once what it put out has arrived. */
  predicate InnerEnabled(f: Flow, n: nat, step: Step) {
    && n < |f.nodes| && !step.Produce? && Enabled(f.nodes[n], step)
    && (step.Open? || step.End? || step.Propagated? || step.SetClosed? ==> OutputsRest(f, n))
    && (step.Propagated? ==>
          step.k < |f.nodes[n].loops| && f.nodes[n].loops[step.k].Propagating?
          && AllTold(f, n, f.nodes[n].loops[step.k].bound))
    && (step.SetClosed? ==> AllClosed(f, n))
  }

  predicate FlowEnabled(f: Flow, step: FlowStep) {
    match step
    case Feed(s, m, closing) => s < f.topology.graphInputs && Fits(f, s, m) && (closing ==> m.bound == DONE)
    case Emit(n, o, m, closing) =>
      && HasOutput(f, n, o) && Fits(f, f.topology.outs[n][o], m) && (closing ==> m.bound == DONE)
      && Talking(f.nodes[n])
    case Raise(n, o, bound) =>
      && HasOutput(f, n, o) && Fits(f, f.topology.outs[n][o], Out.Message([], bound))
      && f.nodes[n].loops != [] && f.nodes[n].loops[0] == Propagating(bound)
      && Due(f.managers[f.topology.outs[n][o]], bound)
    case CloseOutput(n, o, packets) =>
      && HasOutput(f, n, o) && Fits(f, f.topology.outs[n][o], Out.Message(packets, DONE))
      && CloseNode in f.nodes[n].running && f.nodes[n].protocol.status != Closed
    case Deliver(s) =>
      && s < |f.sending| && s < |f.topology.mirrors| && f.sending[s].Serving?
      && f.sending[s].mirror < |f.topology.mirrors[s]|
      && (var port := f.topology.mirrors[s][f.sending[s].mirror];
          port.node < |f.nodes| && port.input < |f.nodes[port.node].streams|)
    case Inner(n, step) => InnerEnabled(f, n, step)
  }

  /** A manager takes on a message; `closing` also closes it. */
  function Said(f: Flow, s: nat, m: Out.Message, closing: bool): (g: Flow)
    requires s < |f.managers| && s < |f.sending| && s < |f.topology.mirrors|
    ensures g.nodes == f.nodes && g.topology == f.topology
    ensures |g.managers| == |f.managers| && |g.sending| == |f.sending|
  {
    var bound := if m.bound == UNSET then f.managers[s].bound else m.bound;
    f.(managers := f.managers[s := Manager(bound, f.managers[s].closed || closing)],
       sending := f.sending[s := Out.Start(m, |f.topology.mirrors[s]|)])
  }

  function Delivered(f: Flow, s: nat): Flow
    requires FlowEnabled(f, Deliver(s))
  {
    var sending := f.sending[s];
    var port := f.topology.mirrors[s][sending.mirror];
    var op := Out.NextOp(sending.message, sending.added);
    f.(nodes := f.nodes[port.node := Take(f.nodes[port.node], Produce(port.input, op))],
       sending := f.sending[s := Out.Proceed(sending, |f.topology.mirrors[s]|)])
  }

  function FlowTake(f: Flow, step: FlowStep): Flow
    requires Shaped(f) && FlowEnabled(f, step)
  {
    match step
    case Feed(s, m, closing) => Said(f, s, m, closing)
    case Emit(n, o, m, closing) => Said(f, f.topology.outs[n][o], m, closing)
    case Raise(n, o, bound) => Said(f, f.topology.outs[n][o], Out.Message([], bound), false)
    case CloseOutput(n, o, packets) => Said(f, f.topology.outs[n][o], Out.Message(packets, DONE), true)
    case Deliver(s) => Delivered(f, s)
    case Inner(n, step) => f.(nodes := f.nodes[n := Take(f.nodes[n], step)])
  }

  ghost predicate FlowInit(f: Flow) {
    && f.topology.Valid() && Shaped(f)
    && (forall n :: 0 <= n < |f.nodes| ==>
          && Init(f.nodes[n]) && f.nodes[n].protocol.maxInFlight == 1
          && |f.nodes[n].streams| == |f.topology.ins[n]|)
    && (forall s :: 0 <= s < |f.managers| ==> f.managers[s] == Manager(PRE_STREAM, false))
    && (forall s :: 0 <= s < |f.sending| ==> f.sending[s] == Out.Resting)
  }

  // ------------------------------------------------------- what steps keep

  ghost predicate NodeGood(f: Flow, n: nat)
    requires n < |f.nodes| && n < |f.topology.ins|
  {
    NodeInv(f.nodes[n]) && LastInv(f.nodes[n]) && |f.nodes[n].streams| == |f.topology.ins[n]|
  }

  function StreamAt(f: Flow, port: Port): Stream
    requires port.node < |f.nodes| && port.input < |f.nodes[port.node].streams|
  {
    f.nodes[port.node].streams[port.input].stream
  }

  /** A consumer that has been served knows at least its producer's bound. */
  ghost predicate EdgeInv(f: Flow, s: nat, k: nat)
    requires s < |f.sending| && s < |f.managers| && s < |f.topology.mirrors| && k < |f.topology.mirrors[s]|
  {
    var port := f.topology.mirrors[s][k];
    && port.node < |f.nodes| && port.input < |f.nodes[port.node].streams|
    && (!f.nodes[port.node].failed && (f.sending[s].Resting? || k < f.sending[s].mirror) ==>
          StreamAt(f, port).bound >= f.managers[s].bound)
  }

  ghost predicate SendingInv(f: Flow, s: nat)
    requires s < |f.sending| && s < |f.managers| && s < |f.topology.mirrors|
  {
    && (f.managers[s].closed ==> f.managers[s].bound == DONE)
    && (f.sending[s].Serving? ==>
          && f.sending[s].mirror < |f.topology.mirrors[s]|
          && f.sending[s].message.bound != UNSET && f.sending[s].message.bound == f.managers[s].bound)
  }

  /** A node at rest has told its outputs what its last scan found; a closed node
      has closed them. */
  ghost predicate OutputInv(f: Flow, n: nat, o: nat)
    requires HasOutput(f, n, o) && f.topology.outs[n][o] < |f.managers|
  {
    var v, m := f.nodes[n], f.managers[f.topology.outs[n][o]];
    && (RestPoint(v) && Listening(v) ==> !Due(m, LastVerdict(v).timestamp))
    && (v.protocol.status == Closed ==> m.bound == DONE)
  }

  ghost predicate FlowInv(f: Flow) {
    && f.topology.Valid() && Shaped(f)
    && (forall n :: 0 <= n < |f.nodes| ==> NodeGood(f, n))
    && (forall s :: 0 <= s < |f.managers| ==> SendingInv(f, s))
    && (forall s, k :: 0 <= s < |f.managers| && 0 <= k < |f.topology.mirrors[s]| ==> EdgeInv(f, s, k))
    && (forall n, o :: 0 <= n < |f.nodes| && 0 <= o < |f.topology.outs[n]| ==> OutputInv(f, n, o))
  }

  lemma {:induction false} SayKeepsOutputs(f: Flow, s: nat, m: Out.Message, closing: bool)
    requires FlowInv(f) && Fits(f, s, m) && (closing ==> m.bound == DONE)
    ensures var g := Said(f, s, m, closing);
            forall n, o :: 0 <= n < |g.nodes| && 0 <= o < |g.topology.outs[n]| ==> OutputInv(g, n, o)
  {
    var g := Said(f, s, m, closing);
    forall n, o | 0 <= n < |g.nodes| && 0 <= o < |g.topology.outs[n]|
      ensures OutputInv(g, n, o)
    {
      assert OutputInv(f, n, o);
      assert g.managers[g.topology.outs[n][o]].bound >= f.managers[f.topology.outs[n][o]].bound;
    }
  }

  /** Sending raises a bound that no consumer has seen yet, and starts with the
      first consumer. */
  lemma {:induction false} SaidEdge(f: Flow, s: nat, m: Out.Message, closing: bool, t: nat, k: nat)
    requires FlowInv(f) && Fits(f, s, m) && (closing ==> m.bound == DONE)
    requires t < |f.managers| && k < |f.topology.mirrors[t]|
    ensures EdgeInv(Said(f, s, m, closing), t, k)
  {
    assert EdgeInv(f, t, k);
  }

  lemma {:induction false} SayKeeps(f: Flow, s: nat, m: Out.Message, closing: bool)
    requires FlowInv(f) && Fits(f, s, m) && (closing ==> m.bound == DONE)
    ensures FlowInv(Said(f, s, m, closing))
  {
    var g := Said(f, s, m, closing);
    SayKeepsOutputs(f, s, m, closing);
    forall n | 0 <= n < |g.nodes|
      ensures NodeGood(g, n)
    {
      assert NodeGood(f, n);
    }
    forall t | 0 <= t < |g.managers|
      ensures SendingInv(g, t)
    {
      assert SendingInv(f, t);
    }
    forall t, k | 0 <= t < |g.managers| && 0 <= k < |g.topology.mirrors[t]|
      ensures EdgeInv(g, t, k)
    {
      SaidEdge(f, s, m, closing, t, k);
    }
  }

  // ------------------------------------------------- steps of one node

  /** What a node's own step means to the streams around it. */
  ghost predicate Moved(v: Node, w: Node) {
    && NodeInv(w) && LastInv(w) && |w.streams| == |v.streams| && (v.failed ==> w.failed)
    && (forall p :: 0 <= p < |v.streams| ==> w.streams[p].stream.bound >= v.streams[p].stream.bound)
  }

  lemma {:induction false} NodeMoves(v: Node, step: Step)
    requires NodeInv(v) && LastInv(v) && Enabled(v, step)
    ensures Moved(v, Take(v, step))
  {
    StepHolds(v, step);
    LastStep(v, step);
    StepIsLater(v, step);
    if v.failed {
      FailureStays(v, step);
    }
    forall p | 0 <= p < |v.streams|
      ensures Take(v, step).streams[p].stream.bound >= v.streams[p].stream.bound
    {
      assert Grew(v.streams[p], Take(v, step).streams[p]);
    }
  }

  lemma {:induction false} ClosedBySetClosed(v: Node, step: Step)
    requires ThreadInv(v) && Enabled(v, step) && v.protocol.status != Closed && !step.SetClosed?
    ensures Take(v, step).protocol.status != Closed
  {
    if step.Decide? {
      assert step.k == 0;
      RuledFrame(v, step.active, VerdictOf(v, 0));
    } else if step.Submit? {
      assert Submitted(v, step.k).protocol.status == v.protocol.status;
    } else if step.FillOne? {
      assert Filled(v, step.k).protocol == v.protocol;
    }
  }

  lemma {:induction false} RestIsTold(v: Node, step: Step, m: Manager)
    requires NodeInv(v) && Enabled(v, step)
    requires RestPoint(v) && Listening(v) ==> !Due(m, LastVerdict(v).timestamp)
    requires step.Propagated? ==> !Due(m, v.loops[step.k].bound)
    ensures var w := Take(v, step); RestPoint(w) && Listening(w) ==> !Due(m, LastVerdict(w).timestamp)
  {
    var w := Take(v, step);
    if RestPoint(w) && Listening(w) {
      if step.Propagated? {
        PlainFrame(v, step);
        assert step.k == 0 && v.loops[0].bound == LastVerdict(v).timestamp;
      } else {
        RestComesFromPropagating(v, step);
      }
    }
  }

  lemma {:induction false} MovedEdge(f: Flow, n: nat, w: Node, s: nat, k: nat)
    requires Shaped(f) && n < |f.nodes| && Moved(f.nodes[n], w)
    requires s < |f.managers| && k < |f.topology.mirrors[s]| && EdgeInv(f, s, k)
    ensures EdgeInv(f.(nodes := f.nodes[n := w]), s, k)
  {
  }

  lemma {:induction false} InnerOutput(f: Flow, n: nat, step: Step, o: nat)
    requires FlowInv(f) && FlowEnabled(f, Inner(n, step)) && o < |f.topology.outs[n]|
    ensures OutputInv(FlowTake(f, Inner(n, step)), n, o)
  {
    var m := f.managers[f.topology.outs[n][o]];
    assert NodeGood(f, n) && OutputInv(f, n, o);
    RestIsTold(f.nodes[n], step, m);
    assert m.closed ==> m.bound == DONE by { assert SendingInv(f, f.topology.outs[n][o]); }
    if f.nodes[n].protocol.status != Closed && !step.SetClosed? {
      ClosedBySetClosed(f.nodes[n], step);
    }
    if f.nodes[n].protocol.status == Closed {
      assert m.bound == DONE;
    }
  }

  lemma {:induction false} InnerOutputs(f: Flow, n: nat, step: Step)
    requires FlowInv(f) && FlowEnabled(f, Inner(n, step))
    ensures var g := FlowTake(f, Inner(n, step));
            forall i, o :: 0 <= i < |g.nodes| && 0 <= o < |g.topology.outs[i]| ==> OutputInv(g, i, o)
  {
    var g := FlowTake(f, Inner(n, step));
    forall i, o | 0 <= i < |g.nodes| && 0 <= o < |g.topology.outs[i]|
      ensures OutputInv(g, i, o)
    {
      assert OutputInv(f, i, o);
      if i == n {
        InnerOutput(f, n, step, o);
      }
    }
  }

  lemma {:induction false} InnerKeeps(f: Flow, n: nat, step: Step)
    requires FlowInv(f) && FlowEnabled(f, Inner(n, step))
    ensures FlowInv(FlowTake(f, Inner(n, step)))
  {
    assert NodeGood(f, n);
    NodeMoves(f.nodes[n], step);
    NodeMovedKeeps(f, n, Take(f.nodes[n], step));
    InnerOutputs(f, n, step);
  }

  /** Everything but the outputs of the node itself. */
  lemma {:induction false} NodeMovedKeeps(f: Flow, n: nat, w: Node)
    requires FlowInv(f) && n < |f.nodes| && Moved(f.nodes[n], w)
    ensures var g := f.(nodes := f.nodes[n := w]);
            && (forall i :: 0 <= i < |g.nodes| ==> NodeGood(g, i))
            && (forall s :: 0 <= s < |g.managers| ==> SendingInv(g, s))
            && (forall s, k :: 0 <= s < |g.managers| && 0 <= k < |g.topology.mirrors[s]| ==> EdgeInv(g, s, k))
  {
    var g := f.(nodes := f.nodes[n := w]);
    forall i | 0 <= i < |g.nodes|
      ensures NodeGood(g, i)
    {
      assert NodeGood(f, i);
    }
    forall s | 0 <= s < |g.managers|
      ensures SendingInv(g, s)
    {
      assert SendingInv(f, s);
    }
    forall s, k | 0 <= s < |g.managers| && 0 <= k < |g.topology.mirrors[s]|
      ensures EdgeInv(g, s, k)
    {
      assert EdgeInv(f, s, k);
      MovedEdge(f, n, w, s, k);
    }
  }

  // -------------------------------------------------------- deliveries

  /** The last thing done to a consumer gives it the producer's bound, whether as
      a bound of its own or through the last packet. */
  lemma {:induction false} BoundArrives(x: Tracked, m: Out.Message, added: bool)
    requires Consistent(x) && m.bound != UNSET && Out.LastOp(m, added)
    requires Succeeds(x.stream, Out.NextOp(m, added))
    ensures Apply(x, Out.NextOp(m, added)).stream.bound >= m.bound
  {
    if m.packets != [] && !added && !x.stream.closed {
      PushAllAppends(x.stream, m.packets);
    }
  }

  lemma {:induction false} DeliverOutputs(f: Flow, s: nat)
    requires FlowInv(f) && FlowEnabled(f, Deliver(s))
    ensures var g := Delivered(f, s);
            forall i, o :: 0 <= i < |g.nodes| && 0 <= o < |g.topology.outs[i]| ==> OutputInv(g, i, o)
  {
    var g := Delivered(f, s);
    var port := f.topology.mirrors[s][f.sending[s].mirror];
    var n, step := port.node, Produce(port.input, Out.NextOp(f.sending[s].message, f.sending[s].added));
    forall i, o | 0 <= i < |g.nodes| && 0 <= o < |g.topology.outs[i]|
      ensures OutputInv(g, i, o)
    {
      assert OutputInv(f, i, o);
      if i == n {
        assert NodeGood(f, n);
        RestIsTold(f.nodes[n], step, f.managers[f.topology.outs[n][o]]);
        assert Take(f.nodes[n], step).protocol == f.nodes[n].protocol;
      }
    }
  }

  lemma {:induction false} DeliverEdge(f: Flow, s: nat)
    requires FlowInv(f) && FlowEnabled(f, Deliver(s))
    ensures EdgeInv(Delivered(f, s), s, f.sending[s].mirror)
  {
    var sending := f.sending[s];
    var port := f.topology.mirrors[s][sending.mirror];
    var v := f.nodes[port.node];
    assert SendingInv(f, s) && NodeGood(f, port.node);
    var op := Out.NextOp(sending.message, sending.added);
    if Out.LastOp(sending.message, sending.added) && Succeeds(v.streams[port.input].stream, op) {
      BoundArrives(v.streams[port.input], sending.message, sending.added);
    }
  }

  lemma {:induction false} DeliverKeeps(f: Flow, s: nat)
    requires FlowInv(f) && FlowEnabled(f, Deliver(s))
    ensures FlowInv(Delivered(f, s))
  {
    var g, sending := Delivered(f, s), f.sending[s];
    var port := f.topology.mirrors[s][sending.mirror];
    var n, step := port.node, Produce(port.input, Out.NextOp(sending.message, sending.added));
    assert NodeGood(f, n);
    NodeMoves(f.nodes[n], step);
    var h := f.(nodes := f.nodes[n := Take(f.nodes[n], step)]);
    NodeMovedKeeps(f, n, Take(f.nodes[n], step));
    DeliverOutputs(f, s);
    DeliverEdge(f, s);
    DeliveredRest(h, g, s, sending);
  }

  /** Serving the next consumer disturbs none of the others. */
  lemma {:induction false} DeliveredRest(h: Flow, g: Flow, s: nat, sending: Out.Sending)
    requires Shaped(h) && s < |h.sending| && h.sending[s] == sending && sending.Serving?
    requires g == h.(sending := h.sending[s := Out.Proceed(sending, |h.topology.mirrors[s]|)])
    requires forall i :: 0 <= i < |h.nodes| ==> NodeGood(h, i)
    requires forall t :: 0 <= t < |h.managers| ==> SendingInv(h, t)
    requires forall t, k :: 0 <= t < |h.managers| && 0 <= k < |h.topology.mirrors[t]| ==> EdgeInv(h, t, k)
    requires sending.mirror < |h.topology.mirrors[s]| && EdgeInv(g, s, sending.mirror)
    ensures forall i :: 0 <= i < |g.nodes| ==> NodeGood(g, i)
    ensures forall t :: 0 <= t < |g.managers| ==> SendingInv(g, t)
    ensures forall t, k :: 0 <= t < |g.managers| && 0 <= k < |g.topology.mirrors[t]| ==> EdgeInv(g, t, k)
  {
    forall i | 0 <= i < |g.nodes|
      ensures NodeGood(g, i)
    {
      assert NodeGood(h, i);
    }
    forall t | 0 <= t < |g.managers|
      ensures SendingInv(g, t)
    {
      assert SendingInv(h, t);
    }
    forall t, k | 0 <= t < |g.managers| && 0 <= k < |g.topology.mirrors[t]|
      ensures EdgeInv(g, t, k)
    {
      assert EdgeInv(h, t, k);
    }
  }

  lemma {:induction false} FlowStepKeeps(f: Flow, step: FlowStep)
    requires FlowInv(f) && FlowEnabled(f, step)
    ensures FlowInv(FlowTake(f, step))
  {
    match step
    case Feed(s, m, closing) => SayKeeps(f, s, m, closing);
    case Emit(n, o, m, closing) => SayKeeps(f, f.topology.outs[n][o], m, closing);
    case Raise(n, o, bound) => SayKeeps(f, f.topology.outs[n][o], Out.Message([], bound), false);
    case CloseOutput(n, o, packets) => SayKeeps(f, f.topology.outs[n][o], Out.Message(packets, DONE), true);
    case Deliver(s) => DeliverKeeps(f, s);
    case Inner(n, inner) => InnerKeeps(f, n, inner);
  }

  lemma {:induction false} FlowInitHolds(f: Flow)
    requires FlowInit(f)
    ensures FlowInv(f)
  {
    forall n | 0 <= n < |f.nodes|
      ensures NodeGood(f, n)
    {
      InitHolds(f.nodes[n]);
    }
    forall s, k | 0 <= s < |f.managers| && 0 <= k < |f.topology.mirrors[s]|
      ensures EdgeInv(f, s, k)
    {
      var port := f.topology.mirrors[s][k];
      assert f.topology.ValidMirror(s, port);
      assert Init(f.nodes[port.node]);
    }
    forall n, o | 0 <= n < |f.nodes| && 0 <= o < |f.topology.outs[n]|
      ensures OutputInv(f, n, o)
    {
      assert Init(f.nodes[n]);
    }
  }

  ghost predicate IsFlowRun(run: seq<Flow>, steps: seq<FlowStep>) {
    && |run| == |steps| + 1 && FlowInit(run[0])
    && (forall i :: 0 <= i < |steps| ==>
          Shaped(run[i]) && FlowEnabled(run[i], steps[i]) && run[i + 1] == FlowTake(run[i], steps[i]))
  }

  lemma {:induction false} FlowRunsHold(run: seq<Flow>, steps: seq<FlowStep>, i: nat)
    requires IsFlowRun(run, steps) && i < |run|
    ensures FlowInv(run[i])
  {
    if i == 0 {
      FlowInitHolds(run[0]);
    } else {
      FlowRunsHold(run, steps, i - 1);
      FlowStepKeeps(run[i - 1], steps[i - 1]);
    }
  }

  /** Nothing is under way: only a graph input could move the graph. */
  ghost predicate FlowQuiescent(f: Flow) {
    && (forall s :: 0 <= s < |f.sending| ==> f.sending[s].Resting?)
    && (forall n :: 0 <= n < |f.nodes| ==>
          && Quiescent(f.nodes[n]) && !f.nodes[n].failed
          && (f.nodes[n].protocol.status == Opened || f.nodes[n].protocol.status == Closed))
  }

  // ----------------------------------------------------------- no deadlock

  /** Steps that need neither a graph input nor a calculator. */
  predicate IsOwn(step: FlowStep) {
    !step.Feed? && !step.Emit?
  }

  lemma {:induction false} ServingMoves(f: Flow, s: nat)
    requires FlowInv(f) && s < |f.sending| && f.sending[s].Serving?
    ensures FlowEnabled(f, Deliver(s))
  {
    assert SendingInv(f, s) && EdgeInv(f, s, f.sending[s].mirror);
  }

  /** A node that is telling its outputs tells the next one, or is done. */
  lemma {:induction false} PropagatingMoves(f: Flow, n: nat) returns (step: FlowStep)
    requires FlowInv(f) && n < |f.nodes| && OutputsRest(f, n)
    requires f.nodes[n].loops != [] && f.nodes[n].loops[0].Propagating?
    ensures IsOwn(step) && FlowEnabled(f, step)
  {
    var bound := f.nodes[n].loops[0].bound;
    if AllTold(f, n, bound) {
      step := Inner(n, Propagated(0));
    } else {
      var o :| 0 <= o < |f.topology.outs[n]| && Due(f.managers[f.topology.outs[n][o]], bound);
      step := Raise(n, o, bound);
    }
  }

  /** The invocation that closes a node closes an input, an output, or is done. */
  lemma {:induction false} ClosingMoves(f: Flow, n: nat) returns (step: FlowStep)
    requires FlowInv(f) && n < |f.nodes| && OutputsRest(f, n)
    requires CloseNode in f.nodes[n].running && f.nodes[n].protocol.status != Closed
    ensures IsOwn(step) && FlowEnabled(f, step)
  {
    var v := f.nodes[n];
    if i :| 0 <= i < |v.streams| && !v.streams[i].stream.closed {
      step := Inner(n, ShutInput(i));
    } else if AllClosed(f, n) {
      step := Inner(n, SetClosed);
    } else {
      var o :| 0 <= o < |f.topology.outs[n]| && !f.managers[f.topology.outs[n][o]].closed;
      step := CloseOutput(n, o, []);
    }
  }

  /** The thread in a node's scheduling loop can always go on. */
  lemma {:induction false} LoopMoves(f: Flow, n: nat) returns (step: FlowStep)
    requires FlowInv(f) && n < |f.nodes| && OutputsRest(f, n)
    requires f.nodes[n].protocol.maxInFlight == 1 && f.nodes[n].loops != []
    ensures IsOwn(step) && FlowEnabled(f, step)
  {
    assert NodeGood(f, n);
    var v := f.nodes[n];
    match v.loops[0]
    case Entering => step := Inner(n, Enter(0));
    case Scanning(read, _) => step := Inner(n, if |read| < |v.streams| then Read(0) else Decide(0, false));
    case Filling(_, _, _) => step := Inner(n, FillOne(0));
    case Submitting(_, _) => step := Inner(n, Submit(0));
    case Propagating(_) => step := PropagatingMoves(f, n);
    case Leaving(_) => step := Inner(n, Leave(0));
  }

  lemma {:induction false} NodeMovesOn(f: Flow, n: nat) returns (step: FlowStep)
    requires FlowInv(f) && n < |f.nodes| && OutputsRest(f, n) && f.nodes[n].protocol.maxInFlight == 1
    requires !Quiescent(f.nodes[n]) || f.nodes[n].protocol.status == Prepared
    ensures IsOwn(step) && FlowEnabled(f, step)
  {
    var v := f.nodes[n];
    if v.protocol.status == Prepared {
      step := Inner(n, Step.Open);
    } else if v.checks > 0 {
      step := Inner(n, Check);
    } else if v.loops != [] {
      step := LoopMoves(f, n);
    } else if v.queued != [] {
      step := Inner(n, Begin(0));
    } else if v.running[0].CloseNode? && v.protocol.status != Closed {
      step := ClosingMoves(f, n);
    } else {
      step := Inner(n, End(0));
    }
  }

  lemma {:induction false} SameNodes(run: seq<Flow>, steps: seq<FlowStep>, i: nat)
    requires IsFlowRun(run, steps) && i < |steps|
    ensures |run[i + 1].nodes| == |run[i].nodes|
  {
    assert run[i + 1] == FlowTake(run[i], steps[i]);
  }

  lemma {:induction false} NextLimit(run: seq<Flow>, steps: seq<FlowStep>, i: nat, n: nat)
    requires IsFlowRun(run, steps) && i < |steps| && n < |run[i].nodes| && run[i].nodes[n].protocol.maxInFlight == 1
    ensures n < |run[i + 1].nodes| && run[i + 1].nodes[n].protocol.maxInFlight == 1
  {
    FlowRunsHold(run, steps, i);
    NodeLimitStays(run[i], steps[i], n);
  }

  /** One invocation at a time, for good. */
  lemma {:induction false} LimitStays(run: seq<Flow>, steps: seq<FlowStep>, i: nat, n: nat)
    requires IsFlowRun(run, steps) && i < |run| && n < |run[i].nodes|
    ensures run[i].nodes[n].protocol.maxInFlight == 1
  {
    if i == 0 {
      assert Init(run[0].nodes[n]);
    } else {
      SameNodes(run, steps, i - 1);
      LimitStays(run, steps, i - 1, n);
      NextLimit(run, steps, i - 1, n);
    }
  }

  lemma {:induction false} NodeLimitStays(f: Flow, step: FlowStep, n: nat)
    requires FlowInv(f) && FlowEnabled(f, step) && n < |f.nodes| && f.nodes[n].protocol.maxInFlight == 1
    ensures |FlowTake(f, step).nodes| == |f.nodes|
    ensures FlowTake(f, step).nodes[n].protocol.maxInFlight == 1
  {
    if step.Inner? {
      assert NodeGood(f, step.n);
      KeepsLimit(f.nodes[step.n], step.step);
    }
  }

  lemma {:induction false} KeepsLimit(v: Node, step: Step)
    requires ThreadInv(v) && Enabled(v, step)
    ensures Take(v, step).protocol.maxInFlight == v.protocol.maxInFlight
  {
    if step.Decide? {
      assert step.k == 0;
      RuledFrame(v, step.active, VerdictOf(v, 0));
    } else if step.Submit? {
      SubmittedLimit(v, step.k);
    } else if step.FillOne? {
      assert Filled(v, step.k).protocol == v.protocol;
    }
  }

  lemma {:induction false} SubmittedLimit(v: Node, k: nat)
    requires k < |v.loops| && v.loops[k].Submitting?
    ensures Submitted(v, k).protocol.maxInFlight == v.protocol.maxInFlight
  {
  }

  /** No deadlock: as long as anything is under way, a delivery or a node can move;
      the graph comes to a stop only at rest. */
  lemma {:induction false} NeverStuck(run: seq<Flow>, steps: seq<FlowStep>, i: nat)
    requires IsFlowRun(run, steps) && i < |run|
    requires forall n :: 0 <= n < |run[i].nodes| ==> !run[i].nodes[n].failed
    ensures FlowQuiescent(run[i]) || exists step :: IsOwn(step) && FlowEnabled(run[i], step)
  {
    FlowRunsHold(run, steps, i);
    var f := run[i];
    if s :| 0 <= s < |f.sending| && f.sending[s].Serving? {
      ServingMoves(f, s);
      assert IsOwn(Deliver(s));
    } else if n :| 0 <= n < |f.nodes| && (!Quiescent(f.nodes[n]) || f.nodes[n].protocol.status == Prepared) {
      LimitStays(run, steps, i, n);
      var step := NodeMovesOn(f, n);
    } else {
      forall n | 0 <= n < |f.nodes|
        ensures Quiescent(f.nodes[n])
        ensures f.nodes[n].protocol.status == Opened || f.nodes[n].protocol.status == Closed
      {
        assert NodeGood(f, n) && ThreadInv(f.nodes[n]);
      }
      assert FlowQuiescent(f);
    }
  }

  // ------------------------------------------------------------ no stall

  /** No input stream was left with the bound that only a packet after the end can
      meet; nodes that process bounds have ordinary packets queued. */
  ghost predicate Ordinary(f: Flow) {
    forall n :: 0 <= n < |f.nodes| ==>
      && (forall p :: 0 <= p < |f.nodes[n].streams| ==> f.nodes[n].streams[p].stream.bound != POST_STREAM)
      && (f.nodes[n].processTimestamps ==> HeadsAreRange(f.nodes[n]))
  }

  ghost predicate PortsAtLeast(f: Flow, n: nat, low: Timestamp)
    requires n < |f.nodes|
  {
    forall p :: 0 <= p < |f.nodes[n].streams| ==> f.nodes[n].streams[p].stream.bound >= low
  }

  lemma {:induction false} PortsFollow(f: Flow, n: nat, low: Timestamp)
    requires FlowInv(f) && FlowQuiescent(f) && n < |f.nodes|
    requires forall p :: 0 <= p < |f.topology.ins[n]| ==> f.managers[f.topology.ins[n][p]].bound >= low
    ensures PortsAtLeast(f, n, low)
  {
    assert NodeGood(f, n);
    forall p | 0 <= p < |f.nodes[n].streams|
      ensures f.nodes[n].streams[p].stream.bound >= low
    {
      var s := f.topology.ins[n][p];
      assert Port(n, p) in f.topology.mirrors[s];
      var k :| 0 <= k < |f.topology.mirrors[s]| && f.topology.mirrors[s][k] == Port(n, p);
      assert EdgeInv(f, s, k);
    }
  }

  lemma {:induction false} OutputFollows(f: Flow, n: nat, o: nat, low: Timestamp)
    requires FlowInv(f) && FlowQuiescent(f) && Ordinary(f) && IsRange(low)
    requires HasOutput(f, n, o) && PortsAtLeast(f, n, low)
    ensures f.managers[f.topology.outs[n][o]].bound >= low
  {
    assert NodeGood(f, n) && OutputInv(f, n, o);
    assert SendingInv(f, f.topology.outs[n][o]);
    var v := f.nodes[n];
    if v.protocol.status == Opened {
      QuietAtLeast(v, low);
      assert RestPoint(v) && Listening(v);
    }
  }

  /** Bounds travel down the graph in the order of the streams. */
  lemma {:induction false} StreamsFollow(f: Flow, low: Timestamp, s: nat)
    requires FlowInv(f) && FlowQuiescent(f) && Ordinary(f) && IsRange(low)
    requires forall i :: 0 <= i < f.topology.graphInputs ==> f.managers[i].bound >= low
    requires s < |f.managers|
    ensures f.managers[s].bound >= low
    decreases s
  {
    if s < f.topology.graphInputs {
    } else {
      var n := f.topology.owner[s];
      var o :| 0 <= o < |f.topology.outs[n]| && f.topology.outs[n][o] == s;
      forall p | 0 <= p < |f.topology.ins[n]|
        ensures f.managers[f.topology.ins[n][p]].bound >= low
      {
        StreamsFollow(f, low, f.topology.ins[n][p]);
      }
      PortsFollow(f, n, low);
      OutputFollows(f, n, o, low);
    }
  }

  lemma {:induction false} NodeKeepsNothingOlder(f: Flow, n: nat, low: Timestamp)
    requires FlowInv(f) && FlowQuiescent(f) && Ordinary(f) && IsRange(low)
    requires n < |f.nodes| && PortsAtLeast(f, n, low)
    ensures forall p, k :: 0 <= p < |f.nodes[n].streams| && 0 <= k < |f.nodes[n].streams[p].stream.queue| ==>
              f.nodes[n].streams[p].stream.queue[k].timestamp >= low
  {
    assert NodeGood(f, n);
    var v := f.nodes[n];
    if v.protocol.status == Opened {
      QuietAtLeast(v, low);
    } else {
      assert v.drained;
      assert forall p :: 0 <= p < |v.streams| ==> Done(v.streams[p].stream);
    }
  }

  /** No stall. In every quiescent state of every run, if every graph input has
      reached the ordinary timestamp `low`, then so has every stream and every
      input port, and no packet older than `low` waits anywhere. */
  lemma {:induction false} NoStall(run: seq<Flow>, steps: seq<FlowStep>, i: nat, low: Timestamp)
    requires IsFlowRun(run, steps) && i < |run|
    requires FlowQuiescent(run[i]) && Ordinary(run[i]) && IsRange(low)
    requires run[i].topology.graphInputs <= |run[i].managers|
    requires forall s :: 0 <= s < run[i].topology.graphInputs ==> run[i].managers[s].bound >= low
    ensures forall s :: 0 <= s < |run[i].managers| ==> run[i].managers[s].bound >= low
    ensures forall n, p :: 0 <= n < |run[i].nodes| && 0 <= p < |run[i].nodes[n].streams| ==>
              run[i].nodes[n].streams[p].stream.bound >= low
    ensures forall n, p, k :: 0 <= n < |run[i].nodes| && 0 <= p < |run[i].nodes[n].streams|
                              && 0 <= k < |run[i].nodes[n].streams[p].stream.queue| ==>
              run[i].nodes[n].streams[p].stream.queue[k].timestamp >= low
  {
    FlowRunsHold(run, steps, i);
    var f := run[i];
    forall s | 0 <= s < |f.managers|
      ensures f.managers[s].bound >= low
    {
      StreamsFollow(f, low, s);
    }
    forall n | 0 <= n < |f.nodes|
      ensures PortsAtLeast(f, n, low)
      ensures forall p, k :: 0 <= p < |f.nodes[n].streams| && 0 <= k < |f.nodes[n].streams[p].stream.queue| ==>
                f.nodes[n].streams[p].stream.queue[k].timestamp >= low
    {
      PortsFollow(f, n, low);
      NodeKeepsNothingOlder(f, n, low);
    }
  }

  // ------------------------------------------------------- the end of a run

  lemma {:induction false} StreamsEnd(f: Flow, s: nat)
    requires FlowInv(f) && FlowQuiescent(f)
    requires forall i :: 0 <= i < f.topology.graphInputs ==> f.managers[i].bound == DONE
    requires s < |f.managers|
    ensures f.managers[s].bound == DONE
    decreases s
  {
    if s < f.topology.graphInputs {
    } else {
      var n := f.topology.owner[s];
      var o :| 0 <= o < |f.topology.outs[n]| && f.topology.outs[n][o] == s;
      forall p | 0 <= p < |f.topology.ins[n]|
        ensures f.managers[f.topology.ins[n][p]].bound >= DONE
      {
        StreamsEnd(f, f.topology.ins[n][p]);
      }
      PortsFollow(f, n, DONE);
      assert NodeGood(f, n) && OutputInv(f, n, o);
      EndedIsNotQuiet(f.nodes[n]);
    }
  }

  /** Once every graph input is closed and the graph has come to rest, every node
      has closed, every stream has ended, and no packet is left behind. */
  lemma {:induction false} EverythingCloses(run: seq<Flow>, steps: seq<FlowStep>, i: nat)
    requires IsFlowRun(run, steps) && i < |run|
    requires FlowQuiescent(run[i]) && run[i].topology.graphInputs <= |run[i].managers|
    requires forall s :: 0 <= s < run[i].topology.graphInputs ==> run[i].managers[s].bound == DONE
    ensures forall n :: 0 <= n < |run[i].nodes| ==> run[i].nodes[n].protocol.status == Closed
    ensures forall s :: 0 <= s < |run[i].managers| ==> run[i].managers[s].bound == DONE
    ensures forall n, p :: 0 <= n < |run[i].nodes| && 0 <= p < |run[i].nodes[n].streams| ==>
              run[i].nodes[n].streams[p].stream.queue == []
  {
    FlowRunsHold(run, steps, i);
    var f := run[i];
    forall s | 0 <= s < |f.managers|
      ensures f.managers[s].bound == DONE
    {
      StreamsEnd(f, s);
    }
    forall n | 0 <= n < |f.nodes|
      ensures f.nodes[n].protocol.status == Closed
      ensures forall p :: 0 <= p < |f.nodes[n].streams| ==> f.nodes[n].streams[p].stream.queue == []
    {
      PortsFollow(f, n, DONE);
      assert NodeGood(f, n);
      EndedIsNotQuiet(f.nodes[n]);
      assert f.nodes[n].drained;
      assert forall p :: 0 <= p < |f.nodes[n].streams| ==> Done(f.nodes[n].streams[p].stream);
    }
  }
}
