/** What every step of a node keeps, group by group. */
module NodeInvariants {
  import opened Collections
  import opened Timestamps
  import opened InputStreams
  import opened SyncSets
  import opened NodeProtocol
  import opened NodeRuns

  // ------------------------------------- one scheduling thread, no over-commit

  ghost predicate ThreadInv(v: Node) {
    var p := v.protocol;
    && p.maxInFlight >= 1 && p.status != Active
    && |v.loops| == (if p.scheduling == Idle then 0 else 1)
    && |v.queued| + |v.running| <= p.inFlight <= p.maxInFlight
    && (p.status != Closed ==> |v.queued| + |v.running| == p.inFlight)
    && (p.status == Prepared ==> v.loops == [] && p.inFlight == 0 && !v.closePrepared)
    && (v.loops != [] ==> QuotaInv(v, v.loops[0]))
  }

  /** The invocations a thread may still schedule fit under the limit, and account
      for all the room there is unless another pass is already due. */
  predicate QuotaInv(v: Node, at: LoopPoint) {
    var p := v.protocol;
    match at
    case Entering => p.inFlight < p.maxInFlight
    case Scanning(_, quota) => Room(p, quota)
    case Filling(_, _, quota) => Room(p, quota)
    case Submitting(_, quota) => Room(p, quota)
    case Propagating(_) => true
    case Leaving(reason) =>
      match reason
      case Waiting => true
      case QuotaUsed => p.inFlight == p.maxInFlight || p.scheduling == SchedulingPending
      case Closing => v.closePrepared || p.inFlight > 0 || p.scheduling == SchedulingPending
  }

  predicate Room(p: Protocol, quota: nat) {
    && 1 <= quota && p.inFlight + quota <= p.maxInFlight
    && (p.inFlight + quota == p.maxInFlight || p.scheduling == SchedulingPending)
  }

  lemma {:induction false} RuledThread(v: Node, k: nat, active: bool, verdict: Verdict)
    requires ThreadInv(v) && k < |v.loops| && v.loops[k].Scanning?
    requires active ==> v.protocol.inFlight > 0
    ensures ThreadInv(Ruled(v, k, active, verdict))
  {
    assert k == 0;
  }

  lemma {:induction false} SubmittedThread(v: Node, k: nat)
    requires ThreadInv(v) && k < |v.loops| && v.loops[k].Submitting?
    ensures ThreadInv(Submitted(v, k)) && OnTryToBegin(v.protocol).enters
  {
    assert k == 0;
    var w := Submitted(v, k);
    assert w.loops == [w.loops[0]];
  }

  /** Filling one entry keeps the thread filling, or ready to hand over. */
  lemma {:induction false} FilledGoes(v: Node)
    requires v.loops != [] && v.loops[0].Filling? && |v.loops[0].row| < |v.streams|
    ensures var w := Filled(v, 0);
            && |w.loops| == |v.loops| && (w.loops[0].Filling? || w.loops[0].Submitting?)
            && (w.loops[0].Filling? ==> w.loops[0].quota == v.loops[0].quota)
            && (w.loops[0].Submitting? ==> w.loops[0].quota == v.loops[0].quota && w.loops[0].task.Process?)
  {
  }

  lemma {:induction false} FilledThread(v: Node, k: nat)
    requires ThreadInv(v) && k < |v.loops| && v.loops[k].Filling? && |v.loops[k].row| < |v.streams|
    ensures ThreadInv(Filled(v, k))
  {
    assert k == 0;
    FilledGoes(v);
  }

  predicate MovesThread(step: Step) {
    step.Check? || step.Enter? || step.Leave? || step.End?
  }

  lemma {:induction false} MovedThread(v: Node, step: Step)
    requires ThreadInv(v) && Enabled(v, step) && MovesThread(step)
    ensures ThreadInv(Take(v, step))
  {
  }

  lemma {:induction false} OtherThread(v: Node, step: Step)
    requires ThreadInv(v) && Enabled(v, step) && !MovesThread(step)
    requires !step.Decide? && !step.Submit? && !step.FillOne?
    ensures ThreadInv(Take(v, step))
  {
  }

  lemma {:induction false} ThreadStep(v: Node, step: Step)
    requires ThreadInv(v) && Enabled(v, step)
    ensures ThreadInv(Take(v, step))
  {
    if step.Decide? {
      RuledThread(v, step.k, step.active, VerdictOf(v, step.k));
    } else if step.Submit? {
      SubmittedThread(v, step.k);
    } else if step.FillOne? {
      FilledThread(v, step.k);
    } else if MovesThread(step) {
      MovedThread(v, step);
    } else {
      OtherThread(v, step);
    }
  }

  // ------------------------------------------------- streams and the scan

  ghost predicate StreamsInv(v: Node) {
    forall i :: 0 <= i < |v.streams| ==> Consistent(v.streams[i])
  }

  /** An observation still tells a lower limit on everything a stream can deliver:
      its first packet stays, and an empty stream's bound holds. */
  ghost predicate Witness(s: Stream, o: Observation) {
    if o.empty then
      && s.bound >= o.timestamp
      && (forall i :: 0 <= i < |s.queue| ==> s.queue[i].timestamp >= o.timestamp)
    else HeadAt(s, o.timestamp)
  }

  ghost predicate ScanInv(v: Node) {
    v.loops != [] && v.loops[0].Scanning? ==>
      var read := v.loops[0].read;
      && |read| <= |v.streams|
      && (forall i :: 0 <= i < |read| ==> Witness(v.streams[i].stream, read[i]))
  }

  /** What a set of witnesses implies, once the scan has read every stream: all
      streams are settled at any timestamp up to the first queued packet and below
      every bound seen. */
  lemma {:induction false} WitnessesSettle(v: Node, read: seq<Observation>, t: Timestamp)
    requires |read| == |v.streams|
    requires forall i :: 0 <= i < |read| ==> Witness(v.streams[i].stream, read[i])
    requires StreamsInv(v)
    requires t <= MinimaOf(read).packet && t < MinimaOf(read).bound
    ensures forall i :: 0 <= i < |v.streams| ==> SettledAt(v.streams[i].stream, t)
  {
    forall i | 0 <= i < |v.streams|
      ensures SettledAt(v.streams[i].stream, t)
    {
      QueueInHistory(v.streams[i]);
      assert Witness(v.streams[i].stream, read[i]);
    }
  }

  predicate Done(s: Stream) {
    s.queue == [] && s.bound >= ONE_OVER_POST_STREAM
  }

  lemma {:induction false} WitnessEnds(x: Tracked, o: Observation)
    requires Consistent(x) && Witness(x.stream, o) && o.timestamp >= ONE_OVER_POST_STREAM
    ensures Done(x.stream)
  {
    HeadInHistory(x);
  }

  lemma {:induction false} WitnessesExhaust(v: Node, read: seq<Observation>)
    requires |read| == |v.streams|
    requires forall i :: 0 <= i < |read| ==> Witness(v.streams[i].stream, read[i])
    requires StreamsInv(v)
    requires MinimaOf(read).packet >= ONE_OVER_POST_STREAM && MinimaOf(read).bound >= ONE_OVER_POST_STREAM
    ensures forall i :: 0 <= i < |v.streams| ==> Done(v.streams[i].stream)
  {
    forall i | 0 <= i < |v.streams|
      ensures Done(v.streams[i].stream)
    {
      assert read[i].timestamp >= ONE_OVER_POST_STREAM;
      WitnessEnds(v.streams[i], read[i]);
    }
  }

  lemma {:induction false} ExtendedStream(x: Tracked, y: Tracked, o: Observation, t: Timestamp)
    requires Consistent(y) && Extends(x, y)
    ensures Witness(x.stream, o) ==> Witness(y.stream, o)
    ensures SettledAt(x.stream, t) ==> SettledAt(y.stream, t)
    ensures Done(x.stream) ==> Done(y.stream)
  {
    QueueInHistory(y);
    assert y.stream.queue != [] ==>
      if x.stream.queue != [] then y.stream.queue[0] == x.stream.queue[0]
      else y.stream.queue[0].timestamp >= x.stream.bound;
  }

  /** A step by a producer, or by the closing invocation, on one stream. */
  ghost predicate Touched(v: Node, w: Node, i: nat) {
    && i < |v.streams| && |w.streams| == |v.streams|
    && Extends(v.streams[i], w.streams[i]) && Consistent(w.streams[i])
    && w == v.(streams := v.streams[i := w.streams[i]], checks := w.checks, failed := w.failed)
    && (!v.closePrepared ==>
          && w.streams[i].stream.lastSelect == v.streams[i].stream.lastSelect
          && w.streams[i].stream.closed == v.streams[i].stream.closed)
  }

  lemma {:induction false} ProducedTouches(v: Node, i: nat, op: Op)
    requires StreamsInv(v) && i < |v.streams| && !op.Pop? && (op.Shut? ==> v.closePrepared)
    ensures Touched(v, Produced(v, i, op), i)
    ensures Touched(v, v.(streams := v.streams[i := Apply(v.streams[i], op)]), i)
  {
    ProducersExtend(v.streams[i], op);
  }

  lemma {:induction false} StreamsStep(v: Node, step: Step)
    requires StreamsInv(v) && Enabled(v, step)
    ensures StreamsInv(Take(v, step)) && |Take(v, step).streams| == |v.streams|
  {
    if step.Produce? {
      ApplyKeepsConsistent(v.streams[step.i], step.op);
    } else if step.ShutInput? {
      ApplyKeepsConsistent(v.streams[step.i], Shut);
    } else if step.FillOne? {
      FilledStreams(v, step.k);
    }
  }

  lemma {:induction false} FilledStreams(v: Node, k: nat)
    requires StreamsInv(v) && k < |v.loops| && v.loops[k].Filling? && |v.loops[k].row| < |v.streams|
    ensures StreamsInv(Filled(v, k)) && |Filled(v, k).streams| == |v.streams|
  {
    var i, op := |v.loops[k].row|, Op.Pop(v.loops[k].t);
    if Legal(v.streams[i].stream, op) {
      ApplyKeepsConsistent(v.streams[i], op);
    }
  }

  lemma {:induction false} TouchedScan(v: Node, w: Node, i: nat)
    requires Touched(v, w, i) && ScanInv(v)
    ensures ScanInv(w)
  {
    if v.loops != [] && v.loops[0].Scanning? {
      var read := v.loops[0].read;
      forall j | 0 <= j < |read|
        ensures Witness(w.streams[j].stream, read[j])
      {
        ExtendedStream(v.streams[i], w.streams[i], read[j], UNSET);
      }
    }
  }

  /** A producer's step leaves every witness standing, a scan adds one. */
  lemma {:induction false} ScanStep(v: Node, step: Step)
    requires ThreadInv(v) && StreamsInv(v) && ScanInv(v) && TaskInv(v) && Enabled(v, step)
    ensures ScanInv(Take(v, step))
  {
    if step.Produce? || step.ShutInput? {
      ProducedTouches(v, step.i, if step.Produce? then step.op else Shut);
      TouchedScan(v, Take(v, step), step.i);
    } else if step.Read? {
      assert step.k == 0;
      var i := |v.loops[0].read|;
      QueueInHistory(v.streams[i]);
      assert Witness(v.streams[i].stream, Observe(v.streams[i].stream));
    } else if step.Decide? || step.FillOne? || step.Submit? {
      BusyScan(v, step);
    } else {
      OtherScan(v, step);
    }
  }

  lemma {:induction false} BusyScan(v: Node, step: Step)
    requires ThreadInv(v) && Enabled(v, step) && (step.Decide? || step.FillOne? || step.Submit?)
    ensures ScanInv(Take(v, step))
  {
    assert step.k == 0;
    if step.Decide? {
      RuledLeavesScan(v, step.active, VerdictOf(v, 0));
    } else if step.FillOne? {
      FilledGoes(v);
    } else {
      SubmittedThread(v, 0);
    }
  }

  lemma {:induction false} RuledLeavesScan(v: Node, active: bool, verdict: Verdict)
    requires v.loops != [] && v.loops[0].Scanning?
    ensures Ruled(v, 0, active, verdict).loops != [] && !Ruled(v, 0, active, verdict).loops[0].Scanning?
  {
  }

  /** A thread scans on, or begins a scan. */
  lemma {:induction false} OtherScan(v: Node, step: Step)
    requires ThreadInv(v) && ScanInv(v) && Enabled(v, step) && !TouchesStreams(step)
    requires !step.Decide? && !step.Submit? && !step.Read?
    ensures ScanInv(Take(v, step))
  {
    var w := Take(v, step);
    if w.loops != [] && w.loops[0].Scanning? {
      ScansOn(v, step);
    }
  }

  lemma {:induction false} ScansOn(v: Node, step: Step)
    requires ThreadInv(v) && Enabled(v, step) && !TouchesStreams(step)
    requires !step.Decide? && !step.Submit? && !step.Read?
    requires Take(v, step).loops != [] && Take(v, step).loops[0].Scanning?
    ensures var w := Take(v, step); w.loops[0].read == [] || (v.loops != [] && w.loops[0] == v.loops[0])
  {
  }

  // -------------------------------------------------------------- closing

  ghost predicate DrainInv(v: Node) {
    && (v.drained ==> forall i :: 0 <= i < |v.streams| ==> Done(v.streams[i].stream))
    && (v.closePrepared ==> v.drained)
    && (forall i :: 0 <= i < |v.streams| ==> v.streams[i].stream.closed ==> v.closePrepared)
    && (v.loops != [] ==> PointDrainInv(v, v.loops[0]))
  }

  /** Once a scan has answered "close", every later scan does. */
  ghost predicate PointDrainInv(v: Node, at: LoopPoint) {
    match at
    case Scanning(read, _) =>
      v.drained ==> forall j :: 0 <= j < |read| ==> read[j].empty && read[j].timestamp >= ONE_OVER_POST_STREAM
    case Filling(_, _, _) => !v.drained
    case Submitting(task, _) => task.CloseNode? == v.drained
    case _ => true
  }

  lemma {:induction false} RuledDrain(v: Node, k: nat, active: bool)
    requires ThreadInv(v) && StreamsInv(v) && ScanInv(v) && DrainInv(v) && Enabled(v, Decide(k, active))
    ensures DrainInv(Ruled(v, k, active, VerdictOf(v, k)))
  {
    var read := v.loops[0].read;
    if VerdictOf(v, k).readiness == ReadyForClose {
      WitnessesExhaust(v, read);
    }
    assert v.drained ==> VerdictOf(v, k).readiness == ReadyForClose;
    RuledDrainPoint(v, k, active, VerdictOf(v, k));
  }

  lemma {:induction false} RuledDrainPoint(v: Node, k: nat, active: bool, verdict: Verdict)
    requires ThreadInv(v) && DrainInv(v) && Enabled(v, Decide(k, active))
    requires verdict.readiness == ReadyForClose ==> forall i :: 0 <= i < |v.streams| ==> Done(v.streams[i].stream)
    requires v.drained ==> verdict.readiness == ReadyForClose
    ensures DrainInv(Ruled(v, k, active, verdict))
  {
    assert k == 0;
  }

  lemma {:induction false} TouchedDrain(v: Node, w: Node, i: nat)
    requires Touched(v, w, i) && DrainInv(v)
    ensures DrainInv(w)
  {
    ExtendedStream(v.streams[i], w.streams[i], Observation(UNSET, true), UNSET);
  }

  lemma {:induction false} ReadDrain(v: Node, k: nat)
    requires ThreadInv(v) && DrainInv(v) && Enabled(v, Read(k))
    ensures DrainInv(Take(v, Read(k)))
  {
    assert k == 0;
    assert v.drained ==> Done(v.streams[|v.loops[0].read|].stream);
  }

  lemma {:induction false} SubmittedDrain(v: Node, k: nat)
    requires ThreadInv(v) && DrainInv(v) && Enabled(v, Submit(k))
    ensures DrainInv(Submitted(v, k))
  {
    assert k == 0;
  }

  /** A step that starts or ends no scan, fill or hand-over keeps what closing
      needs, wherever it leaves the thread. */
  lemma {:induction false} SameDrain(v: Node, w: Node)
    requires DrainInv(v) && w.streams == v.streams && w.drained == v.drained && w.closePrepared == v.closePrepared
    requires w.loops != [] ==> (v.loops != [] && w.loops[0] == v.loops[0]) || Restarts(w.loops[0])
    ensures DrainInv(w)
  {
  }

  /** Points that the thread reaches from outside a scan. */
  predicate Restarts(at: LoopPoint) {
    at.Entering? || at.Leaving? || (at.Scanning? && at.read == [])
  }

  lemma {:induction false} ThreadGoes(v: Node, step: Step)
    requires ThreadInv(v) && Enabled(v, step) && MovesThread(step)
    ensures var w := Take(v, step);
            w.loops != [] ==> (v.loops != [] && w.loops[0] == v.loops[0]) || Restarts(w.loops[0])
  {
  }

  lemma {:induction false} OtherDrain(v: Node, step: Step)
    requires ThreadInv(v) && DrainInv(v) && Enabled(v, step)
    requires !step.Decide? && !TouchesStreams(step)
    ensures DrainInv(Take(v, step))
  {
    if step.Submit? {
      SubmittedDrain(v, step.k);
    } else if step.Read? {
      ReadDrain(v, step.k);
    } else {
      PlainFrame(v, step);
      if MovesThread(step) {
        ThreadGoes(v, step);
      }
      SameDrain(v, Take(v, step));
    }
  }

  lemma {:induction false} FilledDrain(v: Node, k: nat)
    requires ThreadInv(v) && DrainInv(v) && Enabled(v, FillOne(k))
    ensures DrainInv(Filled(v, k))
  {
    assert k == 0;
  }

  lemma {:induction false} DrainStep(v: Node, step: Step)
    requires ThreadInv(v) && StreamsInv(v) && ScanInv(v) && DrainInv(v) && TaskInv(v) && Enabled(v, step)
    ensures DrainInv(Take(v, step))
  {
    if step.Decide? {
      RuledDrain(v, step.k, step.active);
    } else if step.FillOne? {
      FilledDrain(v, step.k);
    } else if TouchesStreams(step) {
      ProducedTouches(v, step.i, if step.Produce? then step.op else Shut);
      TouchedDrain(v, Take(v, step), step.i);
    } else {
      OtherDrain(v, step);
    }
  }

  /** The closing invocation is prepared once, and nothing is queued behind it. */
  ghost predicate TaskInv(v: Node) {
    && (v.closePrepared <==> CloseNode in v.queued || CloseNode in v.running || v.protocol.status == Closed)
    && (v.closePrepared ==>
          || v.queued == []
          || (v.queued == [CloseNode] && CloseNode !in v.running && v.protocol.status != Closed))
    && (v.loops != [] && v.loops[0].Submitting? && v.loops[0].task.CloseNode? ==>
          !v.closePrepared && v.queued == [])
  }

  lemma {:induction false} SubmittedTask(v: Node, k: nat)
    requires ThreadInv(v) && DrainInv(v) && TaskInv(v) && k < |v.loops| && v.loops[k].Submitting?
    ensures TaskInv(Submitted(v, k))
  {
    assert k == 0;
    SubmittedThread(v, k);
    var w := Submitted(v, k);
    var task := v.loops[0].task;
    assert w.queued == v.queued + [task];
    assert CloseNode in w.queued <==> CloseNode in v.queued || task == CloseNode;
  }

  lemma {:induction false} RuledTask(v: Node, k: nat, active: bool, verdict: Verdict)
    requires ThreadInv(v) && TaskInv(v) && Enabled(v, Decide(k, active))
    ensures TaskInv(Ruled(v, k, active, verdict))
  {
    assert k == 0;
  }

  lemma {:induction false} MovedTask(v: Node, step: Step)
    requires ThreadInv(v) && TaskInv(v) && Enabled(v, step) && (step.Begin? || step.End?)
    ensures TaskInv(Take(v, step))
  {
    var w, k := Take(v, step), step.k;
    if step.Begin? {
      assert CloseNode in v.queued <==> CloseNode in w.queued || v.queued[k] == CloseNode by {
        assert v.queued == v.queued[..k] + [v.queued[k]] + v.queued[k + 1..];
      }
      assert CloseNode in w.running <==> CloseNode in v.running || v.queued[k] == CloseNode;
    } else {
      assert v.running == v.running[..k] + [v.running[k]] + v.running[k + 1..];
    }
  }

  lemma {:induction false} OtherTask(v: Node, step: Step)
    requires ThreadInv(v) && TaskInv(v) && Enabled(v, step)
    requires !step.Begin? && !step.End? && !step.Submit? && !step.Decide? && !step.FillOne?
    ensures TaskInv(Take(v, step))
  {
  }

  lemma {:induction false} FilledTask(v: Node, k: nat)
    requires ThreadInv(v) && TaskInv(v) && Enabled(v, FillOne(k))
    ensures TaskInv(Filled(v, k))
  {
    assert k == 0;
  }

  lemma {:induction false} TaskStep(v: Node, step: Step)
    requires ThreadInv(v) && DrainInv(v) && TaskInv(v) && Enabled(v, step)
    ensures TaskInv(Take(v, step))
  {
    if step.Submit? {
      SubmittedTask(v, step.k);
    } else if step.Decide? {
      RuledTask(v, step.k, step.active, VerdictOf(v, step.k));
    } else if step.Begin? || step.End? {
      MovedTask(v, step);
    } else if step.FillOne? {
      FilledTask(v, step.k);
    } else {
      OtherTask(v, step);
    }
  }

  // ------------------------------------- the input sets handed to Process

  function RowOf(v: Node): Row {
    if v.loops == [] then []
    else match v.loops[0]
      case Filling(_, row, _) => row
      case Submitting(task, _) => if task.Process? then task.inputs.row else []
      case _ => []
  }

  function TimeOf(v: Node): Timestamp {
    if v.loops == [] then UNSET
    else match v.loops[0]
      case Filling(t, _, _) => t
      case Submitting(task, _) => if task.Process? then task.inputs.timestamp else UNSET
      case _ => UNSET
  }

  /** The latest timestamp processed. */
  function Horizon(log: seq<InputSet>): Timestamp {
    if log == [] then UNSTARTED else log[|log| - 1].timestamp
  }

  predicate HasPacket(row: Row) {
    exists i :: 0 <= i < |row| && row[i].Some?
  }

  /** The sets that carry a packet. With timestamp-bound processing a node is also
      called for timestamps at which nothing arrives. */
  function Carried(log: seq<InputSet>): seq<InputSet> {
    if log == [] then []
    else
      var last := log[|log| - 1];
      Carried(log[..|log| - 1]) + if HasPacket(last.row) then [last] else []
  }

  /** What had left a stream before the input set now being filled. */
  function Committed(x: Tracked, taken: bool): seq<Packet> {
    if taken && x.removed != [] then x.removed[..|x.removed| - 1] else x.removed
  }

  function CommittedAll(xs: seq<Tracked>, row: Row): (hs: Histories)
    ensures |hs| == |xs|
  {
    seq(|xs|, i requires 0 <= i < |xs| => Committed(xs[i], i < |row| && row[i].Some?))
  }

  ghost predicate Logged(log: seq<InputSet>, hs: Histories) {
    && Ordered(hs) && Merge(hs) == Carried(log) && Ascending(log, UNSTARTED)
    && (forall i, k :: 0 <= i < |hs| && 0 <= k < |hs[i]| ==> hs[i][k].timestamp <= Horizon(log))
    && (forall k :: 0 <= k < |log| ==> |log[k].row| == |hs|)
  }

  predicate Beyond(s: Stream, t: Timestamp) {
    s.bound > t && forall k :: 0 <= k < |s.queue| ==> s.queue[k].timestamp > t
  }

  ghost predicate LogInv(v: Node) {
    && Logged(v.log, CommittedAll(v.streams, RowOf(v)))
    && (forall i :: 0 <= i < |v.streams| ==> Beyond(v.streams[i].stream, Horizon(v.log)))
    && (!v.drained && v.log != [] ==> Horizon(v.log) <= v.lastProcessed)
    && (!v.processTimestamps ==> Carried(v.log) == v.log)
  }

  predicate Taken(x: Tracked, t: Timestamp, r: Option<Packet>) {
    && Beyond(x.stream, t)
    && (r.Some? ==> x.removed != [] && x.removed[|x.removed| - 1] == r.value && r.value.timestamp == t)
  }

  /** A set being filled at `t`: the streams already popped are beyond `t`, the
      others are settled at `t`. */
  ghost predicate FillingAt(v: Node, t: Timestamp, row: Row) {
    && IsAllowedInStream(t) && Horizon(v.log) < t <= v.lastProcessed
    && |row| <= |v.streams|
    && (forall j :: 0 <= j < |v.streams| ==>
          if j < |row| then Taken(v.streams[j], t, row[j]) else SettledAt(v.streams[j].stream, t))
    && (!v.processTimestamps ==> exists j :: 0 <= j < |v.streams| && Carries(v, t, row, j))
  }

  predicate Carries(v: Node, t: Timestamp, row: Row, j: nat)
    requires j < |v.streams|
  {
    if j < |row| then row[j].Some? else HeadAt(v.streams[j].stream, t)
  }

  ghost predicate FillInv(v: Node) {
    v.loops != [] ==>
      match v.loops[0]
      case Filling(t, row, _) => FillingAt(v, t, row) && |row| < |v.streams|
      case Submitting(task, _) =>
        task.Process? ==> FillingAt(v, task.inputs.timestamp, task.inputs.row) && |task.inputs.row| == |v.streams|
      case _ => true
  }

  ghost predicate SelectInv(v: Node) {
    !v.closePrepared ==> forall j :: 0 <= j < |v.streams| ==>
      v.streams[j].stream.lastSelect <= if j < |RowOf(v)| then TimeOf(v) else Horizon(v.log)
  }

  lemma {:induction false} TouchedFill(v: Node, w: Node, i: nat)
    requires Touched(v, w, i) && FillInv(v) && SelectInv(v)
    ensures FillInv(w) && SelectInv(w)
  {
    assert RowOf(w) == RowOf(v) && TimeOf(w) == TimeOf(v);
    if FillingAt(v, TimeOf(v), RowOf(v)) {
      TouchedFillingAt(v, w, i, TimeOf(v), RowOf(v));
    }
  }

  lemma {:induction false} TouchedFillingAt(v: Node, w: Node, i: nat, t: Timestamp, row: Row)
    requires Touched(v, w, i) && FillingAt(v, t, row)
    ensures FillingAt(w, t, row)
  {
    ExtendedStream(v.streams[i], w.streams[i], Observation(UNSET, true), t);
    if !v.processTimestamps {
      var j :| 0 <= j < |v.streams| && Carries(v, t, row, j);
      assert Carries(w, t, row, j);
    }
  }

  lemma {:induction false} TouchedCommitted(v: Node, w: Node, i: nat, row: Row)
    requires Touched(v, w, i)
    ensures CommittedAll(w.streams, row) == CommittedAll(v.streams, row)
  {
  }

  lemma {:induction false} TouchedBeyond(v: Node, w: Node, i: nat, j: nat, t: Timestamp)
    requires Touched(v, w, i) && j < |v.streams| && Beyond(v.streams[j].stream, t)
    ensures Beyond(w.streams[j].stream, t)
  {
    assert j != i ==> w.streams[j] == v.streams[j];
  }

  lemma {:induction false} TouchedLog(v: Node, w: Node, i: nat)
    requires Touched(v, w, i) && LogInv(v)
    ensures LogInv(w)
  {
    TouchedCommitted(v, w, i, RowOf(v));
    forall j | 0 <= j < |v.streams|
      ensures Beyond(w.streams[j].stream, Horizon(v.log))
    {
      TouchedBeyond(v, w, i, j, Horizon(v.log));
    }
  }

  // Deciding.

  /** The arithmetic of a verdict "process t". */
  lemma {:induction false} VerdictFacts(m: Minima, processTimestamps: bool, last: Timestamp)
    requires m.packet == DONE || IsAllowedInStream(m.packet)
    ensures var verdict := Judge(m, processTimestamps, last);
            verdict.readiness == ReadyForProcess ==>
              && IsAllowedInStream(verdict.timestamp)
              && verdict.timestamp <= m.packet && verdict.timestamp < m.bound
              && verdict.lastProcessed == verdict.timestamp
              && (if processTimestamps then verdict.timestamp > last else verdict.timestamp == m.packet < DONE)
  {
  }

  lemma {:induction false} FirstPacketWitness(v: Node, read: seq<Observation>)
    requires StreamsInv(v) && |read| == |v.streams|
    requires forall i :: 0 <= i < |read| ==> Witness(v.streams[i].stream, read[i])
    ensures var t := MinimaOf(read).packet;
            t == DONE || (IsAllowedInStream(t) && exists j :: 0 <= j < |v.streams| && HeadAt(v.streams[j].stream, t))
  {
    var t := MinimaOf(read).packet;
    if t != DONE {
      var j :| 0 <= j < |read| && !read[j].empty && read[j].timestamp == t;
      assert Witness(v.streams[j].stream, read[j]);
      QueueInHistory(v.streams[j]);
      assert HeadAt(v.streams[j].stream, t);
    }
  }

  lemma {:induction false} DecidedFilling(v: Node, k: nat)
    requires ThreadInv(v) && StreamsInv(v) && ScanInv(v) && DrainInv(v) && LogInv(v)
    requires k < |v.loops| && v.loops[k].Scanning? && |v.loops[k].read| == |v.streams|
    requires VerdictOf(v, k).readiness == ReadyForProcess
    ensures !v.drained
    ensures IsAllowedInStream(VerdictOf(v, k).timestamp)
    ensures FillingAt(v.(lastProcessed := VerdictOf(v, k).lastProcessed), VerdictOf(v, k).timestamp, [])
  {
    assert k == 0;
    var read := v.loops[0].read;
    var m := MinimaOf(read);
    FirstPacketWitness(v, read);
    VerdictFacts(m, v.processTimestamps, v.lastProcessed);
    var t := VerdictOf(v, k).timestamp;
    WitnessesSettle(v, read, t);
    var w := v.(lastProcessed := VerdictOf(v, k).lastProcessed);
    if !v.processTimestamps {
      var j :| 0 <= j < |v.streams| && HeadAt(v.streams[j].stream, t);
      assert Carries(w, t, [], j);
      assert Beyond(v.streams[j].stream, Horizon(v.log));
    }
  }

  lemma {:induction false} RuledFill(v: Node, k: nat, active: bool)
    requires ThreadInv(v) && StreamsInv(v) && ScanInv(v) && DrainInv(v) && LogInv(v) && FillInv(v) && SelectInv(v)
    requires v.streams != [] && Enabled(v, Decide(k, active))
    ensures var w := Ruled(v, k, active, VerdictOf(v, k));
            LogInv(w) && FillInv(w) && SelectInv(w) && (w.aborted ==> v.aborted)
  {
    var verdict := VerdictOf(v, k);
    if verdict.readiness == ReadyForProcess {
      DecidedFilling(v, k);
    }
    VerdictKeepsLast(MinimaOf(v.loops[k].read), v.processTimestamps, v.lastProcessed);
    RuledFillPoint(v, k, active, verdict);
    RuledLog(v, k, active, verdict);
  }

  lemma {:induction false} VerdictKeepsLast(m: Minima, processTimestamps: bool, last: Timestamp)
    ensures var verdict := Judge(m, processTimestamps, last);
            && (verdict.readiness == NotReady ==> verdict.lastProcessed == last)
            && (verdict.readiness == ReadyForProcess ==> verdict.lastProcessed == verdict.timestamp)
  {
  }

  lemma {:induction false} RuledFillPoint(v: Node, k: nat, active: bool, verdict: Verdict)
    requires ThreadInv(v) && v.streams != [] && Enabled(v, Decide(k, active))
    requires verdict.readiness == ReadyForProcess ==>
               && IsAllowedInStream(verdict.timestamp)
               && FillingAt(v.(lastProcessed := verdict.lastProcessed), verdict.timestamp, [])
    ensures FillInv(Ruled(v, k, active, verdict)) && (Ruled(v, k, active, verdict).aborted ==> v.aborted)
  {
    assert k == 0;
    var w := Ruled(v, k, active, verdict);
    if verdict.readiness == ReadyForProcess && !v.processTimestamps {
      var u, t := v.(lastProcessed := verdict.lastProcessed), verdict.timestamp;
      var j :| 0 <= j < |v.streams| && Carries(u, t, [], j);
      assert Carries(w, t, [], j);
    }
  }

  lemma {:induction false} RuledRow(v: Node, active: bool, verdict: Verdict)
    requires v.loops != [] && v.loops[0].Scanning?
    ensures RowOf(Ruled(v, 0, active, verdict)) == []
  {
  }

  lemma {:induction false} RuledHistory(v: Node, active: bool, verdict: Verdict)
    requires v.loops != [] && v.loops[0].Scanning?
    ensures var w := Ruled(v, 0, active, verdict);
            && w.log == v.log && w.closePrepared == v.closePrepared
            && w.processTimestamps == v.processTimestamps && w.lastProcessed == verdict.lastProcessed
            && w.drained == (v.drained || verdict.readiness == ReadyForClose)
  {
  }

  lemma {:induction false} RuledLog(v: Node, k: nat, active: bool, verdict: Verdict)
    requires ThreadInv(v) && LogInv(v) && SelectInv(v)
    requires Enabled(v, Decide(k, active))
    requires verdict.readiness == ReadyForProcess ==> Horizon(v.log) < verdict.timestamp == verdict.lastProcessed
    requires verdict.readiness == NotReady ==> verdict.lastProcessed == v.lastProcessed
    ensures LogInv(Ruled(v, k, active, verdict)) && SelectInv(Ruled(v, k, active, verdict))
  {
    assert k == 0 && RowOf(v) == [];
    RuledRow(v, active, verdict);
    RuledHistory(v, active, verdict);
  }

  // Filling one stream.

  /** The pop that fills one entry of the row drops nothing and loses nothing. */
  lemma {:induction false} FillOnePop(v: Node)
    requires StreamsInv(v) && DrainInv(v) && FillInv(v) && SelectInv(v)
    requires v.loops != [] && v.loops[0].Filling?
    ensures var i, t := |v.loops[0].row|, v.loops[0].t;
            && i < |v.streams| && Legal(v.streams[i].stream, Op.Pop(t)) && Dropped(v.streams[i].stream, t) == 0
            && (var y, p := Apply(v.streams[i], Op.Pop(t)), Selected(v.streams[i].stream, t);
                var r := Entry(p);
                && Taken(y, t, r) && Committed(y, r.Some?) == v.streams[i].removed
                && y.stream.lastSelect == t && y.stream.closed == v.streams[i].stream.closed
                && (HeadAt(v.streams[i].stream, t) ==> r.Some?))
  {
    var i, t := |v.loops[0].row|, v.loops[0].t;
    var x := v.streams[i];
    assert SettledAt(x.stream, t);
    assert x.stream.lastSelect <= Horizon(v.log);
    PopSettled(x, t);
    PopLeavesLater(x, t);
  }

  /** `w` is `v` after the stream next in the row has been popped to `y` and `r`
      added to the row. */
  ghost predicate PoppedTo(v: Node, w: Node, y: Tracked, r: Option<Packet>) {
    && v.loops != [] && v.loops[0].Filling? && |v.loops[0].row| < |v.streams|
    && w.streams == v.streams[|v.loops[0].row| := y]
    && w.log == v.log && w.lastProcessed == v.lastProcessed && w.drained == v.drained
    && w.closePrepared == v.closePrepared && w.processTimestamps == v.processTimestamps
    && w.loops != [] && RowOf(w) == RowOf(v) + [r] && TimeOf(w) == TimeOf(v)
    && (w.loops[0].Filling? || w.loops[0].Submitting?)
    && (w.loops[0].Filling? ==> |RowOf(w)| < |v.streams|)
    && (w.loops[0].Submitting? ==> w.loops[0].task.Process? && |RowOf(w)| == |v.streams|)
  }

  lemma {:induction false} PoppedIsPoppedTo(v: Node, y: Tracked, p: Packet, aborted: bool)
    requires v.loops != [] && v.loops[0].Filling? && |v.loops[0].row| < |v.streams|
    ensures PoppedTo(v, Popped(v, 0, y, p).(aborted := aborted), y, Entry(p))
  {
  }

  lemma {:induction false} PoppedFill(v: Node, w: Node, y: Tracked, r: Option<Packet>)
    requires PoppedTo(v, w, y, r) && FillInv(v) && SelectInv(v)
    requires Taken(y, TimeOf(v), r) && y.stream.lastSelect == TimeOf(v)
    requires HeadAt(v.streams[|RowOf(v)|].stream, TimeOf(v)) ==> r.Some?
    ensures FillInv(w) && SelectInv(w)
  {
    var row, t := RowOf(v), TimeOf(v);
    assert FillingAt(v, t, row);
    if !v.processTimestamps {
      var j :| 0 <= j < |v.streams| && Carries(v, t, row, j);
      assert Carries(w, t, row + [r], j);
    }
    assert FillingAt(w, t, row + [r]);
  }

  lemma {:induction false} PoppedLog(v: Node, w: Node, y: Tracked, r: Option<Packet>)
    requires PoppedTo(v, w, y, r) && FillInv(v) && LogInv(v)
    requires Taken(y, TimeOf(v), r) && Committed(y, r.Some?) == v.streams[|RowOf(v)|].removed
    ensures LogInv(w)
  {
    var i, row := |RowOf(v)|, RowOf(v);
    forall j | 0 <= j < |v.streams|
      ensures CommittedAll(w.streams, row + [r])[j] == CommittedAll(v.streams, row)[j]
      ensures Beyond(w.streams[j].stream, Horizon(v.log))
    {
      assert j != i ==> w.streams[j] == v.streams[j];
      assert Beyond(v.streams[j].stream, Horizon(v.log));
    }
    assert CommittedAll(w.streams, row + [r]) == CommittedAll(v.streams, row);
  }

  lemma {:induction false} FilledFill(v: Node, k: nat)
    requires ThreadInv(v) && StreamsInv(v) && DrainInv(v) && LogInv(v) && FillInv(v) && SelectInv(v)
    requires Enabled(v, FillOne(k))
    ensures LogInv(Filled(v, k)) && FillInv(Filled(v, k)) && SelectInv(Filled(v, k))
    ensures Filled(v, k).aborted ==> v.aborted
  {
    assert k == 0;
    FillOnePop(v);
    var i, t := |v.loops[0].row|, v.loops[0].t;
    var y, p := Apply(v.streams[i], Op.Pop(t)), Selected(v.streams[i].stream, t);
    var w := Filled(v, k);
    PoppedIsPoppedTo(v, y, p, w.aborted);
    PoppedFill(v, w, y, Entry(p));
    PoppedLog(v, w, y, Entry(p));
  }

  // Submitting a filled set.

  function TakenNow(row: Row): (hs: Histories)
    ensures |hs| == |row|
  {
    seq(|row|, i requires 0 <= i < |row| => if row[i].Some? then [row[i].value] else [])
  }

  function RemovedAll(xs: seq<Tracked>): Histories {
    CommittedAll(xs, [])
  }

  lemma {:induction false} RemovedIsJoin(v: Node, t: Timestamp, row: Row)
    requires FillingAt(v, t, row) && |row| == |v.streams|
    ensures RemovedAll(v.streams) == Join(CommittedAll(v.streams, row), TakenNow(row))
  {
    forall j | 0 <= j < |v.streams|
      ensures RemovedAll(v.streams)[j] == CommittedAll(v.streams, row)[j] + TakenNow(row)[j]
    {
      assert Taken(v.streams[j], t, row[j]);
    }
  }

  lemma {:induction false} TakenNowMerge(t: Timestamp, row: Row)
    requires t < DONE && forall j :: 0 <= j < |row| && row[j].Some? ==> row[j].value.timestamp == t
    ensures Ordered(TakenNow(row))
    ensures Merge(TakenNow(row)) == if HasPacket(row) then [InputSet(t, row)] else []
  {
    if HasPacket(row) {
      var k: int :| 0 <= k < |row| && row[k].Some?;
      MergeOfOne(TakenNow(row), t, row, k);
    } else {
      assert AllEmpty(TakenNow(row));
    }
  }

  lemma {:induction false} CarriedSnoc(log: seq<InputSet>, last: InputSet)
    ensures Carried(log + [last]) == Carried(log) + if HasPacket(last.row) then [last] else []
  {
    var more := log + [last];
    assert more[..|more| - 1] == log && more[|more| - 1] == last;
  }

  lemma {:induction false} TakenFits(v: Node, t: Timestamp, row: Row)
    requires FillingAt(v, t, row) && |row| == |v.streams|
    requires Logged(v.log, CommittedAll(v.streams, row))
    ensures Ordered(TakenNow(row)) && Split(CommittedAll(v.streams, row), TakenNow(row), Horizon(v.log))
    ensures Merge(TakenNow(row)) == if HasPacket(row) then [InputSet(t, row)] else []
  {
    TakenIsNow(v, t, row);
    assert forall j :: 0 <= j < |row| ==> Taken(v.streams[j], t, row[j]);
    TakenNowMerge(t, row);
  }

  lemma {:induction false} MergeGrows(v: Node, t: Timestamp, row: Row)
    requires FillingAt(v, t, row) && |row| == |v.streams|
    requires Logged(v.log, CommittedAll(v.streams, row))
    ensures Ordered(RemovedAll(v.streams))
    ensures Merge(RemovedAll(v.streams)) == Carried(v.log + [InputSet(t, row)])
  {
    TakenFits(v, t, row);
    MergeSplits(CommittedAll(v.streams, row), TakenNow(row), Horizon(v.log));
    RemovedIsJoin(v, t, row);
    CarriedSnoc(v.log, InputSet(t, row));
  }

  lemma {:induction false} TakenIsNow(v: Node, t: Timestamp, row: Row)
    requires FillingAt(v, t, row) && |row| == |v.streams|
    ensures forall i, k :: 0 <= i < |row| && 0 <= k < |TakenNow(row)[i]| ==> TakenNow(row)[i][k].timestamp == t
  {
    assert forall j :: 0 <= j < |row| ==> Taken(v.streams[j], t, row[j]);
  }

  /** Handing over one more set extends the merge of what was taken by that set. */
  lemma {:induction false} LoggedGrows(v: Node, t: Timestamp, row: Row)
    requires FillingAt(v, t, row) && |row| == |v.streams|
    requires Logged(v.log, CommittedAll(v.streams, row))
    ensures Logged(v.log + [InputSet(t, row)], RemovedAll(v.streams))
  {
    var hs, log := CommittedAll(v.streams, row), v.log + [InputSet(t, row)];
    MergeGrows(v, t, row);
    TakenIsNow(v, t, row);
    RemovedIsJoin(v, t, row);
    JoinBelow(hs, TakenNow(row), Horizon(v.log), t);
    AscendingSnoc(v.log, InputSet(t, row));
    assert forall k :: 0 <= k < |log| ==> |log[k].row| == |row|;
  }

  lemma {:induction false} AscendingSnoc(log: seq<InputSet>, last: InputSet)
    requires Ascending(log, UNSTARTED) && Horizon(log) < last.timestamp
    ensures Ascending(log + [last], UNSTARTED)
  {
  }

  lemma {:induction false} JoinBelow(hs: Histories, gs: Histories, h: Timestamp, t: Timestamp)
    requires |hs| == |gs| && h < t
    requires forall i, k :: 0 <= i < |hs| && 0 <= k < |hs[i]| ==> hs[i][k].timestamp <= h
    requires forall i, k :: 0 <= i < |gs| && 0 <= k < |gs[i]| ==> gs[i][k].timestamp == t
    ensures forall i, k :: 0 <= i < |Join(hs, gs)| && 0 <= k < |Join(hs, gs)[i]| ==> Join(hs, gs)[i][k].timestamp <= t
  {
  }

  /** `w` is `v` after the filled set has been handed over. */
  ghost predicate HandedOver(v: Node, w: Node, t: Timestamp, row: Row) {
    && w.streams == v.streams && w.log == v.log + [InputSet(t, row)]
    && w.lastProcessed == v.lastProcessed && w.drained == v.drained
    && w.closePrepared == v.closePrepared && w.processTimestamps == v.processTimestamps
    && RowOf(w) == [] && (w.loops != [] ==> !w.loops[0].Filling? && !w.loops[0].Submitting?)
  }

  lemma {:induction false} HandOverLog(v: Node, w: Node, t: Timestamp, row: Row)
    requires FillingAt(v, t, row) && |row| == |v.streams| && RowOf(v) == row && TimeOf(v) == t
    requires HandedOver(v, w, t, row) && LogInv(v) && SelectInv(v)
    ensures LogInv(w) && FillInv(w) && SelectInv(w)
  {
    LoggedGrows(v, t, row);
    SetCarries(v, t, row);
    assert Horizon(w.log) == t;
    forall j | 0 <= j < |v.streams|
      ensures Beyond(w.streams[j].stream, t)
    {
      assert Taken(v.streams[j], t, row[j]);
    }
  }

  lemma {:induction false} SubmittedHandsOver(v: Node)
    requires ThreadInv(v) && v.loops != [] && v.loops[0].Submitting? && v.loops[0].task.Process?
    ensures var inputs := v.loops[0].task.inputs; HandedOver(v, Submitted(v, 0), inputs.timestamp, inputs.row)
    ensures Submitted(v, 0).aborted == v.aborted
  {
    SubmittedThread(v, 0);
  }

  lemma {:induction false} SubmittedCloseLog(v: Node)
    requires ThreadInv(v) && LogInv(v) && v.loops != [] && v.loops[0].Submitting? && v.loops[0].task.CloseNode?
    ensures LogInv(Submitted(v, 0)) && FillInv(Submitted(v, 0)) && SelectInv(Submitted(v, 0))
    ensures Submitted(v, 0).aborted == v.aborted
  {
    SubmittedThread(v, 0);
    assert RowOf(v) == [] && RowOf(Submitted(v, 0)) == [];
  }

  lemma {:induction false} SubmittedLog(v: Node, k: nat)
    requires ThreadInv(v) && LogInv(v) && FillInv(v) && SelectInv(v)
    requires k < |v.loops| && v.loops[k].Submitting?
    ensures LogInv(Submitted(v, k)) && FillInv(Submitted(v, k)) && SelectInv(Submitted(v, k))
    ensures Submitted(v, k).aborted == v.aborted
  {
    assert k == 0;
    if v.loops[0].task.Process? {
      SubmittedHandsOver(v);
      HandOverLog(v, Submitted(v, 0), v.loops[0].task.inputs.timestamp, v.loops[0].task.inputs.row);
    } else {
      SubmittedCloseLog(v);
    }
  }

  /** Without timestamp-bound processing every set carries a packet. */
  lemma {:induction false} SetCarries(v: Node, t: Timestamp, row: Row)
    requires FillingAt(v, t, row) && |row| == |v.streams|
    requires !v.processTimestamps ==> Carried(v.log) == v.log
    ensures !v.processTimestamps ==> Carried(v.log + [InputSet(t, row)]) == v.log + [InputSet(t, row)]
  {
    if !v.processTimestamps {
      var j :| 0 <= j < |v.streams| && Carries(v, t, row, j);
      assert HasPacket(row);
      var log := v.log + [InputSet(t, row)];
      assert log[..|log| - 1] == v.log;
    }
  }

  /** The remaining steps neither touch a stream nor start or end a row. */
  predicate IsPlain(step: Step) {
    !TouchesStreams(step) && !step.Decide? && !step.Submit?
  }

  /** What such a step leaves alone. */
  predicate SameSets(v: Node, w: Node) {
    && w.streams == v.streams && w.log == v.log && w.lastProcessed == v.lastProcessed
    && w.drained == v.drained && w.closePrepared == v.closePrepared
    && w.processTimestamps == v.processTimestamps && w.failed == v.failed && w.seen == v.seen
  }

  lemma {:induction false} ThreadMovesAlone(v: Node, step: Step)
    requires Enabled(v, step) && (step.Check? || step.End?)
    ensures SameSets(v, Take(v, step))
  {
  }

  lemma {:induction false} PassMovesAlone(v: Node, step: Step)
    requires Enabled(v, step) && (step.Enter? || step.Leave?)
    ensures SameSets(v, Take(v, step))
  {
  }

  lemma {:induction false} PlainFrame(v: Node, step: Step)
    requires Enabled(v, step) && IsPlain(step)
    ensures SameSets(v, Take(v, step))
  {
    if step.Check? || step.End? {
      ThreadMovesAlone(v, step);
    } else if step.Enter? || step.Leave? {
      PassMovesAlone(v, step);
    }
  }

  lemma {:induction false} PlainRow(v: Node, step: Step)
    requires ThreadInv(v) && Enabled(v, step) && IsPlain(step)
    ensures var w := Take(v, step);
            && RowOf(w) == RowOf(v) && TimeOf(w) == TimeOf(v)
            && (w.loops != [] && (w.loops[0].Filling? || w.loops[0].Submitting?) ==>
                   v.loops != [] && w.loops[0] == v.loops[0])
  {
  }

  lemma {:induction false} PlainFill(v: Node, w: Node)
    requires LogInv(v) && FillInv(v) && SelectInv(v)
    requires && w.streams == v.streams && w.log == v.log && w.lastProcessed == v.lastProcessed
             && w.drained == v.drained && w.closePrepared == v.closePrepared
             && w.processTimestamps == v.processTimestamps
             && RowOf(w) == RowOf(v) && TimeOf(w) == TimeOf(v)
             && (w.loops != [] && (w.loops[0].Filling? || w.loops[0].Submitting?) ==>
                   v.loops != [] && w.loops[0] == v.loops[0])
    ensures LogInv(w) && FillInv(w) && SelectInv(w)
  {
    var t, row := TimeOf(v), RowOf(v);
    if FillingAt(v, t, row) && !v.processTimestamps {
      var j :| 0 <= j < |v.streams| && Carries(v, t, row, j);
      assert Carries(w, t, row, j);
    }
  }

  /** Closed nodes have nothing queued, and nothing can finish that was not begun. */
  lemma {:induction false} NeverAborts(v: Node, step: Step)
    requires ThreadInv(v) && TaskInv(v) && Enabled(v, step) && IsPlain(step) && !v.aborted
    ensures !Take(v, step).aborted
  {
  }

  ghost predicate SetsInv(v: Node) {
    LogInv(v) && FillInv(v) && SelectInv(v) && !v.aborted
  }

  lemma {:induction false} SetsStep(v: Node, step: Step)
    requires v.streams != [] && ThreadInv(v) && StreamsInv(v) && ScanInv(v) && DrainInv(v) && TaskInv(v) && SetsInv(v)
    requires Enabled(v, step)
    ensures SetsInv(Take(v, step))
  {
    if step.Produce? || step.ShutInput? {
      var op := if step.Produce? then step.op else Shut;
      ProducedTouches(v, step.i, op);
      TouchedFill(v, Take(v, step), step.i);
      TouchedLog(v, Take(v, step), step.i);
    } else if step.Decide? {
      RuledFill(v, step.k, step.active);
    } else if step.FillOne? {
      FilledFill(v, step.k);
    } else if step.Submit? {
      SubmittedLog(v, step.k);
    } else {
      PlainFrame(v, step);
      PlainRow(v, step);
      PlainFill(v, Take(v, step));
      NeverAborts(v, step);
    }
  }
}
