/** A non-source node with everything that touches it concurrently: producers
    adding to its input streams, calls that ask whether it became ready, threads
    inside its scheduling loop, and invocations queued or running. One step is
    one critical section; any step that is enabled may come next.

    `aborted` records that one of the code's own checks failed. */
module NodeRuns {
  import opened Collections
  import opened Timestamps
  import opened InputStreams
  import opened SyncSets
  import opened NodeProtocol

  datatype Task = Process(inputs: InputSet) | CloseNode

  datatype Reason = Waiting | QuotaUsed | Closing

  /** Where a thread is inside the scheduling loop. `read` holds what the current
      scan has seen so far, `row` what the current input set has taken so far. */
  datatype LoopPoint =
    | Entering
    | Scanning(read: seq<Observation>, quota: nat)
    | Filling(t: Timestamp, row: Row, quota: nat)
    | Submitting(task: Task, quota: nat)
    | Propagating(bound: Timestamp)
    | Leaving(reason: Reason)

  /** The last five fields are history: the sets handed to Process, the last
      complete scan, whether a scan ever answered "close", whether a stream
      rejected an update, and whether a check failed. */
  datatype Node = Node(
    streams: seq<Tracked>,
    processTimestamps: bool,
    lastProcessed: Timestamp,
    protocol: Protocol,
    closePrepared: bool,
    loops: seq<LoopPoint>,
    queued: seq<Task>,
    running: seq<Task>,
    checks: nat,
    log: seq<InputSet>,
    seen: seq<Observation>,
    drained: bool,
    failed: bool,
    aborted: bool)

  datatype Step =
    | Produce(i: nat, op: Op)
    | Open
    | Check
    | Enter(k: nat)
    | Read(k: nat)
    | Decide(k: nat, active: bool)
    | FillOne(k: nat)
    | Submit(k: nat)
    | Propagated(k: nat)
    | Leave(k: nat)
    | Begin(k: nat)
    | ShutInput(i: nat)
    | SetClosed
    | End(k: nat)

  function Plain(xs: seq<Tracked>): (ss: seq<Stream>)
    ensures |ss| == |xs| && forall i :: 0 <= i < |xs| ==> ss[i] == xs[i].stream
  {
    seq(|xs|, i requires 0 <= i < |xs| => xs[i].stream)
  }

  /** `active` says that the answer "close" finds invocations whose contexts are
      still in use. Only nodes that run in parallel have such contexts; one that
      is still queued is certainly in use. */
  predicate Enabled(v: Node, step: Step) {
    match step
    case Produce(i, op) => i < |v.streams| && !op.Pop? && !op.Shut?
    case Open => v.protocol.status == Prepared
    case Check => v.checks > 0
    case Enter(k) => k < |v.loops| && v.loops[k].Entering?
    case Read(k) => k < |v.loops| && v.loops[k].Scanning? && |v.loops[k].read| < |v.streams|
    case Decide(k, active) =>
      && k < |v.loops| && v.loops[k].Scanning? && |v.loops[k].read| == |v.streams|
      && (active ==> v.protocol.maxInFlight > 1 && v.protocol.inFlight > 0)
      && (v.protocol.maxInFlight > 1 && v.queued != [] ==> active)
    case FillOne(k) => k < |v.loops| && v.loops[k].Filling? && |v.loops[k].row| < |v.streams|
    case Submit(k) => k < |v.loops| && v.loops[k].Submitting?
    case Propagated(k) => k < |v.loops| && v.loops[k].Propagating?
    case Leave(k) => k < |v.loops| && v.loops[k].Leaving?
    case Begin(k) => k < |v.queued|
    case ShutInput(i) =>
      && i < |v.streams| && !v.streams[i].stream.closed
      && CloseNode in v.running && v.protocol.status != Closed
    case SetClosed =>
      && CloseNode in v.running && v.protocol.status != Closed
      && (forall i :: 0 <= i < |v.streams| ==> v.streams[i].stream.closed)
    case End(k) => k < |v.running| && (v.running[k].CloseNode? ==> v.protocol.status == Closed)
  }

  /** A pass through the loop scans while it may still schedule something. */
  function StartPass(quota: int): LoopPoint {
    if quota > 0 then Scanning([], quota) else Leaving(QuotaUsed)
  }

  function Produced(v: Node, i: nat, op: Op): Node
    requires i < |v.streams| && !op.Pop?
  {
    var s := v.streams[i].stream;
    v.(streams := v.streams[i := Apply(v.streams[i], op)],
       checks := if Signals(s, op) then v.checks + 1 else v.checks,
       failed := v.failed || !Succeeds(s, op))
  }

  function VerdictOf(v: Node, k: nat): Verdict
    requires k < |v.loops| && v.loops[k].Scanning?
  {
    Judge(MinimaOf(v.loops[k].read), v.processTimestamps, v.lastProcessed)
  }

  /** What the scheduling thread does with a verdict. */
  function Ruled(v: Node, k: nat, active: bool, verdict: Verdict): (w: Node)
    requires k < |v.loops| && v.loops[k].Scanning?
    ensures w.streams == v.streams
  {
    var at := v.loops[k];
    var w := v.(lastProcessed := verdict.lastProcessed, seen := at.read);
    match verdict.readiness
    case NotReady => w.(loops := v.loops[k := Propagating(verdict.timestamp)])
    case ReadyForProcess =>
      w.(loops := v.loops[k := Filling(verdict.timestamp, [], at.quota)],
         aborted := v.aborted || !IsAllowedInStream(verdict.timestamp))
    case ReadyForClose =>
      w.(drained := true,
         loops := v.loops[k := if active || v.closePrepared then Leaving(Closing)
                               else Submitting(CloseNode, at.quota)])
  }

  /** A row entry: the packet, or nothing if the pop answered with an empty one. */
  function Entry(p: Packet): Option<Packet> {
    if p.payload == Empty then None else Some(p)
  }

  /** The next stream of the row has been popped to `y` and answered `p`. */
  function Popped(v: Node, k: nat, y: Tracked, p: Packet): Node
    requires k < |v.loops| && v.loops[k].Filling? && |v.loops[k].row| < |v.streams|
  {
    var at := v.loops[k];
    var row := at.row + [Entry(p)];
    v.(streams := v.streams[|at.row| := y],
       loops := v.loops[k := if |row| == |v.streams|
                             then Submitting(Process(InputSet(at.t, row)), at.quota)
                             else Filling(at.t, row, at.quota)])
  }

  function Filled(v: Node, k: nat): (w: Node)
    requires k < |v.loops| && v.loops[k].Filling? && |v.loops[k].row| < |v.streams|
    ensures w.protocol == v.protocol && w.queued == v.queued && w.running == v.running
    ensures w.closePrepared == v.closePrepared && w.drained == v.drained && w.checks == v.checks
  {
    var x, t := v.streams[|v.loops[k].row|], v.loops[k].t;
    if !Legal(x.stream, Op.Pop(t)) then v.(aborted := true)
    else
      Popped(v, k, Apply(x, Op.Pop(t)), Selected(x.stream, t))
        .(aborted := v.aborted || Dropped(x.stream, t) != 0)
  }

  function Submitted(v: Node, k: nat): (w: Node)
    requires k < |v.loops| && v.loops[k].Submitting?
    ensures w.streams == v.streams
  {
    var at := v.loops[k];
    var begun := OnTryToBegin(v.protocol);
    if !begun.enters then v.(aborted := true)
    else
      var w := v.(protocol := begun.protocol, queued := v.queued + [at.task]);
      match at.task
      case Process(s) => w.(log := v.log + [s], loops := v.loops[k := StartPass(at.quota - 1)])
      case CloseNode => w.(closePrepared := true, loops := v.loops[k := Leaving(Closing)])
  }

  /** Three steps touch streams, one stream each. */
  predicate TouchesStreams(step: Step) {
    step.Produce? || step.ShutInput? || step.FillOne?
  }

  function Take(v: Node, step: Step): (w: Node)
    requires Enabled(v, step)
    ensures !TouchesStreams(step) ==> w.streams == v.streams
  {
    match step
    case Produce(i, op) => Produced(v, i, op)
    case Open => v.(protocol := v.protocol.(status := Opened), checks := v.checks + 1)
    case Check =>
      var o := OnCheckIfBecameReady(v.protocol);
      v.(protocol := o.protocol, checks := v.checks - 1,
         loops := if o.enters then v.loops + [Entering] else v.loops)
    case Enter(k) =>
      var o := OnLoopEntry(v.protocol);
      v.(protocol := o.protocol,
         loops := if o.enters then v.loops[k := StartPass(o.protocol.Allowance())] else Remove(v.loops, k))
    case Read(k) =>
      var read := v.loops[k].read;
      v.(loops := v.loops[k := v.loops[k].(read := read + [Observe(v.streams[|read|].stream)])])
    case Decide(k, active) => Ruled(v, k, active, VerdictOf(v, k))
    case FillOne(k) => Filled(v, k)
    case Submit(k) => Submitted(v, k)
    case Propagated(k) => v.(loops := v.loops[k := Leaving(Waiting)])
    case Leave(k) =>
      var o := OnLoopEnd(v.protocol);
      v.(protocol := o.protocol,
         loops := if o.enters then v.loops[k := StartPass(o.protocol.Allowance())] else Remove(v.loops, k))
    case Begin(k) =>
      v.(queued := Remove(v.queued, k), running := v.running + [v.queued[k]],
         aborted := v.aborted || v.protocol.status == Closed)
    case ShutInput(i) => v.(streams := v.streams[i := Apply(v.streams[i], Shut)])
    case SetClosed => v.(protocol := v.protocol.(status := Closed))
    case End(k) =>
      var o := OnEndScheduling(v.protocol);
      v.(protocol := o.protocol, running := Remove(v.running, k),
         loops := if o.enters then v.loops + [Entering] else v.loops,
         aborted := v.aborted || o.protocol.inFlight < 0)
  }

  predicate Init(v: Node) {
    && v.streams != []
    && (forall i :: 0 <= i < |v.streams| ==>
          v.streams[i] == Tracked(EmptyStream(v.streams[i].stream.packetType, v.streams[i].stream.maxSize), [], []))
    && v.lastProcessed == UNSET
    && v.protocol == Protocol(Prepared, Idle, 0, v.protocol.maxInFlight)
    && v.protocol.maxInFlight >= 1
    && !v.closePrepared && v.loops == [] && v.queued == [] && v.running == [] && v.checks == 0
    && v.log == [] && v.seen == [] && !v.drained && !v.failed && !v.aborted
  }
}
