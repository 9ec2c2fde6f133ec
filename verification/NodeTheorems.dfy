/** What holds over every run of a node, under every interleaving. */
module NodeTheorems {
  import opened Collections
  import opened Timestamps
  import opened InputStreams
  import opened SyncSets
  import ReadinessLaws
  import opened NodeProtocol
  import opened NodeRuns
  import opened NodeInvariants
  import opened NodeWakeups

  ghost predicate NodeInv(v: Node) {
    && v.streams != []
    && ThreadInv(v) && StreamsInv(v) && ScanInv(v) && DrainInv(v) && TaskInv(v)
    && SetsInv(v) && WakeInv(v) && RestInv(v)
  }

  lemma {:induction false} InitLog(v: Node)
    requires Init(v)
    ensures SetsInv(v)
  {
    var hs := CommittedAll(v.streams, []);
    assert forall i :: 0 <= i < |hs| ==> v.streams[i].removed == [] && hs[i] == [];
    assert AllEmpty(hs) && Merge(hs) == [];
  }

  lemma {:induction false} InitHolds(v: Node)
    requires Init(v)
    ensures NodeInv(v)
  {
    InitLog(v);
    forall i | 0 <= i < |v.streams|
      ensures Consistent(v.streams[i])
    {
      assert v.streams[i].accepted == [];
    }
  }

  lemma {:induction false} StepHolds(v: Node, step: Step)
    requires NodeInv(v) && Enabled(v, step)
    ensures NodeInv(Take(v, step))
  {
    ThreadStep(v, step);
    StreamsStep(v, step);
    ScanStep(v, step);
    DrainStep(v, step);
    TaskStep(v, step);
    SetsStep(v, step);
    WakeStep(v, step);
    RestStep(v, step);
  }

  ghost predicate IsRun(run: seq<Node>, steps: seq<Step>) {
    && |run| == |steps| + 1
    && Init(run[0])
    && (forall i :: 0 <= i < |steps| ==> Enabled(run[i], steps[i]) && run[i + 1] == Take(run[i], steps[i]))
  }

  lemma {:induction false} RunsHold(run: seq<Node>, steps: seq<Step>, i: nat)
    requires IsRun(run, steps) && i < |run|
    ensures NodeInv(run[i])
  {
    if i == 0 {
      InitHolds(run[0]);
    } else {
      RunsHold(run, steps, i - 1);
      StepHolds(run[i - 1], steps[i - 1]);
    }
  }

  // -------------------------------------------------- what one step adds

  /** A stream later in a run: its history has grown, by packets at or above the
      bound it had, and its bound has not fallen. */
  ghost predicate Grew(x: Tracked, y: Tracked) {
    && x.accepted <= y.accepted && x.stream.bound <= y.stream.bound
    && (forall k :: |x.accepted| <= k < |y.accepted| ==> y.accepted[k].timestamp >= x.stream.bound)
  }

  lemma {:induction false} ApplyGrows(x: Tracked, op: Op)
    requires Consistent(x) && Legal(x.stream, op)
    ensures Grew(x, Apply(x, op))
  {
    ApplyKeepsConsistent(x, op);
    if !op.Pop? {
      ProducersOnlyAppend(x, op);
    }
  }

  lemma {:induction false} GrewMore(x: Tracked, y: Tracked, z: Tracked)
    requires Grew(x, y) && Grew(y, z)
    ensures Grew(x, z)
  {
    assert forall k :: |x.accepted| <= k < |y.accepted| ==> z.accepted[k] == y.accepted[k];
  }

  ghost predicate Later(v: Node, w: Node) {
    && |w.streams| == |v.streams| && w.processTimestamps == v.processTimestamps
    && (forall i :: 0 <= i < |v.streams| ==> Grew(v.streams[i], w.streams[i]))
    && v.log <= w.log
  }

  lemma {:induction false} GrewHere(v: Node, w: Node, i: nat)
    requires i < |v.streams| && |w.streams| == |v.streams| && w.streams == v.streams[i := w.streams[i]]
    requires Grew(v.streams[i], w.streams[i]) && w.log == v.log && w.processTimestamps == v.processTimestamps
    ensures Later(v, w)
  {
  }

  lemma {:induction false} FilledIsLater(v: Node)
    requires ThreadInv(v) && StreamsInv(v) && DrainInv(v) && FillInv(v) && SelectInv(v) && Enabled(v, FillOne(0))
    ensures Later(v, Filled(v, 0))
  {
    FillOnePop(v);
    var i, t := |v.loops[0].row|, v.loops[0].t;
    ApplyGrows(v.streams[i], Op.Pop(t));
    GrewHere(v, Filled(v, 0), i);
  }

  lemma {:induction false} ProducedIsLater(v: Node, step: Step)
    requires StreamsInv(v) && Enabled(v, step) && (step.Produce? || step.ShutInput?)
    ensures Later(v, Take(v, step))
  {
    ApplyGrows(v.streams[step.i], if step.Produce? then step.op else Shut);
    GrewHere(v, Take(v, step), step.i);
  }

  lemma {:induction false} SameStreamsLater(v: Node, w: Node)
    requires w.streams == v.streams && v.log <= w.log && w.processTimestamps == v.processTimestamps
    ensures Later(v, w)
  {
  }

  lemma {:induction false} RuledIsLater(v: Node, k: nat, active: bool, verdict: Verdict)
    requires k < |v.loops| && v.loops[k].Scanning?
    ensures Later(v, Ruled(v, k, active, verdict))
  {
    var w := Ruled(v, k, active, verdict);
    assert w.log == v.log && w.processTimestamps == v.processTimestamps;
    SameStreamsLater(v, w);
  }

  lemma {:induction false} SubmittedIsLater(v: Node, k: nat)
    requires k < |v.loops| && v.loops[k].Submitting?
    ensures Later(v, Submitted(v, k))
  {
    var w := Submitted(v, k);
    assert v.log <= w.log && w.processTimestamps == v.processTimestamps;
    SameStreamsLater(v, w);
  }

  lemma {:induction false} StepIsLater(v: Node, step: Step)
    requires NodeInv(v) && Enabled(v, step)
    ensures Later(v, Take(v, step))
  {
    if step.FillOne? {
      assert step.k == 0;
      FilledIsLater(v);
    } else if step.Produce? || step.ShutInput? {
      ProducedIsLater(v, step);
    } else if step.Decide? {
      RuledIsLater(v, step.k, step.active, VerdictOf(v, step.k));
    } else if step.Submit? {
      SubmittedIsLater(v, step.k);
    } else {
      PlainFrame(v, step);
      SameStreamsLater(v, Take(v, step));
    }
  }

  lemma {:induction false} LaterStill(u: Node, v: Node, w: Node)
    requires Later(u, v) && Later(v, w)
    ensures Later(u, w)
  {
    forall k | 0 <= k < |u.streams|
      ensures Grew(u.streams[k], w.streams[k])
    {
      GrewMore(u.streams[k], v.streams[k], w.streams[k]);
    }
  }

  lemma {:induction false} NextIsLater(run: seq<Node>, steps: seq<Step>, i: nat)
    requires IsRun(run, steps) && i < |steps|
    ensures Later(run[i], run[i + 1])
  {
    RunsHold(run, steps, i);
    StepIsLater(run[i], steps[i]);
  }

  ghost predicate LaterAt(run: seq<Node>, i: nat)
    requires i + 1 < |run|
  {
    Later(run[i], run[i + 1])
  }

  lemma {:induction false} ChainIsLater(run: seq<Node>, i: nat, j: nat)
    requires i <= j < |run| && forall k: nat :: k + 1 < |run| ==> LaterAt(run, k)
    ensures Later(run[i], run[j])
    decreases j
  {
    if i == j {
      SameStreamsLater(run[i], run[j]);
    } else {
      ChainIsLater(run, i, j - 1);
      assert LaterAt(run, j - 1);
      LaterStill(run[i], run[j - 1], run[j]);
    }
  }

  lemma {:induction false} RunIsLater(run: seq<Node>, steps: seq<Step>, i: nat, j: nat)
    requires IsRun(run, steps) && i <= j < |run|
    ensures Later(run[i], run[j])
  {
    forall k: nat | k + 1 < |run|
      ensures LaterAt(run, k)
    {
      NextIsLater(run, steps, k);
    }
    ChainIsLater(run, i, j);
  }

  // ------------------------------------- determinism: what Process is given

  function AcceptedAll(v: Node): (hs: Histories)
    ensures |hs| == |v.streams|
  {
    seq(|v.streams|, i requires 0 <= i < |v.streams| => v.streams[i].accepted)
  }

  /** What stream `i` has handed over for good. */
  function CommittedAt(v: Node, i: nat): seq<Packet>
    requires i < |v.streams|
  {
    Committed(v.streams[i], i < |RowOf(v)| && RowOf(v)[i].Some?)
  }

  function Rest(all: seq<Packet>, done: seq<Packet>): seq<Packet> {
    if |done| <= |all| then all[|done|..] else []
  }

  /** What has not been handed over yet, per stream. */
  function PendingAll(v: Node): (hs: Histories)
    ensures |hs| == |v.streams|
  {
    seq(|v.streams|, i requires 0 <= i < |v.streams| => Rest(v.streams[i].accepted, CommittedAt(v, i)))
  }

  ghost predicate StillAhead(all: seq<Packet>, done: seq<Packet>, low: Timestamp) {
    && done <= all
    && (forall k :: |done| <= k < |all| ==> low < all[k].timestamp < DONE)
  }

  lemma {:induction false} PendingOfStream(x: Tracked, r: Option<Packet>, t: Timestamp, low: Timestamp)
    requires Consistent(x) && Beyond(x.stream, low) && low < t && (r.Some? ==> Taken(x, t, r))
    ensures StillAhead(x.accepted, Committed(x, r.Some?), low)
  {
    var n := |x.removed|;
    assert forall k :: n <= k < |x.accepted| ==> x.accepted[k] == x.stream.queue[k - n];
    assert r.Some? ==> x.accepted[n - 1] == r.value;
  }

  /** The streams the row in hand has reached, and the others. */
  lemma {:induction false} PendingOfNode(v: Node, i: nat)
    requires StreamsInv(v) && LogInv(v) && FillInv(v) && i < |v.streams|
    ensures StillAhead(v.streams[i].accepted, CommittedAt(v, i), Horizon(v.log))
  {
    if i < |RowOf(v)| {
      assert FillingAt(v, TimeOf(v), RowOf(v));
      PendingOfStream(v.streams[i], RowOf(v)[i], TimeOf(v), Horizon(v.log));
    } else {
      PendingOfStream(v.streams[i], None, DONE, Horizon(v.log));
    }
  }

  lemma {:induction false} RestCompletes(all: seq<Packet>, done: seq<Packet>, low: Timestamp)
    requires StillAhead(all, done, low)
    ensures done + Rest(all, done) == all
    ensures forall k :: 0 <= k < |Rest(all, done)| ==> low < Rest(all, done)[k].timestamp < DONE
  {
  }

  lemma {:induction false} RestsComplete(v: Node, low: Timestamp)
    requires forall i :: 0 <= i < |v.streams| ==> StillAhead(v.streams[i].accepted, CommittedAt(v, i), low)
    ensures Join(CommittedAll(v.streams, RowOf(v)), PendingAll(v)) == AcceptedAll(v)
    ensures forall i, k :: 0 <= i < |v.streams| && 0 <= k < |PendingAll(v)[i]| ==>
              low < PendingAll(v)[i][k].timestamp < DONE
  {
    forall i | 0 <= i < |v.streams|
      ensures CommittedAt(v, i) + PendingAll(v)[i] == v.streams[i].accepted
      ensures forall k :: 0 <= k < |PendingAll(v)[i]| ==> low < PendingAll(v)[i][k].timestamp < DONE
    {
      RestCompletes(v.streams[i].accepted, CommittedAt(v, i), low);
    }
    assert forall i :: 0 <= i < |v.streams| ==> CommittedAll(v.streams, RowOf(v))[i] == CommittedAt(v, i);
    assert Join(CommittedAll(v.streams, RowOf(v)), PendingAll(v)) == AcceptedAll(v);
  }

  lemma {:induction false} PendingCompletes(v: Node)
    requires StreamsInv(v) && LogInv(v) && FillInv(v)
    ensures Join(CommittedAll(v.streams, RowOf(v)), PendingAll(v)) == AcceptedAll(v)
    ensures Ordered(PendingAll(v))
    ensures forall i, k :: 0 <= i < |v.streams| && 0 <= k < |PendingAll(v)[i]| ==>
              PendingAll(v)[i][k].timestamp > Horizon(v.log)
  {
    forall i | 0 <= i < |v.streams|
      ensures StillAhead(v.streams[i].accepted, CommittedAt(v, i), Horizon(v.log))
    {
      PendingOfNode(v, i);
    }
    RestsComplete(v, Horizon(v.log));
  }

  /** The sets handed over so far, leaving aside those without a packet, begin the
      merge of everything accepted; what is missing is the merge of the rest. */
  lemma {:induction false} LogBeginsMerge(v: Node)
    requires StreamsInv(v) && LogInv(v) && FillInv(v)
    ensures Ordered(AcceptedAll(v)) && Ordered(PendingAll(v))
    ensures Merge(AcceptedAll(v)) == Carried(v.log) + Merge(PendingAll(v))
  {
    PendingCompletes(v);
    MergeSplits(CommittedAll(v.streams, RowOf(v)), PendingAll(v), Horizon(v.log));
  }

  lemma {:induction false} DrainedHasNoPending(v: Node)
    requires NodeInv(v) && v.drained
    ensures AllEmpty(PendingAll(v))
  {
    assert RowOf(v) == [];
    forall i | 0 <= i < |v.streams|
      ensures PendingAll(v)[i] == []
    {
      assert Consistent(v.streams[i]) && Done(v.streams[i].stream);
    }
  }

  lemma {:induction false} DrainedLog(v: Node)
    requires NodeInv(v) && v.drained
    ensures Ordered(AcceptedAll(v)) && Carried(v.log) == Merge(AcceptedAll(v))
    ensures !v.processTimestamps ==> v.log == Merge(AcceptedAll(v))
  {
    LogBeginsMerge(v);
    DrainedHasNoPending(v);
    assert Carried(v.log) + [] == Carried(v.log);
  }

  lemma {:induction false} CarriedGrows(log: seq<InputSet>, more: seq<InputSet>)
    requires log <= more
    ensures Carried(log) <= Carried(more)
    decreases |more|
  {
    if log == more {
    } else {
      CarriedGrows(log, more[..|more| - 1]);
    }
  }

  /** Determinism. Whatever the interleaving, the sets handed to Process at any
      moment are a prefix of the merge of all packets accepted by any later
      moment, equal to it once a scan has answered "close", and their timestamps
      increase strictly. With timestamp-bound processing the same holds of the
      sets that carry a packet. */
  lemma {:induction false} ProcessesTheMerge(run: seq<Node>, steps: seq<Step>, i: nat, j: nat)
    requires IsRun(run, steps) && i <= j < |run|
    ensures Ordered(AcceptedAll(run[j]))
    ensures Carried(run[i].log) <= Merge(AcceptedAll(run[j]))
    ensures !run[i].processTimestamps ==> run[i].log <= Merge(AcceptedAll(run[j]))
    ensures run[j].drained ==> Carried(run[j].log) == Merge(AcceptedAll(run[j]))
    ensures run[j].drained && !run[j].processTimestamps ==> run[j].log == Merge(AcceptedAll(run[j]))
    ensures Ascending(run[i].log, UNSTARTED)
  {
    RunsHold(run, steps, i);
    RunsHold(run, steps, j);
    RunIsLater(run, steps, i, j);
    LogBeginsMerge(run[j]);
    CarriedGrows(run[i].log, run[j].log);
    if run[j].drained {
      DrainedLog(run[j]);
    }
  }

  /** Every packet once. What Process is given from an input stream, set after set,
      is at any moment a prefix of what that stream has accepted, and all of it once
      a scan has answered "close"; each packet is in a set of its own timestamp. */
  lemma {:induction false} EveryPacketOnce(run: seq<Node>, steps: seq<Step>, i: nat, s: nat, k: nat)
    requires IsRun(run, steps) && i < |run| && s < |run[i].streams|
    ensures ReadinessLaws.Column(Carried(run[i].log), s) <= run[i].streams[s].accepted
    ensures run[i].drained ==> ReadinessLaws.Column(Carried(run[i].log), s) == run[i].streams[s].accepted
    ensures k < |Carried(run[i].log)| ==> ReadinessLaws.WellFilled(Carried(run[i].log)[k])
  {
    ProcessesTheMerge(run, steps, i, i);
    ReadinessLaws.PrefixOfMerge(AcceptedAll(run[i]), Carried(run[i].log), s, k);
  }

  /** Two runs whose streams accept the same packets process the same sets. */
  lemma {:induction false} SamePacketsSameSets(run: seq<Node>, steps: seq<Step>, run': seq<Node>, steps': seq<Step>)
    requires IsRun(run, steps) && IsRun(run', steps')
    requires var v, w := run[|run| - 1], run'[|run'| - 1];
             AcceptedAll(v) == AcceptedAll(w) && v.drained && w.drained && !v.processTimestamps && !w.processTimestamps
    ensures run[|run| - 1].log == run'[|run'| - 1].log
  {
    RunsHold(run, steps, |run| - 1);
    RunsHold(run', steps', |run'| - 1);
    DrainedLog(run[|run| - 1]);
    DrainedLog(run'[|run'| - 1]);
  }

  // ---------------------------------------------- soundness of the scan

  /** A scan is not atomic, and yet its answer is final: once a thread has begun to
      fill the set at `t`, whatever any stream accepts later is after `t`. */
  lemma {:induction false} NothingArrivesLate(run: seq<Node>, steps: seq<Step>, i: nat, j: nat, s: nat, k: nat)
    requires IsRun(run, steps) && i <= j < |run| && s < |run[i].streams|
    requires run[i].loops != [] && run[i].loops[0].Filling?
    ensures |run[j].streams| == |run[i].streams|
    ensures |run[i].streams[s].accepted| <= k < |run[j].streams[s].accepted| ==>
              run[j].streams[s].accepted[k].timestamp > run[i].loops[0].t
  {
    RunsHold(run, steps, i);
    RunIsLater(run, steps, i, j);
    assert FillingAt(run[i], run[i].loops[0].t, run[i].loops[0].row);
    assert run[i].streams[s].stream.bound > run[i].loops[0].t;
  }

  /** Filling a set drops no packet, and none of the code's own checks ever fails. */
  lemma {:induction false} NoCheckFails(run: seq<Node>, steps: seq<Step>, i: nat)
    requires IsRun(run, steps) && i < |run|
    ensures !run[i].aborted
    ensures run[i].loops != [] && run[i].loops[0].Filling? ==>
              && |run[i].loops[0].row| < |run[i].streams|
              && Dropped(run[i].streams[|run[i].loops[0].row|].stream, run[i].loops[0].t) == 0
  {
    RunsHold(run, steps, i);
    if run[i].loops != [] && run[i].loops[0].Filling? {
      FillOnePop(run[i]);
    }
  }

  /** A closed input stream has nothing left in its queue: a node closes its
      streams only after it has drained them. */
  lemma {:induction false} ClosedStreamIsEmpty(run: seq<Node>, steps: seq<Step>, i: nat, s: nat)
    requires IsRun(run, steps) && i < |run| && s < |run[i].streams|
    requires run[i].streams[s].stream.closed
    ensures run[i].streams[s].stream.queue == [] && run[i].drained
  {
    RunsHold(run, steps, i);
    assert Done(run[i].streams[s].stream);
  }

  // ------------------------------------------------------ mutual exclusion

  /** The scheduling state is not idle just while one thread is in the loop; the
      count of invocations stays within its limits and, until the node closes, is
      exactly the number queued or running; beginning one never fails; a closed
      node has none queued. */
  lemma {:induction false} OneSchedulingThread(run: seq<Node>, steps: seq<Step>, i: nat)
    requires IsRun(run, steps) && i < |run|
    ensures var v, p := run[i], run[i].protocol;
            && |v.loops| == (if p.scheduling == Idle then 0 else 1)
            && 0 <= p.inFlight <= p.maxInFlight
            && (p.status != Closed ==> p.inFlight == |v.queued| + |v.running|)
            && (v.loops != [] && v.loops[0].Submitting? ==> OnTryToBegin(p).enters)
            && (p.status == Closed ==> v.queued == [])
  {
    RunsHold(run, steps, i);
    var v := run[i];
    if v.loops != [] && v.loops[0].Submitting? {
      SubmittedThread(v, 0);
    }
  }

  // --------------------------------------------------- no lost wake-up

  /** If a stream shows what the last scan did not see, a look is due. */
  lemma {:induction false} NoLostWakeUp(run: seq<Node>, steps: seq<Step>, i: nat, j: nat)
    requires IsRun(run, steps) && i < |run| && j < |run[i].streams|
    requires Listening(run[i]) && !Current(run[i], j)
    ensures LookDue(run[i], j)
  {
    RunsHold(run, steps, i);
  }

  /** Nothing can move but producers. */
  predicate Quiescent(v: Node) {
    v.checks == 0 && v.loops == [] && v.queued == [] && v.running == []
  }

  lemma {:induction false} QuiescentSeesAll(v: Node)
    requires NodeInv(v) && Quiescent(v) && v.protocol.status == Opened && !v.failed
    ensures v.seen == ObserveAll(Plain(v.streams)) && LastVerdict(v).readiness == NotReady
  {
    assert Listening(v);
    var obs := ObserveAll(Plain(v.streams));
    forall j | 0 <= j < |v.streams|
      ensures j < |v.seen| && v.seen[j] == obs[j]
    {
      assert Current(v, j) || LookDue(v, j);
      assert obs[j] == Observe(v.streams[j].stream);
    }
    assert v.seen == obs;
  }

  lemma {:induction false} StreamsAreSound(v: Node)
    requires StreamsInv(v)
    ensures forall j :: 0 <= j < |v.streams| ==> Sound(Plain(v.streams)[j])
  {
    forall j | 0 <= j < |v.streams|
      ensures Sound(Plain(v.streams)[j])
    {
      QueueInHistory(v.streams[j]);
    }
  }

  /** A quiescent open node has nothing to do: a look at its streams as they are
      now answers "not ready". Without timestamp-bound processing that means that
      nothing can be processed and the streams are not exhausted. */
  lemma {:induction false} QuiescentMeansNothingReady(run: seq<Node>, steps: seq<Step>, i: nat, t: Timestamp)
    requires IsRun(run, steps) && i < |run|
    requires Quiescent(run[i]) && run[i].protocol.status == Opened && !run[i].failed
    ensures Judge(MinimaOf(ObserveAll(Plain(run[i].streams))),
                  run[i].processTimestamps, run[i].lastProcessed).readiness == NotReady
    ensures !run[i].processTimestamps ==>
              !Processable(Plain(run[i].streams), t) && !Exhausted(Plain(run[i].streams))
  {
    RunsHold(run, steps, i);
    QuiescentSeesAll(run[i]);
    StreamsAreSound(run[i]);
    JudgeIsExact(Plain(run[i].streams), run[i].lastProcessed, t);
  }
}
