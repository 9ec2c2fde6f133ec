/** No wake-up is lost: if a stream shows something the last scan did not see,
    then somebody is still due to look again. */
module NodeWakeups {
  import opened InputStreams
  import opened SyncSets
  import opened NodeProtocol
  import opened NodeRuns
  import opened NodeInvariants

  /** An open node that still has to notice what arrives. */
  predicate Listening(v: Node) {
    v.protocol.status == Opened && !v.failed && !v.closePrepared
  }

  function LastRead(v: Node): seq<Observation> {
    if v.loops != [] && v.loops[0].Scanning? then v.loops[0].read else v.seen
  }

  predicate Current(v: Node, j: nat)
    requires j < |v.streams|
  {
    j < |LastRead(v)| && LastRead(v)[j] == Observe(v.streams[j].stream)
  }

  /** A call is outstanding, another pass is due, no invocation may start before
      one ends, or the loop has yet to read stream `j`. */
  predicate LookDue(v: Node, j: nat) {
    || v.checks > 0
    || v.protocol.scheduling == SchedulingPending
    || v.protocol.inFlight == v.protocol.maxInFlight
    || (v.loops != [] && PointReads(v.loops[0], j))
  }

  predicate PointReads(at: LoopPoint, j: nat) {
    match at
    case Scanning(read, _) => j >= |read|
    case Propagating(_) => false
    case Leaving(_) => false
    case _ => true
  }

  ghost predicate WakeInv(v: Node) {
    Listening(v) ==> forall j :: 0 <= j < |v.streams| ==> Current(v, j) || LookDue(v, j)
  }

  /** A change that a scan could see is signalled. */
  lemma {:induction false} UnsignalledIsUnseen(x: Tracked, op: Op)
    requires !op.Pop? && !op.Shut? && Succeeds(x.stream, op) && !Signals(x.stream, op)
    ensures Observe(Apply(x, op).stream) == Observe(x.stream)
  {
    if op.Add? && !x.stream.closed {
      PushAllAppends(x.stream, op.batch);
    }
  }

  /** What can be said of a batch beforehand: it will be taken whole, or not at all,
      or it meets a queue whose first packet stays first. */
  predicate AddsLoudly(s: Stream, batch: seq<Packet>) {
    || s.closed
    || AcceptedCount(s, batch) == |batch|
    || AcceptedCount(s, batch) == 0
    || s.queue != []
  }

  /** Errors included: a producer's change that a scan could see is signalled if and
      only if it is not a batch rejected half way on an empty queue. */
  lemma {:induction false} VisibleIsSignalledIff(x: Tracked, op: Op)
    requires Consistent(x) && !op.Pop? && !op.Shut?
    ensures (Observe(Apply(x, op).stream) != Observe(x.stream) ==> Signals(x.stream, op))
            <==> (op.Add? ==> AddsLoudly(x.stream, op.batch))
  {
    if op.Add? && !x.stream.closed {
      PushAllAppends(x.stream, op.batch);
    }
  }

  lemma {:induction false} ProducedWake(v: Node, i: nat, op: Op)
    requires WakeInv(v) && i < |v.streams| && !op.Pop? && !op.Shut?
    ensures WakeInv(Produced(v, i, op))
  {
    var w := Produced(v, i, op);
    if Listening(w) && !Signals(v.streams[i].stream, op) {
      UnsignalledIsUnseen(v.streams[i], op);
      forall j | 0 <= j < |w.streams|
        ensures Current(w, j) || LookDue(w, j)
      {
        assert Current(v, j) || LookDue(v, j);
      }
    }
  }

  /** What a verdict leaves alone. */
  lemma {:induction false} RuledKeeps(v: Node, active: bool, verdict: Verdict)
    requires v.loops != [] && v.loops[0].Scanning?
    ensures var w := Ruled(v, 0, active, verdict);
            && w.protocol == v.protocol && w.checks == v.checks
            && w.closePrepared == v.closePrepared && w.failed == v.failed
            && w.processTimestamps == v.processTimestamps
  {
  }

  /** Where a verdict sends the thread. */
  lemma {:induction false} RuledGoes(v: Node, active: bool, verdict: Verdict)
    requires v.loops != [] && v.loops[0].Scanning?
    ensures var w := Ruled(v, 0, active, verdict);
            && w.seen == v.loops[0].read && w.lastProcessed == verdict.lastProcessed
            && |w.loops| == |v.loops| && !w.loops[0].Scanning? && w.loops[0] != Leaving(Waiting)
            && (w.loops[0].Propagating? ==> verdict.readiness == NotReady && w.loops[0].bound == verdict.timestamp)
  {
  }

  lemma {:induction false} RuledFrame(v: Node, active: bool, verdict: Verdict)
    requires v.loops != [] && v.loops[0].Scanning?
    ensures var w := Ruled(v, 0, active, verdict);
            && w.protocol == v.protocol && w.checks == v.checks && w.seen == v.loops[0].read
            && w.closePrepared == v.closePrepared && w.failed == v.failed
            && w.processTimestamps == v.processTimestamps && w.lastProcessed == verdict.lastProcessed
            && |w.loops| == |v.loops| && !w.loops[0].Scanning? && w.loops[0] != Leaving(Waiting)
            && (w.loops[0].Propagating? ==> verdict.readiness == NotReady && w.loops[0].bound == verdict.timestamp)
  {
    RuledKeeps(v, active, verdict);
    RuledGoes(v, active, verdict);
  }

  /** The scan a verdict was based on is the last one read. */
  lemma {:induction false} RuledWake(v: Node, k: nat, active: bool, verdict: Verdict)
    requires ThreadInv(v) && WakeInv(v) && Enabled(v, Decide(k, active))
    ensures WakeInv(Ruled(v, k, active, verdict))
  {
    assert k == 0;
    RuledFrame(v, active, verdict);
    RuledWakes(v, Ruled(v, 0, active, verdict));
  }

  lemma {:induction false} RuledWakes(v: Node, w: Node)
    requires WakeInv(v) && v.loops != [] && v.loops[0].Scanning? && |v.loops[0].read| == |v.streams|
    requires && w.protocol == v.protocol && w.checks == v.checks && w.seen == v.loops[0].read
             && w.closePrepared == v.closePrepared && w.failed == v.failed && w.streams == v.streams
             && w.loops != [] && !w.loops[0].Scanning?
    ensures WakeInv(w)
  {
    forall j | 0 <= j < |w.streams| && Listening(w)
      ensures Current(w, j) || LookDue(w, j)
    {
      assert Current(v, j) || LookDue(v, j);
    }
  }

  lemma {:induction false} ReadWake(v: Node, k: nat)
    requires ThreadInv(v) && WakeInv(v) && Enabled(v, Read(k))
    ensures WakeInv(Take(v, Read(k)))
  {
    assert k == 0;
    var w := Take(v, Read(k));
    if Listening(w) {
      forall j | 0 <= j < |w.streams|
        ensures Current(w, j) || LookDue(w, j)
      {
        assert Current(v, j) || LookDue(v, j);
      }
    }
  }

  /** Steps after which every stream is due for another look. */
  lemma {:induction false} FreshWake(v: Node, step: Step)
    requires ThreadInv(v) && Enabled(v, step) && Listening(Take(v, step))
    requires step.Open? || step.Check? || step.Enter? || step.Submit? || step.End?
    ensures forall j: nat :: LookDue(Take(v, step), j)
  {
    if step.Submit? {
      assert step.k == 0;
      SubmittedThread(v, 0);
    }
  }

  lemma {:induction false} FilledWake(v: Node, k: nat)
    requires ThreadInv(v) && Enabled(v, FillOne(k))
    ensures forall j: nat :: LookDue(Filled(v, k), j)
  {
    assert k == 0;
    FilledGoes(v);
  }

  lemma {:induction false} LeftWake(v: Node, k: nat)
    requires ThreadInv(v) && WakeInv(v) && Enabled(v, Leave(k))
    ensures WakeInv(Take(v, Leave(k)))
  {
    assert k == 0;
    var w := Take(v, Leave(k));
    if Listening(w) && w.loops == [] {
      forall j | 0 <= j < |w.streams|
        ensures Current(w, j) || LookDue(w, j)
      {
        assert Current(v, j) || LookDue(v, j);
      }
    }
  }

  lemma {:induction false} OtherWake(v: Node, step: Step)
    requires ThreadInv(v) && TaskInv(v) && WakeInv(v) && Enabled(v, step)
    requires step.Propagated? || step.Begin? || step.ShutInput? || step.SetClosed?
    ensures WakeInv(Take(v, step))
  {
    var w := Take(v, step);
    if Listening(w) {
      forall j | 0 <= j < |w.streams|
        ensures Current(w, j) || LookDue(w, j)
      {
        assert Current(v, j) || LookDue(v, j);
      }
    }
  }

  lemma {:induction false} WakeStep(v: Node, step: Step)
    requires ThreadInv(v) && TaskInv(v) && WakeInv(v) && Enabled(v, step)
    ensures WakeInv(Take(v, step))
  {
    if step.Produce? {
      ProducedWake(v, step.i, step.op);
    } else if step.Decide? {
      RuledWake(v, step.k, step.active, VerdictOf(v, step.k));
    } else if step.Read? {
      ReadWake(v, step.k);
    } else if step.FillOne? {
      FilledWake(v, step.k);
    } else if step.Leave? {
      LeftWake(v, step.k);
    } else if step.Propagated? || step.Begin? || step.ShutInput? || step.SetClosed? {
      OtherWake(v, step);
    } else if Listening(Take(v, step)) {
      FreshWake(v, step);
    }
  }

  // ------------------------------------------------------------- at rest

  function LastVerdict(v: Node): Verdict {
    Judge(MinimaOf(v.seen), v.processTimestamps, v.lastProcessed)
  }

  /** The last complete scan found nothing to do. */
  predicate AtRest(v: Node) {
    |v.seen| == |v.streams| && LastVerdict(v).readiness == NotReady
  }

  ghost predicate RestInv(v: Node) {
    Listening(v) ==>
      && (v.loops == [] && v.protocol.inFlight == 0 && v.checks == 0 ==> AtRest(v))
      && (v.loops != [] && v.loops[0].Propagating? ==>
            AtRest(v) && v.loops[0].bound == LastVerdict(v).timestamp)
      && (v.loops != [] && v.loops[0] == Leaving(Waiting) ==> AtRest(v))
  }

  lemma {:induction false} RuledRest(v: Node, k: nat, active: bool)
    requires ThreadInv(v) && RestInv(v) && Enabled(v, Decide(k, active))
    ensures RestInv(Ruled(v, k, active, VerdictOf(v, k)))
  {
    assert k == 0;
    RuledFrame(v, active, VerdictOf(v, k));
    VerdictKeepsLast(MinimaOf(v.loops[k].read), v.processTimestamps, v.lastProcessed);
  }

  lemma {:induction false} SubmittedRest(v: Node, k: nat)
    requires ThreadInv(v) && Enabled(v, Submit(k))
    ensures RestInv(Submitted(v, k))
  {
    assert k == 0;
    SubmittedThread(v, 0);
  }

  lemma {:induction false} FilledRest(v: Node)
    requires ThreadInv(v) && RestInv(v) && Enabled(v, FillOne(0))
    ensures RestInv(Filled(v, 0))
  {
  }

  lemma {:induction false} TouchedRest(v: Node, step: Step)
    requires ThreadInv(v) && RestInv(v) && Enabled(v, step) && TouchesStreams(step)
    ensures RestInv(Take(v, step))
  {
    if step.FillOne? {
      assert step.k == 0;
      FilledRest(v);
    }
  }

  lemma {:induction false} OtherRest(v: Node, step: Step)
    requires ThreadInv(v) && TaskInv(v) && RestInv(v) && Enabled(v, step) && IsPlain(step)
    ensures RestInv(Take(v, step))
  {
    PlainFrame(v, step);
    var w := Take(v, step);
    assert w.processTimestamps == v.processTimestamps && AtRest(v) == AtRest(w);
  }

  lemma {:induction false} RestStep(v: Node, step: Step)
    requires ThreadInv(v) && TaskInv(v) && RestInv(v) && Enabled(v, step)
    ensures RestInv(Take(v, step))
  {
    if TouchesStreams(step) {
      TouchedRest(v, step);
    } else if step.Decide? {
      RuledRest(v, step.k, step.active);
    } else if step.Submit? {
      SubmittedRest(v, step.k);
    } else {
      OtherRest(v, step);
    }
  }
}
