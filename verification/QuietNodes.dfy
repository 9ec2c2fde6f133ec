/** What a node that has nothing to do tells the rest of the graph. */
module QuietNodes {
  import opened Timestamps
  import opened InputStreams
  import opened SyncSets
  import opened NodeProtocol
  import opened NodeRuns
  import opened NodeInvariants
  import opened NodeWakeups
  import opened NodeTheorems

  /** A set is being filled or handed over. */
  predicate IsFilling(v: Node) {
    v.loops != [] && (v.loops[0].Filling? || (v.loops[0].Submitting? && v.loops[0].task.Process?))
  }

  /** The last processed timestamp is that of the set in hand, or else that of the
      last one handed over. */
  predicate LastInv(v: Node) {
    !v.drained ==>
      v.lastProcessed == if IsFilling(v) then TimeOf(v) else if v.log == [] then UNSET else Horizon(v.log)
  }

  lemma {:induction false} RuledLast(v: Node, active: bool)
    requires v.loops != [] && v.loops[0].Scanning? && LastInv(v)
    ensures LastInv(Ruled(v, 0, active, VerdictOf(v, 0)))
  {
    VerdictKeepsLast(MinimaOf(v.loops[0].read), v.processTimestamps, v.lastProcessed);
    RuledLastPoint(v, active, VerdictOf(v, 0));
  }

  lemma {:induction false} RuledLastPoint(v: Node, active: bool, verdict: Verdict)
    requires v.loops != [] && v.loops[0].Scanning? && LastInv(v)
    requires verdict.readiness == NotReady ==> verdict.lastProcessed == v.lastProcessed
    requires verdict.readiness == ReadyForProcess ==> verdict.lastProcessed == verdict.timestamp
    ensures LastInv(Ruled(v, 0, active, verdict))
  {
  }

  lemma {:induction false} SubmittedLast(v: Node)
    requires ThreadInv(v) && v.loops != [] && v.loops[0].Submitting? && LastInv(v)
    ensures LastInv(Submitted(v, 0))
  {
    SubmittedThread(v, 0);
    if v.loops[0].task.Process? {
      SubmittedHandsOver(v);
    }
  }

  lemma {:induction false} FilledLast(v: Node)
    requires v.loops != [] && v.loops[0].Filling? && |v.loops[0].row| < |v.streams| && LastInv(v)
    ensures LastInv(Filled(v, 0))
  {
    var w := Filled(v, 0);
    FilledGoes(v);
    assert IsFilling(w) && TimeOf(w) == TimeOf(v) && w.lastProcessed == v.lastProcessed;
  }

  /** No other step touches a thread that is filling or handing over. */
  lemma {:induction false} BusyThreadStays(v: Node, step: Step)
    requires ThreadInv(v) && Enabled(v, step) && IsPlain(step)
    requires v.loops != [] && (v.loops[0].Filling? || v.loops[0].Submitting?)
    ensures Take(v, step).loops == v.loops
  {
    assert !(step.Enter? || step.Read? || step.Propagated? || step.Leave?);
    assert v.protocol.scheduling != Idle;
  }

  lemma {:induction false} PlainLast(v: Node, step: Step)
    requires ThreadInv(v) && Enabled(v, step) && IsPlain(step) && LastInv(v)
    ensures LastInv(Take(v, step))
  {
    PlainFrame(v, step);
    PlainRow(v, step);
    if IsFilling(v) {
      BusyThreadStays(v, step);
    }
  }

  lemma {:induction false} LastStep(v: Node, step: Step)
    requires ThreadInv(v) && LastInv(v) && Enabled(v, step)
    ensures LastInv(Take(v, step))
  {
    if step.Produce? || step.ShutInput? {
    } else if step.FillOne? {
      assert step.k == 0;
      FilledLast(v);
    } else if step.Decide? {
      assert step.k == 0;
      RuledLast(v, step.active);
    } else if step.Submit? {
      assert step.k == 0;
      SubmittedLast(v);
    } else {
      PlainLast(v, step);
    }
  }

  // ----------------------------------------------------- coming to rest

  /** A node whose last scan found nothing and whose outputs have been told so. */
  predicate RestPoint(v: Node) {
    || (v.loops == [] && v.protocol.inFlight == 0 && v.checks == 0)
    || (v.loops != [] && v.loops[0] == Leaving(Waiting))
  }

  predicate SameRest(v: Node, w: Node) {
    && RestPoint(v) && Listening(v)
    && w.seen == v.seen && w.lastProcessed == v.lastProcessed && w.processTimestamps == v.processTimestamps
  }

  lemma {:induction false} PlainRestPoint(v: Node, step: Step)
    requires ThreadInv(v) && Enabled(v, step) && IsPlain(step) && !step.Propagated?
    requires RestPoint(Take(v, step)) && Listening(Take(v, step))
    ensures RestPoint(v) && Listening(v)
  {
  }

  lemma {:induction false} ProducedRestPoint(v: Node, step: Step)
    requires ThreadInv(v) && TaskInv(v) && Enabled(v, step) && (step.Produce? || step.ShutInput?)
    requires RestPoint(Take(v, step)) && Listening(Take(v, step))
    ensures SameRest(v, Take(v, step))
  {
  }

  lemma {:induction false} FilledIsNotRest(v: Node)
    requires ThreadInv(v) && Enabled(v, FillOne(0))
    ensures !RestPoint(Filled(v, 0))
  {
    FilledGoes(v);
  }

  lemma {:induction false} SubmittedIsNotRest(v: Node)
    requires ThreadInv(v) && Enabled(v, Submit(0))
    ensures !RestPoint(Submitted(v, 0))
  {
    SubmittedThread(v, 0);
  }

  lemma {:induction false} BusyIsNotRest(v: Node, step: Step)
    requires ThreadInv(v) && Enabled(v, step) && (step.FillOne? || step.Decide? || step.Submit?)
    ensures !RestPoint(Take(v, step))
  {
    assert step.k == 0;
    if step.FillOne? {
      FilledIsNotRest(v);
    } else if step.Decide? {
      RuledFrame(v, step.active, VerdictOf(v, 0));
    } else {
      SubmittedIsNotRest(v);
    }
  }

  /** Only the end of a propagation brings a node to rest. */
  lemma {:induction false} RestComesFromPropagating(v: Node, step: Step)
    requires ThreadInv(v) && TaskInv(v) && Enabled(v, step) && !step.Propagated?
    requires RestPoint(Take(v, step)) && Listening(Take(v, step))
    ensures SameRest(v, Take(v, step))
  {
    if step.FillOne? || step.Decide? || step.Submit? {
      BusyIsNotRest(v, step);
    } else if step.Produce? || step.ShutInput? {
      ProducedRestPoint(v, step);
    } else {
      PlainFrame(v, step);
      PlainRestPoint(v, step);
    }
  }

  lemma {:induction false} FailureStays(v: Node, step: Step)
    requires ThreadInv(v) && Enabled(v, step) && v.failed
    ensures Take(v, step).failed
  {
    if step.Decide? {
      assert step.k == 0;
      RuledFrame(v, step.active, VerdictOf(v, 0));
    } else if step.Submit? {
      assert Submitted(v, step.k).failed;
    } else if step.FillOne? {
      assert Filled(v, step.k).failed;
    }
  }

  // ------------------------------------------------- what rest says

  /** An empty stream with the lowest bound, if there is one. */
  lemma {:induction false} LowestBound(v: Node, low: Timestamp)
    requires forall j :: 0 <= j < |v.streams| ==> v.streams[j].stream.bound >= low
    ensures var b := MinimaOf(ObserveAll(Plain(v.streams))).bound;
            && b >= low
            && (b == DONE || exists j :: 0 <= j < |v.streams| && v.streams[j].stream.bound == b)
  {
    var obs := ObserveAll(Plain(v.streams));
    var b := MinimaOf(obs).bound;
    if b != DONE {
      var j :| 0 <= j < |obs| && obs[j].empty && obs[j].timestamp == b;
      assert obs[j] == Observe(v.streams[j].stream);
    }
  }

  /** A queued packet is later than everything processed. */
  lemma {:induction false} FirstPacketFresh(v: Node)
    requires StreamsInv(v) && LogInv(v) && LastInv(v) && !IsFilling(v) && !v.drained
    ensures var t := MinimaOf(ObserveAll(Plain(v.streams))).packet;
            t == DONE ||
            (&& IsAllowedInStream(t) && t > Max2(v.lastProcessed, UNSTARTED)
             && exists j :: 0 <= j < |v.streams| && HeadAt(v.streams[j].stream, t))
  {
    var obs := ObserveAll(Plain(v.streams));
    var t := MinimaOf(obs).packet;
    if t != DONE {
      var j :| 0 <= j < |obs| && !obs[j].empty && obs[j].timestamp == t;
      assert obs[j] == Observe(v.streams[j].stream) && HeadAt(v.streams[j].stream, t);
      QueueInHistory(v.streams[j]);
      assert Beyond(v.streams[j].stream, Horizon(v.log));
    }
  }

  lemma {:induction false} DrainedIsDone(v: Node)
    requires NodeInv(v) && v.drained
    ensures var m := MinimaOf(ObserveAll(Plain(v.streams)));
            m.packet == DONE && m.bound >= ONE_OVER_POST_STREAM
  {
    var obs := ObserveAll(Plain(v.streams));
    assert forall j :: 0 <= j < |obs| ==> Done(v.streams[j].stream) && obs[j] == Observe(v.streams[j].stream);
  }

  /** Bounds at which timestamp-bound processing may miss a packet. */
  predicate HasPredecessor(b: Timestamp) {
    b != MIN && b != POST_STREAM
  }

  /** Nothing is ready only if the lowest bound is no later than the first packet,
      and that bound is the timestamp the node passes on. */
  lemma {:induction false} NotReadyMeansBound(v: Node)
    requires NodeInv(v) && LastInv(v) && !IsFilling(v)
    requires var m := MinimaOf(ObserveAll(Plain(v.streams)));
             && Judge(m, v.processTimestamps, v.lastProcessed).readiness == NotReady
             && (v.processTimestamps && m.packet < m.bound ==> HasPredecessor(m.bound))
    ensures var m := MinimaOf(ObserveAll(Plain(v.streams)));
            && m.bound <= m.packet && m.bound < ONE_OVER_POST_STREAM
            && Judge(m, v.processTimestamps, v.lastProcessed).timestamp == m.bound
  {
    var m := MinimaOf(ObserveAll(Plain(v.streams)));
    if v.drained {
      DrainedIsDone(v);
    } else {
      FirstPacketFresh(v);
      if v.processTimestamps && m.packet < m.bound {
        BoundProcessingMisses(m, v.lastProcessed);
      }
    }
  }

  predicate Quieted(v: Node) {
    Quiescent(v) && v.protocol.status == Opened && !v.failed
  }

  predicate HeadsAreRange(v: Node) {
    forall j :: 0 <= j < |v.streams| && v.streams[j].stream.queue != [] ==>
      IsRange(v.streams[j].stream.queue[0].timestamp)
  }

  /** A quiescent node none of whose inputs has a bound below `low` has passed on
      a bound not below `low` and keeps no packet older than `low`. */
  lemma {:induction false} QuietAtLeast(v: Node, low: Timestamp)
    requires NodeInv(v) && LastInv(v) && Quieted(v) && IsRange(low)
    requires forall j :: 0 <= j < |v.streams| ==>
               v.streams[j].stream.bound >= low && v.streams[j].stream.bound != POST_STREAM
    requires v.processTimestamps ==> HeadsAreRange(v)
    ensures LastVerdict(v).timestamp >= low && IsRange(LastVerdict(v).timestamp)
    ensures forall j, k :: 0 <= j < |v.streams| && 0 <= k < |v.streams[j].stream.queue| ==>
              v.streams[j].stream.queue[k].timestamp >= low
  {
    QuiescentSeesAll(v);
    var m := MinimaOf(ObserveAll(Plain(v.streams)));
    LowestBound(v, low);
    if v.processTimestamps && m.packet < m.bound {
      PacketIsRange(v);
    }
    NotReadyMeansBound(v);
    forall j, k | 0 <= j < |v.streams| && 0 <= k < |v.streams[j].stream.queue|
      ensures v.streams[j].stream.queue[k].timestamp >= low
    {
      QueueInHistory(v.streams[j]);
      assert ObserveAll(Plain(v.streams))[j] == Observe(v.streams[j].stream);
    }
  }

  lemma {:induction false} PacketIsRange(v: Node)
    requires HeadsAreRange(v)
    requires MinimaOf(ObserveAll(Plain(v.streams))).packet < DONE
    ensures IsRange(MinimaOf(ObserveAll(Plain(v.streams))).packet)
  {
    var obs := ObserveAll(Plain(v.streams));
    var j :| 0 <= j < |obs| && !obs[j].empty && obs[j].timestamp == MinimaOf(obs).packet;
    assert obs[j] == Observe(v.streams[j].stream);
  }

  /** A node whose inputs have all ended does not stay open. */
  lemma {:induction false} EndedIsNotQuiet(v: Node)
    requires NodeInv(v) && LastInv(v) && Quiescent(v) && !v.failed
    requires v.protocol.status == Opened || v.protocol.status == Closed
    requires forall j :: 0 <= j < |v.streams| ==> v.streams[j].stream.bound >= ONE_OVER_POST_STREAM
    ensures v.protocol.status == Closed
  {
    if v.protocol.status == Opened {
      QuiescentSeesAll(v);
      LowestBound(v, ONE_OVER_POST_STREAM);
      NotReadyMeansBound(v);
    }
  }
}
