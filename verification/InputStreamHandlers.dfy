/** The consumer's side of a node's input streams, in place: reading them one by
    one to decide, and popping them one by one to fill an input set. The streams
    are shared objects, and here nobody else touches them in between; `NodeRuns`
    lets producers in between any two of these reads and pops. */
module InputStreamHandlers {
  import opened Timestamps
  import opened InputStreams
  import opened SyncSets

  /** A stream that a scan has found ready to be popped at `t`. */
  ghost predicate Fillable(x: Tracked, t: Timestamp) {
    Consistent(x) && IsAllowedInStream(t) && x.stream.lastSelect <= t && SettledAt(x.stream, t)
  }

  /** Nothing is dropped, and the packet at `t` is taken where there is one. */
  ghost predicate PopsWhole(x: Tracked, t: Timestamp)
    requires Legal(x.stream, Op.Pop(t))
  {
    && Apply(x, Op.Pop(t)).stream == Advance(x.stream, t) && Dropped(x.stream, t) == 0
    && (HeadAt(x.stream, t) ==> Selected(x.stream, t) == x.stream.queue[0])
    && (!HeadAt(x.stream, t) ==> Selected(x.stream, t).payload == Empty)
  }

  lemma {:induction false} FillsWhole(xs: seq<Tracked>, t: Timestamp)
    requires forall i :: 0 <= i < |xs| ==> Fillable(xs[i], t)
    ensures forall i :: 0 <= i < |xs| ==> Legal(xs[i].stream, Op.Pop(t)) && PopsWhole(xs[i], t)
  {
    forall i | 0 <= i < |xs|
      ensures Legal(xs[i].stream, Op.Pop(t)) && PopsWhole(xs[i], t)
    {
      PopSettled(xs[i], t);
    }
  }

  class SyncSet {
    const streams: seq<InputStreamManager>
    const processTimestamps: bool
    var lastProcessedTs: Timestamp

    ghost predicate Valid() {
      forall i, j :: 0 <= i < j < |streams| ==> streams[i] != streams[j]
    }

    ghost function States(): (ss: seq<Stream>)
      reads streams
      ensures |ss| == |streams| && forall i :: 0 <= i < |streams| ==> ss[i] == streams[i].State()
    {
      seq(|streams|, i requires 0 <= i < |streams| reads streams => streams[i].State())
    }

    constructor (streams: seq<InputStreamManager>, processTimestamps: bool)
      requires forall i, j :: 0 <= i < j < |streams| ==> streams[i] != streams[j]
      ensures Valid() && this.streams == streams && this.processTimestamps == processTimestamps
      ensures lastProcessedTs == UNSET
    {
      this.streams := streams;
      this.processTimestamps := processTimestamps;
      lastProcessedTs := UNSET;
    }

    /** The first half of GetReadiness: one look at each stream in turn. */
    method ReadMinima() returns (minBound: Timestamp, minPacket: Timestamp)
      ensures Minima(minBound, minPacket) == MinimaOf(ObserveAll(States()))
    {
      ghost var obs := ObserveAll(States());
      minBound, minPacket := DONE, DONE;
      var i := 0;
      while i < |streams|
        invariant 0 <= i <= |streams|
        invariant Minima(minBound, minPacket) == MinimaOf(obs[..i])
      {
        var stream := streams[i];
        var empty := stream.queue == [];
        var streamTimestamp := if empty then stream.nextTimestampBound else stream.queue[0].timestamp;
        assert obs[i] == Observation(streamTimestamp, empty);
        if empty {
          minBound := Min2(minBound, streamTimestamp);
        } else {
          minPacket := Min2(minPacket, streamTimestamp);
        }
        i := i + 1;
        assert obs[..i][..i - 1] == obs[..i - 1];
      }
      assert obs[..i] == obs;
    }

    method GetReadiness() returns (readiness: Readiness, minStreamTimestamp: Timestamp)
      modifies this`lastProcessedTs
      ensures Verdict(readiness, minStreamTimestamp, lastProcessedTs)
              == old(Judge(MinimaOf(ObserveAll(States())), processTimestamps, lastProcessedTs))
    {
      var minBound, minPacket := ReadMinima();
      minStreamTimestamp := Min2(minPacket, minBound);
      readiness := NotReady;
      if minStreamTimestamp >= ONE_OVER_POST_STREAM {
        minStreamTimestamp := DONE;
        lastProcessedTs := Previous(DONE);
        readiness := ReadyForClose;
      } else if !processTimestamps {
        if minBound > minPacket {
          lastProcessedTs := minStreamTimestamp;
          readiness := ReadyForProcess;
        }
      } else {
        var settled := if minPacket == POST_STREAM && minBound > minPacket then minPacket else Previous(minBound);
        var inputTimestamp := Min2(minPacket, settled);
        if inputTimestamp > Max2(lastProcessedTs, UNSTARTED) {
          minStreamTimestamp := inputTimestamp;
          lastProcessedTs := inputTimestamp;
          readiness := ReadyForProcess;
        }
      }
    }

    /** Pops every stream at `t`. Where the streams are settled at `t` the set gets
        the packet of each stream that has one there, and none is dropped. */
    method FillInputSet(t: Timestamp, ghost xs: seq<Tracked>)
      returns (packets: seq<Packet>, numPacketsDropped: seq<int>)
      requires Valid() && IsAllowedInStream(t)
      requires |xs| == |streams|
      requires forall i :: 0 <= i < |xs| ==>
                 xs[i].stream == streams[i].State() && Fillable(xs[i], t)
      modifies streams
      ensures |packets| == |numPacketsDropped| == |streams|
      ensures forall i :: 0 <= i < |streams| ==>
                && Fillable(xs[i], t) && streams[i].State() == Apply(xs[i], Op.Pop(t)).stream
                && numPacketsDropped[i] == 0
                && (HeadAt(xs[i].stream, t) ==> packets[i] == xs[i].stream.queue[0])
                && (!HeadAt(xs[i].stream, t) ==> packets[i].payload == Empty)
    {
      packets, numPacketsDropped := [], [];
      var i := 0;
      while i < |streams|
        invariant 0 <= i <= |streams| && |packets| == |numPacketsDropped| == i
        invariant forall j :: i <= j < |streams| ==> streams[j].State() == xs[j].stream
        invariant forall j :: 0 <= j < i ==>
                    && streams[j].State() == Advance(xs[j].stream, t)
                    && packets[j] == Selected(xs[j].stream, t)
                    && numPacketsDropped[j] == Dropped(xs[j].stream, t)
      {
        var packet, dropped, _, _ := streams[i].PopPacketAtTimestamp(t);
        packets, numPacketsDropped := packets + [packet], numPacketsDropped + [dropped];
        i := i + 1;
      }
      FillsWhole(xs, t);
    }
  }
}
