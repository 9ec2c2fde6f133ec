/** The producer's side of a node's streams, in place. The consumers' streams are
    shared objects; here each update reaches all of them in one go, and
    `OutputStreams` says what holds when consumers work in between. */
module OutputStreamHandlers {
  import opened Collections
  import opened Timestamps
  import opened InputStreams
  import opened OutputStreams

  class OutputStreamShard {
    var outputQueue: seq<Packet>
    var nextTimestampBound: Timestamp
    var updatedNextTimestampBound: Timestamp
    var closed: bool
    const packetType: PacketType

    function State(): Shard
      reads this
    {
      Shard(outputQueue, nextTimestampBound, updatedNextTimestampBound, closed)
    }

    constructor (packetType: PacketType)
      ensures State() == FreshShard(UNSET, false)
    {
      outputQueue, nextTimestampBound, updatedNextTimestampBound, closed := [], UNSET, UNSET, false;
      this.packetType := packetType;
    }

    method SetNextTimestampBound(bound: Timestamp) returns (ok: bool)
      modifies this
      ensures ShardResult(State(), ok) == WithBound(old(State()), bound)
    {
      if !IsAllowedInStream(bound) && bound != ONE_OVER_POST_STREAM {
        return false;
      }
      nextTimestampBound := bound;
      updatedNextTimestampBound := nextTimestampBound;
      ok := true;
    }

    method AddPacket(packet: Packet) returns (ok: bool)
      modifies this
      ensures ShardResult(State(), ok) == WithPacket(old(State()), packetType, packet)
    {
      if closed {
        return false;
      }
      if packet.payload.Empty? {
        ok := SetNextTimestampBound(Next(packet.timestamp));
        return;
      }
      if !IsAllowedInStream(packet.timestamp) || !Validates(packetType, packet) {
        return false;
      }
      outputQueue := outputQueue + [packet];
      nextTimestampBound := Next(packet.timestamp);
      updatedNextTimestampBound := nextTimestampBound;
      ok := true;
    }

    method Close()
      modifies this
      ensures State() == ClosedShard(old(State()))
    {
      closed := true;
      nextTimestampBound := DONE;
      updatedNextTimestampBound := nextTimestampBound;
    }

    method Reset(bound: Timestamp, close: bool)
      modifies this
      ensures State() == FreshShard(bound, close)
    {
      outputQueue := [];
      nextTimestampBound := bound;
      updatedNextTimestampBound := UNSET;
      closed := close;
    }
  }

  /** The manager's own fields. */
  datatype Output = Output(bound: Timestamp, closed: bool, added: nat)

  /** An output and the streams of its consumers. */
  datatype Channel = Channel(output: Output, offset: Option<Int64>, mirrors: seq<Stream>)

  /** A message reaches every consumer. */
  function Sent(c: Channel, m: Message): Channel {
    Channel(
      if m.bound == UNSET then c.output
      else c.output.(bound := m.bound, added := c.output.added + |m.packets|),
      c.offset,
      seq(|c.mirrors|, k requires 0 <= k < |c.mirrors| => Delivered(c.mirrors[k], m)))
  }

  function Ended(c: Channel): Channel {
    if c.output.closed then c
    else
      Channel(
        c.output.(closed := true, bound := DONE),
        c.offset,
        seq(|c.mirrors|, k requires 0 <= k < |c.mirrors| => AfterBound(c.mirrors[k], DONE).stream))
  }

  function AfterProcess(c: Channel, sh: Shard, t: Timestamp): Channel {
    if c.output.closed then c
    else
      var d := Sent(c, Message(sh.queue, NewBound(sh, c.offset, t)));
      if sh.closed then Ended(d) else d
  }

  /** What a bound on a node's inputs tells about an output, if anything. */
  predicate Raises(c: Channel, bound: Timestamp) {
    IsRange(bound) && c.offset.Some? && !c.output.closed && Timestamps.Add(bound, c.offset.value) > c.output.bound
  }

  function AfterTry(c: Channel, bound: Timestamp): Channel {
    if Raises(c, bound) then Sent(c, Message([], Timestamps.Add(bound, c.offset.value))) else c
  }

  function AfterLast(c: Channel, packets: seq<Packet>): Channel {
    Ended(Sent(c, Message(packets, DONE)))
  }

  /** Cleaning up after a run closes the outputs without shards. */
  function AfterClosing(c: Channel, packets: Option<seq<Packet>>): Channel {
    if packets.Some? then AfterLast(c, packets.value) else Ended(c)
  }

  /** An open output with an offset ends up at or above the shifted bound, never
      falls, and gains nothing from a second try; its consumers learn the bound
      unless they already know as much, or have closed. */
  lemma {:induction false} TryRaises(c: Channel, bound: Timestamp, k: nat)
    requires IsRange(bound) && c.offset.Some? && !c.output.closed && k < |c.mirrors|
    ensures var d := AfterTry(c, bound);
            && d.output.bound == Max2(c.output.bound, Clamp(bound + c.offset.value))
            && AfterTry(d, bound) == d
            && |d.mirrors| == |c.mirrors|
            && (c.mirrors[k].bound == c.output.bound && !c.mirrors[k].closed ==>
                  d.mirrors[k] == c.mirrors[k].(bound := d.output.bound))
  {
  }

  /** Closing leaves every consumer that was in step with the end of the stream,
      after the last packets. */
  lemma {:induction false} CloseEnds(c: Channel, packets: seq<Packet>, k: nat)
    requires k < |c.mirrors| && !c.mirrors[k].closed
    ensures var d := AfterLast(c, packets);
            && d.output.closed && |d.mirrors| == |c.mirrors| && d.mirrors[k].bound == DONE
            && d.mirrors[k].queue == c.mirrors[k].queue + packets[..AcceptedCount(c.mirrors[k], packets)]
  {
    var s := c.mirrors[k];
    ClosingTwiceIsIdle(s, packets);
    PushAllAppends(s, packets);
    assert packets == [] ==> packets[..AcceptedCount(s, packets)] == [];
  }

  /** With or without last packets, no output stays open, and its consumers have
      been told. */
  lemma {:induction false} ClosingEnds(c: Channel, packets: Option<seq<Packet>>, k: nat)
    requires k < |c.mirrors| && !c.mirrors[k].closed && !c.output.closed
    ensures var d := AfterClosing(c, packets);
            d.output.closed && d.output.bound == DONE && |d.mirrors| == |c.mirrors| && d.mirrors[k].bound == DONE
  {
    if packets.Some? {
      CloseEnds(c, packets.value, k);
    }
  }

  class OutputStreamManager {
    var nextTimestampBound: Timestamp
    var closed: bool
    var numPacketsAdded: nat
    var offset: Option<Int64>
    const mirrors: seq<InputStreamManager>

    ghost predicate Valid() {
      forall i, j :: 0 <= i < j < |mirrors| ==> mirrors[i] != mirrors[j]
    }

    function Fields(): Output
      reads this
    {
      Output(nextTimestampBound, closed, numPacketsAdded)
    }

    ghost function State(): Channel
      reads this, mirrors
    {
      Channel(Fields(), offset, seq(|mirrors|, k requires 0 <= k < |mirrors| reads mirrors => mirrors[k].State()))
    }

    constructor (mirrors: seq<InputStreamManager>)
      requires forall i, j :: 0 <= i < j < |mirrors| ==> mirrors[i] != mirrors[j]
      ensures Valid() && this.mirrors == mirrors && offset == None
      ensures Fields() == Output(PRE_STREAM, false, 0)
    {
      nextTimestampBound, closed, numPacketsAdded, offset := PRE_STREAM, false, 0, None;
      this.mirrors := mirrors;
    }

    method ComputeOutputTimestampBound(shard: OutputStreamShard, inputTimestamp: Timestamp)
      returns (newBound: Timestamp)
      ensures newBound == NewBound(shard.State(), offset, inputTimestamp)
    {
      newBound := UNSET;
      if inputTimestamp != UNSTARTED && !IsAllowedInStream(inputTimestamp) {
        return;
      }
      var inputBound := InputBound(offset, inputTimestamp);
      if inputBound > shard.nextTimestampBound {
        newBound := Max2(newBound, inputBound);
      }
      newBound := Max2(newBound, shard.updatedNextTimestampBound);
      if shard.outputQueue != [] {
        newBound := Max2(newBound, Next(shard.outputQueue[|shard.outputQueue| - 1].timestamp));
      }
    }

    /** Every consumer gets the packets, and the bound unless the last packet
        implies it. */
    method PropagateUpdatesToMirrors(bound: Timestamp, shard: OutputStreamShard)
      requires Valid()
      modifies this, shard, mirrors
      ensures State() == Sent(old(State()), Message(old(shard.outputQueue), bound))
      ensures shard.State() == old(shard.State()).(queue := [])
    {
      var packets := shard.outputQueue;
      ghost var m := Message(packets, bound);
      if bound != UNSET {
        nextTimestampBound := bound;
        numPacketsAdded := numPacketsAdded + |packets|;
      }
      var addPackets := packets != [];
      var setBound := bound != UNSET && (!addPackets || Next(packets[|packets| - 1].timestamp) != bound);
      var i := 0;
      while i < |mirrors|
        invariant 0 <= i <= |mirrors| && offset == old(offset)
        invariant shard.State() == old(shard.State()) && Fields() == Sent(old(State()), m).output
        invariant forall j :: i <= j < |mirrors| ==> mirrors[j].State() == old(mirrors[j].State())
        invariant forall j :: 0 <= j < i ==> mirrors[j].State() == Delivered(old(mirrors[j].State()), m)
      {
        if addPackets {
          var _, _, _ := mirrors[i].AddPackets(packets);
        }
        if setBound {
          var _, _ := mirrors[i].SetNextTimestampBound(bound);
        }
        i := i + 1;
      }
      shard.outputQueue := [];
      assert State().mirrors == Sent(old(State()), m).mirrors;
    }

    method Close()
      requires Valid()
      modifies this, mirrors
      ensures State() == Ended(old(State()))
    {
      if closed {
        assert State() == old(State());
        return;
      }
      closed := true;
      nextTimestampBound := DONE;
      var i := 0;
      while i < |mirrors|
        invariant 0 <= i <= |mirrors| && offset == old(offset) && Fields() == Ended(old(State())).output
        invariant forall j :: i <= j < |mirrors| ==> mirrors[j].State() == old(mirrors[j].State())
        invariant forall j :: 0 <= j < i ==> mirrors[j].State() == AfterBound(old(mirrors[j].State()), DONE).stream
      {
        var _, _ := mirrors[i].SetNextTimestampBound(DONE);
        i := i + 1;
      }
      assert State().mirrors == Ended(old(State())).mirrors;
    }

    method ResetShard(shard: OutputStreamShard)
      modifies shard
      ensures shard.State() == FreshShard(nextTimestampBound, closed)
    {
      shard.Reset(nextTimestampBound, closed);
    }

    /** The bodies of the three loops below. */
    method TryPropagate(inputBound: Timestamp, emptyOutput: OutputStreamShard)
      requires Valid() && IsRange(inputBound) && emptyOutput.outputQueue == []
      modifies this, emptyOutput, mirrors
      ensures State() == AfterTry(old(State()), inputBound) && emptyOutput.outputQueue == []
    {
      if offset.Some? && !closed && Timestamps.Add(inputBound, offset.value) > nextTimestampBound {
        PropagateUpdatesToMirrors(Timestamps.Add(inputBound, offset.value), emptyOutput);
      } else {
        assert State() == old(State());
      }
    }

    method PropagateOutput(inputTimestamp: Timestamp, output: OutputStreamShard)
      requires Valid()
      modifies this, output, mirrors
      ensures State() == AfterProcess(old(State()), old(output.State()), inputTimestamp)
    {
      if closed {
        assert State() == old(State());
        return;
      }
      var outputBound := ComputeOutputTimestampBound(output, inputTimestamp);
      PropagateUpdatesToMirrors(outputBound, output);
      if output.closed {
        Close();
      }
    }

    method CloseOutput(output: OutputStreamShard?)
      requires Valid()
      modifies this, output, mirrors
      ensures State() == AfterClosing(old(State()), if output == null then None else Some(old(output.outputQueue)))
    {
      if output != null {
        PropagateUpdatesToMirrors(DONE, output);
      }
      Close();
    }
  }

  // ------------------------------------------------ all outputs of a node

  class OutputStreamHandler {
    const managers: seq<OutputStreamManager>

    /** No two outputs share a manager or a consumer's stream. */
    ghost predicate Valid() {
      && (forall i, j :: 0 <= i < j < |managers| ==> managers[i] != managers[j])
      && (forall i :: 0 <= i < |managers| ==> managers[i].Valid())
      && (forall i, j, k, l :: 0 <= i < |managers| && 0 <= j < |managers| && i != j
                               && 0 <= k < |managers[i].mirrors| && 0 <= l < |managers[j].mirrors|
                               ==> managers[i].mirrors[k] != managers[j].mirrors[l])
    }

    ghost function AllMirrors(): set<object> {
      set i, k | 0 <= i < |managers| && 0 <= k < |managers[i].mirrors| :: managers[i].mirrors[k]
    }

    constructor (managers: seq<OutputStreamManager>)
      ensures this.managers == managers
    {
      this.managers := managers;
    }

    /** Tells every output what a bound on the inputs implies. */
    method TryPropagateTimestampBound(inputBound: Timestamp)
      requires Valid()
      modifies managers, AllMirrors()
      ensures forall i :: 0 <= i < |managers| ==> managers[i].State() == AfterTry(old(managers[i].State()), inputBound)
    {
      if !IsRange(inputBound) {
        assert forall j :: 0 <= j < |managers| ==> managers[j].State() == old(managers[j].State());
        return;
      }
      var emptyOutput := new OutputStreamShard(AnyType);
      var i := 0;
      while i < |managers|
        invariant 0 <= i <= |managers| && emptyOutput.outputQueue == [] && fresh(emptyOutput)
        invariant forall j :: i <= j < |managers| ==> managers[j].State() == old(managers[j].State())
        invariant forall j :: 0 <= j < i ==> managers[j].State() == AfterTry(old(managers[j].State()), inputBound)
      {
        managers[i].TryPropagate(inputBound, emptyOutput);
        i := i + 1;
      }
    }

    /** Sends what an invocation at `t` has put out on every output still open. */
    method PropagateOutputPackets(inputTimestamp: Timestamp, shards: seq<OutputStreamShard>)
      requires Valid() && |shards| == |managers|
      requires forall i, j :: 0 <= i < j < |shards| ==> shards[i] != shards[j]
      modifies managers, AllMirrors(), shards
      ensures forall i :: 0 <= i < |managers| ==>
                managers[i].State() == AfterProcess(old(managers[i].State()), old(shards[i].State()), inputTimestamp)
    {
      var i := 0;
      while i < |managers|
        invariant 0 <= i <= |managers|
        invariant forall j :: i <= j < |managers| ==>
                    managers[j].State() == old(managers[j].State()) && shards[j].State() == old(shards[j].State())
        invariant forall j :: 0 <= j < i ==>
                    managers[j].State() ==
                    AfterProcess(old(managers[j].State()), old(shards[j].State()), inputTimestamp)
      {
        managers[i].PropagateOutput(inputTimestamp, shards[i]);
        i := i + 1;
      }
    }

    ghost function LastPackets(shards: Option<seq<OutputStreamShard>>, i: nat): Option<seq<Packet>>
      requires shards.Some? ==> i < |shards.value|
      reads if shards.Some? then shards.value else []
    {
      if shards.Some? then Some(shards.value[i].outputQueue) else None
    }

    /** Sends the last packets, if there are shards, and closes every output. */
    method Close(shards: Option<seq<OutputStreamShard>>)
      requires Valid()
      requires shards.Some? ==> |shards.value| == |managers|
      requires shards.Some? ==> forall i, j :: 0 <= i < j < |shards.value| ==> shards.value[i] != shards.value[j]
      modifies managers, AllMirrors(), if shards.Some? then shards.value else []
      ensures forall i :: 0 <= i < |managers| ==>
                managers[i].State() == AfterClosing(old(managers[i].State()), old(LastPackets(shards, i)))
    {
      var i := 0;
      while i < |managers|
        invariant 0 <= i <= |managers|
        invariant forall j :: i <= j < |managers| ==>
                    && managers[j].State() == old(managers[j].State())
                    && LastPackets(shards, j) == old(LastPackets(shards, j))
        invariant forall j :: 0 <= j < i ==>
                    managers[j].State() == AfterClosing(old(managers[j].State()), old(LastPackets(shards, j)))
      {
        managers[i].CloseOutput(if shards.Some? then shards.value[i] else null);
        i := i + 1;
      }
    }
  }
}
