/** What a producer's side amounts to: what a shard takes, exactly which bound is
    announced, and what reaches a consumer. */
module OutputStreamLaws {
  import opened Collections
  import opened Timestamps
  import opened InputStreams
  import opened InputStreamLaws
  import opened OutputStreams
  import opened OutputStreamHandlers

  // ------------------------------------------------------------ the shard

  /** An open shard refuses exactly the packets with a timestamp no packet may have and
      those of another type; one it takes is the last of the queue, and the bound it
      announces is the packet's successor. What it refuses leaves it as it was. */
  lemma {:induction false} ShardTakesIff(sh: Shard, packetType: PacketType, p: Packet)
    requires p.payload.Content?
    ensures var r := WithPacket(sh, packetType, p);
            && (r.ok <==> !sh.closed && IsAllowedInStream(p.timestamp) && Validates(packetType, p))
            && (!r.ok ==> r.shard == sh)
            && (r.ok ==> r.shard.queue == sh.queue + [p] && r.shard.closed == sh.closed
                         && r.shard.bound == r.shard.updated == Next(p.timestamp) > p.timestamp)
  {
  }

  /** An empty packet is a promise only: nothing is queued, and nothing at or before
      its timestamp is to come. */
  lemma {:induction false} EmptyPacketPromises(sh: Shard, packetType: PacketType, t: Timestamp)
    requires IsAllowedInStream(t)
    ensures var r := WithPacket(sh, packetType, Packet(t, Empty));
            && (r.ok <==> !sh.closed)
            && r.shard == if sh.closed then sh else sh.(bound := Next(t), updated := Next(t))
  {
  }

  /** A bound is taken exactly if a packet may have it, or it is the one past the end. */
  lemma {:induction false} ShardBoundIff(sh: Shard, bound: Timestamp)
    ensures var r := WithBound(sh, bound);
            && (r.ok <==> PRE_STREAM <= bound <= ONE_OVER_POST_STREAM)
            && r.shard == if r.ok then sh.(bound := bound, updated := bound) else sh
  {
  }

  /** A closed shard takes no packet more, and announces the end. */
  lemma {:induction false} ClosedShardEnds(sh: Shard, packetType: PacketType, p: Packet, offset: Option<Int64>,
        t: Timestamp)
    requires t == UNSTARTED || IsAllowedInStream(t)
    ensures var c := ClosedShard(sh);
            && c.closed && c.queue == sh.queue && WithPacket(c, packetType, p) == ShardResult(c, false)
            && NewBound(c, offset, t) == DONE
  {
  }

  /** A fresh shard has said nothing; one for a closed output takes nothing. */
  lemma {:induction false} FreshShardIsSilent(bound: Timestamp, closed: bool, packetType: PacketType, p: Packet,
        t: Timestamp)
    requires t == UNSTARTED || IsAllowedInStream(t)
    ensures var sh := FreshShard(bound, closed);
            && sh.queue == [] && sh.bound == bound && NewBound(sh, None, t) == UNSET
            && (closed ==> !WithPacket(sh, packetType, p).ok)
  {
  }

  // ------------------------------------------------ the bound, exactly

  predicate Announces(sh: Shard, offset: Option<Int64>, t: Timestamp, b: Timestamp)
    requires t == UNSTARTED || IsAllowedInStream(t)
  {
    || b == UNSET
    || b == sh.updated
    || (sh.queue != [] && b == Next(sh.queue[|sh.queue| - 1].timestamp))
    || (b == InputBound(offset, t) && b > sh.bound)
  }

  /** The bound announced is the least that covers what was said, what was put out, and
      what the input implies if that is news; so it is one of the three, or unset. */
  lemma {:induction false} NewBoundIsLeast(sh: Shard, offset: Option<Int64>, t: Timestamp, b: Timestamp)
    requires t == UNSTARTED || IsAllowedInStream(t)
    ensures NewBound(sh, offset, t) <= b <==>
              && sh.updated <= b
              && (sh.queue != [] ==> Next(sh.queue[|sh.queue| - 1].timestamp) <= b)
              && (InputBound(offset, t) > sh.bound ==> InputBound(offset, t) <= b)
    ensures Announces(sh, offset, t, NewBound(sh, offset, t))
  {
  }

  /** For an input timestamp no packet may have nothing is announced. */
  lemma {:induction false} IllegalInputIsSilent(sh: Shard, offset: Option<Int64>, t: Timestamp)
    requires t != UNSTARTED && !IsAllowedInStream(t)
    ensures NewBound(sh, offset, t) == UNSET
  {
  }

  /** After an ordinary input the bound is exactly the earliest output of the next one,
      whatever the offset. */
  lemma {:induction false} InputBoundIsExact(offset: Int64, t: Timestamp)
    requires IsRange(t) && t < MAX
    ensures InputBound(Some(offset), t) == Earliest(offset, t + 1)
  {
  }

  /** At the two ends: after a packet before the stream, anything ordinary may come;
      after one after the stream, nothing; and after the last ordinary one only a packet
      after the stream, unless the output lags behind. */
  lemma {:induction false} InputBoundAtTheEnds(offset: Int64)
    ensures InputBound(Some(offset), PRE_STREAM) == MIN
    ensures InputBound(Some(offset), POST_STREAM) == ONE_OVER_POST_STREAM
    ensures offset >= 0 ==> InputBound(Some(offset), MAX) == POST_STREAM
    ensures offset < 0 ==> InputBound(Some(offset), MAX) == Clamp(MAX + offset) + 1
    ensures InputBound(Some(offset), UNSTARTED) == UNSET && InputBound(None, MAX) == UNSET
  {
  }

  // ------------------------------------------------------- one message

  /** A message that a consumer in step with its producer has no reason to refuse. */
  ghost predicate Welcome(sent: seq<Packet>, bound: Timestamp, packetType: PacketType, m: Message) {
    && AllValid(packetType, m.packets) && Grammar(sent + m.packets)
    && (m.bound == UNSET ==> m.packets == [])
    && (m.bound != UNSET ==> m.bound >= if m.packets == [] then bound else Next(m.packets[|m.packets| - 1].timestamp))
    && (m.packets != [] ==> m.packets[0].timestamp >= bound)
  }

  /** The consumer's stream and history after a whole message. */
  ghost function Received(x: Tracked, m: Message): Tracked {
    var y := if m.packets != [] then Apply(x, Op.Add(m.packets)) else x;
    if SetsBound(m) then Apply(y, Op.Bound(m.bound)) else y
  }

  lemma {:induction false} PacketsReach(x: Tracked, sent: seq<Packet>, packets: seq<Packet>)
    requires Consistent(x) && !x.stream.closed && x.accepted == sent && packets != []
    requires AllValid(x.stream.packetType, packets) && Grammar(sent + packets) && packets[0].timestamp >= x.stream.bound
    ensures var y := Apply(x, Op.Add(packets));
            && y.stream == AfterAdd(x.stream, packets).stream
            && InStep(y, sent + packets, Next(packets[|packets| - 1].timestamp))
            && y.stream.queue == x.stream.queue + packets
  {
    TakesBatchIff(x, packets);
    AddDelivers(x, sent, packets);
    PushAllAppends(x.stream, packets);
    assert packets[..|packets|] == packets;
  }

  lemma {:induction false} BoundReaches(y: Tracked, sent: seq<Packet>, low: Timestamp, bound: Timestamp)
    requires InStep(y, sent, low) && bound >= low
    ensures var z := Apply(y, Op.Bound(bound));
            && z.stream == AfterBound(y.stream, bound).stream
            && InStep(z, sent, bound) && z.stream.queue == y.stream.queue
  {
    ApplyKeepsConsistent(y, Op.Bound(bound));
  }

  /** A welcome message reaches a consumer in step whole: it then has every packet and
      exactly the producer's bound, also where that was not sent. */
  lemma {:induction false} MessageReaches(x: Tracked, sent: seq<Packet>, bound: Timestamp, m: Message)
    requires InStep(x, sent, bound) && Welcome(sent, bound, x.stream.packetType, m)
    ensures var y := Received(x, m);
            && y.stream == Delivered(x.stream, m)
            && InStep(y, sent + m.packets, if m.bound == UNSET then bound else m.bound)
            && y.stream.queue == x.stream.queue + m.packets
  {
    assert sent + [] == sent && x.stream.queue + [] == x.stream.queue;
    var y, low := x, bound;
    if m.packets != [] {
      PacketsReach(x, sent, m.packets);
      y, low := Apply(x, Op.Add(m.packets)), Next(m.packets[|m.packets| - 1].timestamp);
    }
    if SetsBound(m) {
      BoundReaches(y, sent + m.packets, low, m.bound);
    }
  }

  /** The bound travels separately exactly where it tells the consumer something that
      its packets have not told it: a welcome message is then two critical sections. */
  lemma {:induction false} BoundIsSentIff(x: Tracked, sent: seq<Packet>, bound: Timestamp, m: Message)
    requires InStep(x, sent, bound) && Welcome(sent, bound, x.stream.packetType, m) && m.packets != []
    ensures SetsBound(m) <==> AfterAdd(x.stream, m.packets).stream.bound != m.bound
    ensures SetsBound(m) <==> !LastOp(m, false)
  {
    PacketsReach(x, sent, m.packets);
  }

  // ------------------------------- a message in one go, and step by step

  /** All critical sections that a message under way still needs. */
  ghost function DeliverAll(f: Fan): Fan
    requires f.sending.Serving? ==> f.sending.mirror < |f.mirrors|
    decreases if f.sending.Resting? then 0 else 2 * (|f.mirrors| - f.sending.mirror) - if f.sending.added then 1 else 0
  {
    if f.sending.Resting? then f else DeliverAll(FanTake(f, FanStep.Deliver))
  }

  /** The one or two critical sections on a consumer come to what `Delivered` says. */
  lemma {:induction false} ConsumerServed(f: Fan) returns (g: Fan)
    requires f.sending.Serving? && f.sending.mirror < |f.mirrors| && !f.sending.added
    requires f.sending.message.bound != UNSET
    ensures g.sending == if f.sending.mirror + 1 < |f.mirrors|
                         then Serving(f.sending.message, f.sending.mirror + 1, false) else Resting
    ensures |g.mirrors| == |f.mirrors| && g.bound == f.bound && g.emitted == f.emitted
    ensures forall i :: 0 <= i < |f.mirrors| ==>
              g.mirrors[i].stream == if i == f.sending.mirror
                                     then Delivered(f.mirrors[i].stream, f.sending.message) else f.mirrors[i].stream
    ensures DeliverAll(f) == DeliverAll(g)
  {
    g := FanTake(f, FanStep.Deliver);
    if !LastOp(f.sending.message, false) {
      g := FanTake(g, FanStep.Deliver);
    }
  }

  lemma {:induction false} AllServed(f: Fan)
    requires f.sending.Serving? && f.sending.mirror < |f.mirrors| && !f.sending.added
    requires f.sending.message.bound != UNSET
    ensures var g := DeliverAll(f);
            && g.sending.Resting? && |g.mirrors| == |f.mirrors| && g.bound == f.bound && g.emitted == f.emitted
            && (forall i :: 0 <= i < |f.mirrors| ==>
                  g.mirrors[i].stream == if i < f.sending.mirror then f.mirrors[i].stream
                                         else Delivered(f.mirrors[i].stream, f.sending.message))
    decreases |f.mirrors| - f.sending.mirror
  {
    var g := ConsumerServed(f);
    if g.sending.Resting? {
    } else {
      AllServed(g);
    }
  }

  /** What `PropagateUpdatesToMirrors` does in one go is what the critical sections of
      `OutputStreams` come to one after another, so `MirrorsAgree` is about it too. */
  lemma {:induction false} SentStepByStep(c: Channel, f: Fan, m: Message)
    requires FanEnabled(f, Send(m)) && f.bound == c.output.bound && |f.mirrors| == |c.mirrors|
    requires forall i :: 0 <= i < |f.mirrors| ==> f.mirrors[i].stream == c.mirrors[i]
    ensures var g, d := DeliverAll(FanTake(f, Send(m))), Sent(c, m);
            && g.sending.Resting? && g.bound == d.output.bound && g.emitted == f.emitted + m.packets
            && |g.mirrors| == |d.mirrors|
            && (forall i :: 0 <= i < |g.mirrors| ==> g.mirrors[i].stream == d.mirrors[i])
  {
    var g := FanTake(f, Send(m));
    if g.sending.Serving? {
      AllServed(g);
    }
  }

  // ----------------------------------------------------- after Process

  /** An open output announces the bound of the shard, closes if the shard was closed,
      and counts its packets; a closed output does nothing. */
  lemma {:induction false} ProcessAnnounces(c: Channel, sh: Shard, t: Timestamp)
    requires t == UNSTARTED || IsAllowedInStream(t)
    ensures c.output.closed ==> AfterProcess(c, sh, t) == c
    ensures !c.output.closed ==>
              var d, b := AfterProcess(c, sh, t), NewBound(sh, c.offset, t);
              && d.output.closed == sh.closed && |d.mirrors| == |c.mirrors| && d.offset == c.offset
              && d.output.bound == (if sh.closed then DONE else if b == UNSET then c.output.bound else b)
              && d.output.added == c.output.added + |sh.queue|
  {
    NewBoundCovers(sh, c.offset, t);
  }

  lemma {:induction false} DeliveredQueue(s: Stream, m: Message)
    requires !s.closed
    ensures Delivered(s, m).queue == s.queue + m.packets[..AcceptedCount(s, m.packets)] && !Delivered(s, m).closed
  {
    PushAllAppends(s, m.packets);
    assert m.packets == [] ==> m.packets[..AcceptedCount(s, m.packets)] == [];
  }

  /** Whatever state they are in, its open consumers get the packets they accept; and
      learn the end if the shard was closed. */
  lemma {:induction false} ProcessSends(c: Channel, sh: Shard, t: Timestamp, k: nat)
    requires k < |c.mirrors| && !c.output.closed && !c.mirrors[k].closed
    ensures var d := AfterProcess(c, sh, t);
            && |d.mirrors| == |c.mirrors|
            && d.mirrors[k].queue == c.mirrors[k].queue + sh.queue[..AcceptedCount(c.mirrors[k], sh.queue)]
            && (sh.closed ==> d.mirrors[k].bound == DONE)
  {
    DeliveredQueue(c.mirrors[k], Message(sh.queue, NewBound(sh, c.offset, t)));
  }

  /** Given a consumer in step and an invocation whose packets and bound it has no
      reason to refuse, the consumer gets every packet, in order, and stays in step;
      or learns the end if the shard was closed. */
  lemma {:induction false} ProcessReaches(c: Channel, sh: Shard, t: Timestamp, k: nat, x: Tracked,
        sent: seq<Packet>)
    requires (t == UNSTARTED || IsAllowedInStream(t)) && k < |c.mirrors| && !c.output.closed
    requires x.stream == c.mirrors[k] && InStep(x, sent, c.output.bound)
    requires Welcome(sent, c.output.bound, x.stream.packetType, Message(sh.queue, NewBound(sh, c.offset, t)))
    ensures var d := AfterProcess(c, sh, t);
            && |d.mirrors| == |c.mirrors|
            && d.mirrors[k].queue == c.mirrors[k].queue + sh.queue
            && d.mirrors[k].bound == d.output.bound
            && !d.mirrors[k].closed
  {
    MessageReaches(x, sent, c.output.bound, Message(sh.queue, NewBound(sh, c.offset, t)));
  }

  /** A node's bound on its inputs changes nothing for an output that is closed or has
      no offset, nor if it is no ordinary timestamp. */
  lemma {:induction false} TryLeaves(c: Channel, bound: Timestamp)
    requires !IsRange(bound) || c.offset.None? || c.output.closed
    ensures AfterTry(c, bound) == c
  {
  }

  /** Closing happens once. */
  lemma {:induction false} EndsOnce(c: Channel)
    ensures Ended(Ended(c)) == Ended(c) && Ended(c).output.closed
    ensures !c.output.closed ==> Ended(c).output.bound == DONE && Ended(c).output.added == c.output.added
  {
  }
}
