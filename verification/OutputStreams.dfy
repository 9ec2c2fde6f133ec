/** The producer's side of a stream: what one invocation puts out, the bound
    that follows from it, and how both reach every consumer. */
module OutputStreams {
  import opened Collections
  import opened Timestamps
  import opened InputStreams

  // --------------------------------------------------------------- the shard

  /** What one invocation has put out so far. `updated` is unset until it says
      something about the stream. */
  datatype Shard = Shard(queue: seq<Packet>, bound: Timestamp, updated: Timestamp, closed: bool)

  datatype ShardResult = ShardResult(shard: Shard, ok: bool)

  function FreshShard(bound: Timestamp, closed: bool): Shard {
    Shard([], bound, UNSET, closed)
  }

  function WithBound(sh: Shard, bound: Timestamp): ShardResult {
    if !IsAllowedInStream(bound) && bound != ONE_OVER_POST_STREAM then ShardResult(sh, false)
    else ShardResult(sh.(bound := bound, updated := bound), true)
  }

  /** An empty packet only promises that nothing comes at or before it. */
  function WithPacket(sh: Shard, packetType: PacketType, p: Packet): ShardResult {
    if sh.closed then ShardResult(sh, false)
    else if p.payload.Empty? then WithBound(sh, Next(p.timestamp))
    else if !IsAllowedInStream(p.timestamp) || !Validates(packetType, p) then ShardResult(sh, false)
    else ShardResult(sh.(queue := sh.queue + [p], bound := Next(p.timestamp), updated := Next(p.timestamp)), true)
  }

  function ClosedShard(sh: Shard): Shard {
    sh.(bound := DONE, updated := DONE, closed := true)
  }

  // ------------------------------------------------- the bound that follows

  /** The bound that follows from having processed `t`, if the node declared an
      offset between its input and output timestamps. */
  function InputBound(offset: Option<Int64>, t: Timestamp): Timestamp
    requires t == UNSTARTED || IsAllowedInStream(t)
  {
    if offset.None? || t == UNSTARTED then UNSET
    else if t == PRE_STREAM then MIN
    else if t == MAX then
      if offset.value >= 0 then POST_STREAM else Next(Timestamps.Add(t, offset.value))
    else if t == POST_STREAM then ONE_OVER_POST_STREAM
    else Timestamps.Add(Next(t), offset.value)
  }

  /** The three sources of a bound, the largest of which counts. */
  function NewBound(sh: Shard, offset: Option<Int64>, t: Timestamp): Timestamp {
    if t != UNSTARTED && !IsAllowedInStream(t) then UNSET
    else
      var input := InputBound(offset, t);
      var b0 := if input > sh.bound then Max2(UNSET, input) else UNSET;
      var b1 := Max2(b0, sh.updated);
      if sh.queue == [] then b1 else Max2(b1, Next(sh.queue[|sh.queue| - 1].timestamp))
  }

  /** The earliest output timestamp allowed to an invocation at `t`, for a node
      whose outputs are `offset` away from its inputs. */
  function Earliest(offset: Int64, t: Timestamp): Timestamp
    requires IsAllowedInStream(t)
  {
    if IsRange(t) then Clamp(t + offset) else t
  }

  /** The bound announced after `t` never goes back as `t` grows and never runs
      ahead of what a later invocation may put out, whatever the offset. */
  lemma {:induction false} InputBoundIsSound(offset: Int64, t: Timestamp, u: Timestamp)
    requires IsAllowedInStream(t) && IsAllowedInStream(u) && t < u
    ensures InputBound(Some(offset), t) <= InputBound(Some(offset), u)
    ensures InputBound(Some(offset), t) <= Earliest(offset, u)
    ensures InputBound(Some(offset), t) >= MIN
  {
    assert Next(t) <= u || t == PRE_STREAM || t == MAX;
  }

  /** For offset zero the bound is the least timestamp that can follow, but for
      the two inputs beside which an ordinary packet or one after the stream may
      still come. */
  lemma {:induction false} ZeroOffsetBound(t: Timestamp)
    requires IsAllowedInStream(t)
    ensures InputBound(Some(0), t) ==
            if t == PRE_STREAM then MIN else if t == MAX then POST_STREAM else Next(t)
  {
  }

  /** What the announced bound says about an invocation: it covers every packet
      put out, and is unset just when there is nothing to announce. */
  lemma {:induction false} NewBoundCovers(sh: Shard, offset: Option<Int64>, t: Timestamp)
    requires t == UNSTARTED || IsAllowedInStream(t)
    ensures sh.queue != [] ==> NewBound(sh, offset, t) >= Next(sh.queue[|sh.queue| - 1].timestamp) > UNSET
    ensures NewBound(sh, offset, t) >= sh.updated
    ensures NewBound(sh, offset, t) == UNSET <==>
              sh.queue == [] && sh.updated == UNSET && InputBound(offset, t) <= sh.bound
  {
    assert sh.queue != [] ==> Next(sh.queue[|sh.queue| - 1].timestamp) >= MIN;
  }

  /** An invocation that never asks for less than `low`, the bound it started
      with, announces nothing or a bound that is not below `low`. */
  lemma {:induction false} NewBoundNeverFalls(sh: Shard, offset: Option<Int64>, t: Timestamp, low: Timestamp)
    requires sh.updated == UNSET ==> sh.queue == [] && sh.bound == low
    requires sh.updated != UNSET ==> sh.updated >= low
    ensures NewBound(sh, offset, t) == UNSET || NewBound(sh, offset, t) >= low
    ensures sh.updated == UNSET && NewBound(sh, offset, t) != UNSET ==> NewBound(sh, offset, t) > low
  {
  }

  // ------------------------------------------------- reaching every consumer

  /** Packets and a bound on their way to the consumers. */
  datatype Message = Message(packets: seq<Packet>, bound: Timestamp)

  /** The bound goes without saying if the last packet implies it. */
  predicate SetsBound(m: Message) {
    && m.bound != UNSET
    && (m.packets == [] || Next(m.packets[|m.packets| - 1].timestamp) != m.bound)
  }

  /** The consumers are served in turn, each by up to two critical sections. */
  datatype Sending = Resting | Serving(message: Message, mirror: nat, added: bool)

  predicate Moving(m: Message) {
    m.packets != [] || m.bound != UNSET
  }

  function Start(m: Message, mirrors: nat): Sending {
    if Moving(m) && mirrors > 0 then Serving(m, 0, false) else Resting
  }

  /** The next thing done to the consumer being served. */
  function NextOp(m: Message, added: bool): Op {
    if m.packets != [] && !added then Op.Add(m.packets) else Op.Bound(m.bound)
  }

  /** Whether that is the last thing done to it. */
  predicate LastOp(m: Message, added: bool) {
    added || m.packets == [] || !SetsBound(m)
  }

  function Proceed(s: Sending, mirrors: nat): Sending
    requires s.Serving?
  {
    if !LastOp(s.message, s.added) then s.(added := true)
    else if s.mirror + 1 < mirrors then Serving(s.message, s.mirror + 1, false)
    else Resting
  }

  /** A consumer's stream after a whole message. */
  function Delivered(s: Stream, m: Message): Stream {
    var s1 := if m.packets != [] then AfterAdd(s, m.packets).stream else s;
    if SetsBound(m) then AfterBound(s1, m.bound).stream else s1
  }

  /** Closing an output announces the last bound twice; the second time is idle. */
  lemma {:induction false} ClosingTwiceIsIdle(s: Stream, packets: seq<Packet>)
    ensures AfterBound(Delivered(s, Message(packets, DONE)), DONE)
            == BoundResult(Delivered(s, Message(packets, DONE)), true, false)
  {
    assert SetsBound(Message(packets, DONE));
    var s1 := if packets != [] then AfterAdd(s, packets).stream else s;
    assert AfterBound(s1, DONE).stream == Delivered(s, Message(packets, DONE));
  }

  // ------------------------- runs of one producer with all of its consumers

  /** `emitted` is everything the producer ever sent; `failed` records an error
      raised by a consumer's stream. */
  datatype Fan = Fan(
    bound: Timestamp,
    emitted: seq<Packet>,
    mirrors: seq<Tracked>,
    sending: Sending,
    sentBefore: seq<Packet>,
    boundBefore: Timestamp,
    failed: bool)

  datatype FanStep =
    | Send(message: Message)
    | Deliver
    | Consume(i: nat, at: Timestamp)
    | Resize(i: nat, maxSize: int)

  /** Consumers pop only at settled timestamps. A message with packets has a bound. */
  ghost predicate FanEnabled(f: Fan, step: FanStep) {
    match step
    case Send(m) => f.sending.Resting? && (m.bound == UNSET ==> m.packets == [])
    case Deliver => f.sending.Serving? && f.sending.mirror < |f.mirrors|
    case Consume(i, at) =>
      && i < |f.mirrors| && IsAllowedInStream(at)
      && f.mirrors[i].stream.timed && f.mirrors[i].stream.lastSelect <= at && SettledAt(f.mirrors[i].stream, at)
    case Resize(i, _) => i < |f.mirrors|
  }

  ghost function FanTake(f: Fan, step: FanStep): Fan
    requires FanEnabled(f, step)
  {
    match step
    case Send(m) =>
      f.(bound := if m.bound == UNSET then f.bound else m.bound,
         emitted := f.emitted + m.packets,
         sending := Start(m, |f.mirrors|),
         sentBefore := f.emitted,
         boundBefore := f.bound)
    case Deliver =>
      var op := NextOp(f.sending.message, f.sending.added);
      var x := f.mirrors[f.sending.mirror];
      f.(mirrors := f.mirrors[f.sending.mirror := Apply(x, op)],
         sending := Proceed(f.sending, |f.mirrors|),
         failed := f.failed || !Succeeds(x.stream, op))
    case Consume(i, at) => f.(mirrors := f.mirrors[i := Apply(f.mirrors[i], Op.Pop(at))])
    case Resize(i, maxSize) => f.(mirrors := f.mirrors[i := Apply(f.mirrors[i], Op.Resize(maxSize))])
  }

  ghost predicate FanInit(f: Fan) {
    && f.bound == PRE_STREAM && f.emitted == [] && f.sending == Resting && !f.failed
    && (forall i :: 0 <= i < |f.mirrors| ==>
          f.mirrors[i] == Tracked(EmptyStream(f.mirrors[i].stream.packetType, f.mirrors[i].stream.maxSize), [], []))
  }

  /** The consumer has accepted exactly `sent` and knows exactly `bound`. */
  ghost predicate InStep(x: Tracked, sent: seq<Packet>, bound: Timestamp) {
    Consistent(x) && !x.stream.closed && x.accepted == sent && x.stream.bound == bound
  }

  /** The consumer being served, half way. */
  ghost predicate HalfStep(x: Tracked, f: Fan)
    requires f.sending.Serving?
  {
    var m := f.sending.message;
    m.packets != [] && InStep(x, f.emitted, Next(m.packets[|m.packets| - 1].timestamp))
  }

  ghost predicate MirrorInv(f: Fan, i: nat)
    requires i < |f.mirrors|
  {
    var x := f.mirrors[i];
    if f.sending.Resting? || i < f.sending.mirror then InStep(x, f.emitted, f.bound)
    else if i == f.sending.mirror && f.sending.added then HalfStep(x, f)
    else InStep(x, f.sentBefore, f.boundBefore)
  }

  ghost predicate FanInv(f: Fan) {
    && (f.sending.Serving? ==>
          var m := f.sending.message;
          && f.sending.mirror < |f.mirrors|
          && m.bound != UNSET && f.bound == m.bound
          && f.emitted == f.sentBefore + m.packets
          && (f.sending.added ==> m.packets != [] && SetsBound(m)))
    && (!f.failed ==> forall i :: 0 <= i < |f.mirrors| ==> MirrorInv(f, i))
  }

  lemma {:induction false} SendKeeps(f: Fan, m: Message)
    requires FanInv(f) && FanEnabled(f, Send(m))
    ensures FanInv(FanTake(f, Send(m)))
  {
    var g := FanTake(f, Send(m));
    assert f.emitted + [] == f.emitted;
    forall i | 0 <= i < |g.mirrors| && !g.failed
      ensures MirrorInv(g, i)
    {
      assert MirrorInv(f, i);
    }
  }

  lemma {:induction false} AddDelivers(x: Tracked, sent: seq<Packet>, packets: seq<Packet>)
    requires Consistent(x) && !x.stream.closed && x.accepted == sent && packets != []
    requires Succeeds(x.stream, Op.Add(packets))
    ensures InStep(Apply(x, Op.Add(packets)), sent + packets, Next(packets[|packets| - 1].timestamp))
  {
    ApplyKeepsConsistent(x, Op.Add(packets));
    PushAllAppends(x.stream, packets);
    assert packets[..|packets|] == packets;
  }

  lemma {:induction false} BoundDelivers(x: Tracked, bound: Timestamp)
    requires Consistent(x) && !x.stream.closed && Succeeds(x.stream, Op.Bound(bound))
    ensures InStep(Apply(x, Op.Bound(bound)), x.accepted, bound)
  {
    ApplyKeepsConsistent(x, Op.Bound(bound));
  }

  /** One critical section on the consumer being served. */
  lemma {:induction false} ServedInStep(f: Fan)
    requires FanInv(f) && FanEnabled(f, Deliver) && !FanTake(f, Deliver).failed
    ensures var x := FanTake(f, Deliver).mirrors[f.sending.mirror];
            if LastOp(f.sending.message, f.sending.added) then InStep(x, f.emitted, f.bound)
            else HalfStep(x, f)
  {
    var k, m := f.sending.mirror, f.sending.message;
    var x := f.mirrors[k];
    assert MirrorInv(f, k);
    if m.packets != [] && !f.sending.added {
      AddDelivers(x, f.sentBefore, m.packets);
    } else {
      BoundDelivers(x, m.bound);
      assert m.packets == [] ==> f.emitted == f.sentBefore;
    }
  }

  lemma {:induction false} DeliverKeeps(f: Fan)
    requires FanInv(f) && FanEnabled(f, Deliver)
    ensures FanInv(FanTake(f, Deliver))
  {
    var g, k := FanTake(f, Deliver), f.sending.mirror;
    if !g.failed {
      ServedInStep(f);
      forall i | 0 <= i < |g.mirrors|
        ensures MirrorInv(g, i)
      {
        assert MirrorInv(f, i);
      }
    }
  }

  lemma {:induction false} ConsumedInStep(x: Tracked, op: Op, sent: seq<Packet>, bound: Timestamp)
    requires InStep(x, sent, bound)
    requires || op.Resize?
             || (&& op.Pop? && IsAllowedInStream(op.at)
                 && x.stream.lastSelect <= op.at && SettledAt(x.stream, op.at))
    ensures InStep(Apply(x, op), sent, bound)
  {
    ApplyKeepsConsistent(x, op);
    if op.Pop? {
      PopLeavesLater(x, op.at);
    }
  }

  ghost predicate IsConsumption(f: Fan, g: Fan, i: nat, op: Op) {
    && i < |f.mirrors| && Legal(f.mirrors[i].stream, op)
    && (op.Resize? || (op.Pop? && IsAllowedInStream(op.at) && SettledAt(f.mirrors[i].stream, op.at)))
    && g == f.(mirrors := f.mirrors[i := Apply(f.mirrors[i], op)])
  }

  lemma {:induction false} ConsumerKeeps(f: Fan, g: Fan, i: nat, op: Op)
    requires FanInv(f) && IsConsumption(f, g, i, op)
    ensures FanInv(g)
  {
    if !g.failed {
      var x := f.mirrors[i];
      assert MirrorInv(f, i);
      ConsumedInStep(x, op, x.accepted, x.stream.bound);
      forall k | 0 <= k < |g.mirrors|
        ensures MirrorInv(g, k)
      {
        assert MirrorInv(f, k);
      }
    }
  }

  ghost predicate IsFanRun(run: seq<Fan>, steps: seq<FanStep>) {
    && |run| == |steps| + 1 && FanInit(run[0])
    && (forall i :: 0 <= i < |steps| ==> FanEnabled(run[i], steps[i]) && run[i + 1] == FanTake(run[i], steps[i]))
  }

  lemma {:induction false} FanRunsHold(run: seq<Fan>, steps: seq<FanStep>, i: nat)
    requires IsFanRun(run, steps) && i < |run|
    ensures FanInv(run[i])
  {
    if i == 0 {
      forall k | 0 <= k < |run[0].mirrors|
        ensures MirrorInv(run[0], k)
      {
        assert run[0].mirrors[k].accepted == [];
      }
    } else {
      FanRunsHold(run, steps, i - 1);
      match steps[i - 1]
      case Send(m) => SendKeeps(run[i - 1], m);
      case Deliver => DeliverKeeps(run[i - 1]);
      case Consume(k, at) => ConsumerKeeps(run[i - 1], run[i], k, Op.Pop(at));
      case Resize(k, maxSize) => ConsumerKeeps(run[i - 1], run[i], k, Op.Resize(maxSize));
    }
  }

  /** Over every run without an error, whenever no message is on its way, every
      consumer has accepted exactly what was sent, in order, and has exactly the
      producer's bound, although bounds implied by a packet were never sent. */
  lemma {:induction false} MirrorsAgree(run: seq<Fan>, steps: seq<FanStep>, i: nat, k: nat)
    requires IsFanRun(run, steps) && i < |run| && k < |run[i].mirrors|
    requires !run[i].failed && run[i].sending.Resting?
    ensures run[i].mirrors[k].accepted == run[i].emitted
    ensures run[i].mirrors[k].stream.bound == run[i].bound
  {
    FanRunsHold(run, steps, i);
    assert MirrorInv(run[i], k);
  }
}
