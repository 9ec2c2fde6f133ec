/** One consumer's end of a stream: a queue of packets and the lowest timestamp
    the next packet may have. Each operation is one critical section of the
    stream's own lock. */
module InputStreams {
  import opened Timestamps

  datatype Payload = Empty | Content(kind: nat, value: int)

  datatype Packet = Packet(timestamp: Timestamp, payload: Payload)

  datatype PacketType = AnyType | OneType(kind: nat)

  /** No packet type accepts an empty packet. */
  predicate Validates(packetType: PacketType, p: Packet) {
    && p.payload.Content?
    && (packetType.OneType? ==> p.payload.kind == packetType.kind)
  }

  /** The fields guarded by the stream's lock. `maxSize` is -1 for no limit. */
  datatype Stream = Stream(
    queue: seq<Packet>,
    added: nat,
    bound: Timestamp,
    lastSelect: Timestamp,
    closed: bool,
    timed: bool,
    maxSize: int,
    packetType: PacketType)
  {
    predicate IsFull() {
      maxSize != -1 && |queue| >= maxSize
    }

    predicate IsDone() {
      queue == [] && bound == DONE
    }

    function MinTimestampOrBound(): Timestamp {
      if queue == [] then bound else queue[0].timestamp
    }
  }

  function EmptyStream(packetType: PacketType, maxSize: int): Stream {
    Stream([], 0, PRE_STREAM, UNSTARTED, false, true, maxSize, packetType)
  }

  // ---------------------------------------------------------------- adding

  /** The four tests a packet must pass to enter the queue. */
  predicate Accepts(s: Stream, p: Packet) {
    && Validates(s.packetType, p)
    && IsAllowedInStream(p.timestamp)
    && (s.timed ==>
          && !(p.timestamp == POST_STREAM && s.added > 0)
          && p.timestamp >= s.bound)
  }

  function Push(s: Stream, p: Packet): Stream {
    s.(queue := s.queue + [p], added := s.added + 1, bound := Next(p.timestamp))
  }

  /** The stream after the longest acceptable prefix of a batch. */
  function PushAll(s: Stream, batch: seq<Packet>): Stream
    decreases |batch|
  {
    if batch == [] || !Accepts(s, batch[0]) then s
    else PushAll(Push(s, batch[0]), batch[1..])
  }

  /** How many packets of a batch enter the queue before one is rejected. */
  function AcceptedCount(s: Stream, batch: seq<Packet>): (n: nat)
    ensures n <= |batch|
    decreases |batch|
  {
    if batch == [] || !Accepts(s, batch[0]) then 0
    else 1 + AcceptedCount(Push(s, batch[0]), batch[1..])
  }

  datatype AddResult = AddResult(stream: Stream, ok: bool, notify: bool, becameFull: bool)

  /** A closed stream drops the batch without an error. A rejected packet leaves
      the accepted prefix in the queue and raises neither signal. */
  function AfterAdd(s: Stream, batch: seq<Packet>): AddResult {
    if s.closed then AddResult(s, true, false, false)
    else
      var after := PushAll(s, batch);
      var ok := AcceptedCount(s, batch) == |batch|;
      AddResult(after, ok,
                ok && s.queue == [] && batch != [],
                ok && !s.IsFull() && after.IsFull())
  }

  lemma {:induction false} PushAllAppends(s: Stream, batch: seq<Packet>)
    ensures PushAll(s, batch).queue == s.queue + batch[..AcceptedCount(s, batch)]
    ensures PushAll(s, batch).added == s.added + AcceptedCount(s, batch)
    ensures PushAll(s, batch) == s.(queue := PushAll(s, batch).queue,
                                    added := PushAll(s, batch).added,
                                    bound := PushAll(s, batch).bound)
    ensures PushAll(s, batch).bound ==
            if AcceptedCount(s, batch) == 0 then s.bound
            else Next(batch[AcceptedCount(s, batch) - 1].timestamp)
    decreases |batch|
  {
    if batch == [] || !Accepts(s, batch[0]) {
      assert s.queue + batch[..0] == s.queue;
    } else {
      PushAllAppends(Push(s, batch[0]), batch[1..]);
      var n := AcceptedCount(Push(s, batch[0]), batch[1..]);
      assert s.queue + batch[..n + 1] == (s.queue + [batch[0]]) + batch[1..][..n];
    }
  }

  /** What stops a batch is the first packet the stream would not take then. */
  lemma {:induction false} BatchStopsAtRejected(s: Stream, batch: seq<Packet>)
    ensures var n := AcceptedCount(s, batch);
            n < |batch| ==> !Accepts(PushAll(s, batch), batch[n])
    decreases |batch|
  {
    if batch == [] || !Accepts(s, batch[0]) {
      assert PushAll(s, batch) == s;
    } else {
      BatchStopsAtRejected(Push(s, batch[0]), batch[1..]);
    }
  }

  // ------------------------------------------------------------- the bound

  datatype BoundResult = BoundResult(stream: Stream, ok: bool, notify: bool)

  /** A lower bound is an error on a timed stream. A raise is signalled only while
      the queue is empty, for the consumer cannot see it otherwise. */
  function AfterBound(s: Stream, bound: Timestamp): BoundResult {
    if s.closed then BoundResult(s, true, false)
    else if s.timed && bound < s.bound then BoundResult(s, false, false)
    else if bound > s.bound then BoundResult(s.(bound := bound), true, s.queue == [])
    else BoundResult(s, true, false)
  }

  /** Closing does not clear the queue. */
  function AfterClose(s: Stream): Stream {
    if s.closed then s else s.(bound := DONE, lastSelect := DONE, closed := true)
  }

  // --------------------------------------------------------------- popping

  /** How many packets at the front of a queue are at or before `t`. */
  function PrefixUpTo(queue: seq<Packet>, t: Timestamp): (n: nat)
    ensures n <= |queue|
    ensures forall i :: 0 <= i < n ==> queue[i].timestamp <= t
    ensures n < |queue| ==> queue[n].timestamp > t
  {
    if queue == [] || queue[0].timestamp > t then 0 else 1 + PrefixUpTo(queue[1..], t)
  }

  lemma {:induction false} PrefixUnique(queue: seq<Packet>, t: Timestamp, n: nat)
    requires n <= |queue|
    requires forall i :: 0 <= i < n ==> queue[i].timestamp <= t
    requires n < |queue| ==> queue[n].timestamp > t
    ensures PrefixUpTo(queue, t) == n
  {
  }

  /** Advances a stream to `t`: everything at or before `t` leaves the queue. */
  function Advance(s: Stream, t: Timestamp): Stream {
    s.(queue := s.queue[PrefixUpTo(s.queue, t)..],
       bound := if s.bound <= t then Next(t) else s.bound,
       lastSelect := t)
  }

  function LastUpTo(queue: seq<Packet>, t: Timestamp): Packet {
    var n := PrefixUpTo(queue, t);
    if n == 0 then Packet(UNSET, Empty) else queue[n - 1]
  }

  /** The last packet that left is the answer if it is exactly at `t`; otherwise
      the answer is an empty packet just below the new minimum. */
  function Selected(s: Stream, t: Timestamp): Packet {
    if LastUpTo(s.queue, t).timestamp == t then LastUpTo(s.queue, t)
    else Packet(Previous(Advance(s, t).MinTimestampOrBound()), Empty)
  }

  /** Packets that left without being the answer. */
  function Dropped(s: Stream, t: Timestamp): int {
    PrefixUpTo(s.queue, t) - (if LastUpTo(s.queue, t).timestamp == t then 1 else 0)
  }

  datatype ResizeResult = ResizeResult(stream: Stream, becameFull: bool, becameNonFull: bool)

  function AfterResize(s: Stream, maxSize: int): ResizeResult {
    var after := s.(maxSize := maxSize);
    ResizeResult(after, !s.IsFull() && after.IsFull(), s.IsFull() && !after.IsFull())
  }

  // ------------------------------------------------- runs of a timed stream

  /** A stream with everything it ever accepted and everything ever popped. */
  datatype Tracked = Tracked(stream: Stream, accepted: seq<Packet>, removed: seq<Packet>)

  datatype Op =
    | Add(batch: seq<Packet>)
    | Bound(bound: Timestamp)
    | Pop(at: Timestamp)
    | Resize(maxSize: int)
    | Shut

  /** A pop must not go back in time, which the code checks; its timestamp is one
      a packet could have, which FillInputSet checks. */
  predicate Legal(s: Stream, op: Op) {
    op.Pop? ==> s.timed && s.lastSelect <= op.at && IsAllowedInStream(op.at)
  }

  function Apply(x: Tracked, op: Op): Tracked
    requires Legal(x.stream, op)
  {
    match op
    case Add(batch) =>
      var r := AfterAdd(x.stream, batch);
      Tracked(r.stream,
              x.accepted + (if x.stream.closed then [] else batch[..AcceptedCount(x.stream, batch)]),
              x.removed)
    case Bound(bound) => x.(stream := AfterBound(x.stream, bound).stream)
    case Pop(at) =>
      x.(stream := Advance(x.stream, at),
         removed := x.removed + x.stream.queue[..PrefixUpTo(x.stream.queue, at)])
    case Resize(maxSize) => x.(stream := AfterResize(x.stream, maxSize).stream)
    case Shut => x.(stream := AfterClose(x.stream))
  }

  /** Whether an operation asks the consumer to look again. */
  predicate Signals(s: Stream, op: Op) {
    match op
    case Add(batch) => AfterAdd(s, batch).notify
    case Bound(bound) => AfterBound(s, bound).notify
    case _ => false
  }

  /** Whether an operation raises no error. */
  predicate Succeeds(s: Stream, op: Op) {
    match op
    case Add(batch) => AfterAdd(s, batch).ok
    case Bound(bound) => AfterBound(s, bound).ok
    case _ => true
  }

  /** What a stream may ever carry: one packet before the stream, or one after
      it, or any number of ordinary packets in strictly increasing order. */
  ghost predicate Grammar(h: seq<Packet>) {
    || h == []
    || (|h| == 1 && h[0].timestamp == PRE_STREAM)
    || (|h| == 1 && h[0].timestamp == POST_STREAM)
    || ((forall i :: 0 <= i < |h| ==> IsRange(h[i].timestamp)) && Increasing(h))
  }

  ghost predicate Increasing(h: seq<Packet>) {
    forall i, j :: 0 <= i < j < |h| ==> h[i].timestamp < h[j].timestamp
  }

  /** Legal packets of the right type, all of them below the bound. */
  ghost predicate FitsBelow(h: seq<Packet>, packetType: PacketType, bound: Timestamp) {
    forall i :: 0 <= i < |h| ==>
      && Validates(packetType, h[i])
      && IsAllowedInStream(h[i].timestamp)
      && Next(h[i].timestamp) <= bound
  }

  ghost predicate Consistent(x: Tracked) {
    && x.stream.timed
    && x.stream.bound >= PRE_STREAM
    && x.accepted == x.removed + x.stream.queue
    && x.stream.added == |x.accepted|
    && Increasing(x.accepted)
    && FitsBelow(x.accepted, x.stream.packetType, x.stream.bound)
    && Grammar(x.accepted)
    && (x.stream.closed ==> x.stream.bound == DONE)
  }

  /** Extending a history by a packet that respects its bound keeps the grammar:
      after a packet before the stream nothing fits, and one after the stream
      fits only alone. */
  lemma {:induction false} HistoryGrows(h: seq<Packet>, p: Packet, packetType: PacketType, bound: Timestamp)
    requires Increasing(h) && Grammar(h) && FitsBelow(h, packetType, bound)
    requires IsAllowedInStream(p.timestamp) && bound <= p.timestamp
    requires h != [] ==> p.timestamp != POST_STREAM
    ensures Increasing(h + [p]) && Grammar(h + [p])
  {
    if h != [] {
      assert MIN <= Next(h[0].timestamp) <= p.timestamp;
      assert forall i :: 0 <= i < |h| ==> IsRange(h[i].timestamp) && h[i].timestamp < p.timestamp;
    }
  }

  lemma {:induction false} FitGrows(h: seq<Packet>, p: Packet, packetType: PacketType, bound: Timestamp)
    requires FitsBelow(h, packetType, bound) && bound <= p.timestamp
    requires Validates(packetType, p) && IsAllowedInStream(p.timestamp)
    ensures FitsBelow(h + [p], packetType, Next(p.timestamp))
  {
    assert Next(p.timestamp) > p.timestamp;
  }

  lemma {:induction false} PushKeepsConsistent(x: Tracked, p: Packet)
    requires Consistent(x) && !x.stream.closed && Accepts(x.stream, p)
    ensures Consistent(Tracked(Push(x.stream, p), x.accepted + [p], x.removed))
  {
    HistoryGrows(x.accepted, p, x.stream.packetType, x.stream.bound);
    FitGrows(x.accepted, p, x.stream.packetType, x.stream.bound);
    assert x.removed + (x.stream.queue + [p]) == x.accepted + [p];
  }

  lemma {:induction false} PushAllKeepsConsistent(x: Tracked, batch: seq<Packet>)
    requires Consistent(x) && !x.stream.closed
    ensures Consistent(Tracked(PushAll(x.stream, batch),
                               x.accepted + batch[..AcceptedCount(x.stream, batch)], x.removed))
    ensures PushAll(x.stream, batch).bound >= x.stream.bound
    decreases |batch|
  {
    if batch == [] || !Accepts(x.stream, batch[0]) {
      assert x.accepted + batch[..0] == x.accepted;
    } else {
      var p := batch[0];
      PushKeepsConsistent(x, p);
      var y := Tracked(Push(x.stream, p), x.accepted + [p], x.removed);
      PushAllKeepsConsistent(y, batch[1..]);
      var n := AcceptedCount(y.stream, batch[1..]);
      assert (x.accepted + [p]) + batch[1..][..n] == x.accepted + batch[..n + 1];
    }
  }

  /** One operation keeps the grammar and the conservation of packets, even when
      a batch is rejected half way, and never lowers the bound. */
  lemma {:induction false} ApplyKeepsConsistent(x: Tracked, op: Op)
    requires Consistent(x) && Legal(x.stream, op)
    ensures Consistent(Apply(x, op))
    ensures Apply(x, op).stream.bound >= x.stream.bound
    ensures x.accepted <= Apply(x, op).accepted && x.removed <= Apply(x, op).removed
  {
    match op
    case Add(batch) =>
      if !x.stream.closed {
        PushAllKeepsConsistent(x, batch);
      } else {
        assert x.accepted + [] == x.accepted;
      }
    case Pop(at) =>
      var n := PrefixUpTo(x.stream.queue, at);
      assert (x.removed + x.stream.queue[..n]) + x.stream.queue[n..] == x.accepted;
    case Bound(_) =>
    case Resize(_) =>
    case Shut =>
  }

  /** What an operation puts into the queue. */
  function NewPackets(x: Tracked, op: Op): seq<Packet> {
    if op.Add? && !x.stream.closed then op.batch[..AcceptedCount(x.stream, op.batch)] else []
  }

  lemma {:induction false} AcceptedAreLate(s: Stream, batch: seq<Packet>)
    requires s.timed
    ensures forall i :: 0 <= i < AcceptedCount(s, batch) ==> batch[i].timestamp >= s.bound
    decreases |batch|
  {
    if batch == [] || !Accepts(s, batch[0]) {
    } else {
      AcceptedAreLate(Push(s, batch[0]), batch[1..]);
      var n := AcceptedCount(Push(s, batch[0]), batch[1..]);
      assert forall i :: 0 < i <= n ==> batch[i] == batch[1..][i - 1];
    }
  }

  /** Whatever a producer does, new packets go to the back of the queue and are at
      or above the bound; nothing else about the packets changes. */
  lemma {:induction false} ProducersOnlyAppend(x: Tracked, op: Op)
    requires Consistent(x) && !op.Pop?
    ensures var y, more := Apply(x, op), NewPackets(x, op);
            && y.stream.queue == x.stream.queue + more
            && y.accepted == x.accepted + more && y.removed == x.removed
            && y.stream.bound >= x.stream.bound
            && (forall i :: 0 <= i < |more| ==> more[i].timestamp >= x.stream.bound)
            && (!op.Shut? ==> y.stream.lastSelect == x.stream.lastSelect && y.stream.closed == x.stream.closed)
  {
    ApplyKeepsConsistent(x, op);
    if op.Add? && !x.stream.closed {
      PushAllAppends(x.stream, op.batch);
      AcceptedAreLate(x.stream, op.batch);
    }
  }

  /** What a consumer may rely on while producers work on a stream: the packets it
      has seen stay in front, and new ones come at or above the old bound. */
  ghost predicate Extends(x: Tracked, y: Tracked) {
    && y.removed == x.removed
    && y.stream.bound >= x.stream.bound
    && |x.stream.queue| <= |y.stream.queue|
    && (forall k :: 0 <= k < |y.stream.queue| ==>
          if k < |x.stream.queue| then y.stream.queue[k] == x.stream.queue[k]
          else y.stream.queue[k].timestamp >= x.stream.bound)
  }

  lemma {:induction false} ProducersExtend(x: Tracked, op: Op)
    requires Consistent(x) && !op.Pop?
    ensures Consistent(Apply(x, op)) && Extends(x, Apply(x, op))
    ensures !op.Shut? ==>
              && Apply(x, op).stream.lastSelect == x.stream.lastSelect
              && Apply(x, op).stream.closed == x.stream.closed
  {
    ApplyKeepsConsistent(x, op);
    ProducersOnlyAppend(x, op);
  }

  predicate HeadAt(s: Stream, t: Timestamp) {
    s.queue != [] && s.queue[0].timestamp == t
  }

  /** No packet at or before `t` can still arrive, and none before `t` waits. */
  predicate SettledAt(s: Stream, t: Timestamp) {
    s.bound > t && (s.queue != [] ==> s.queue[0].timestamp >= t)
  }

  lemma {:induction false} QueueInHistory(x: Tracked)
    requires Consistent(x)
    ensures Increasing(x.stream.queue)
    ensures forall i :: 0 <= i < |x.stream.queue| ==>
              && x.stream.queue[i].payload.Content?
              && IsAllowedInStream(x.stream.queue[i].timestamp)
              && x.stream.queue[i].timestamp < x.stream.bound
  {
    var k := |x.removed|;
    assert forall i :: 0 <= i < |x.stream.queue| ==> x.stream.queue[i] == x.accepted[k + i];
  }

  lemma {:induction false} HeadInHistory(x: Tracked)
    requires Consistent(x)
    ensures x.stream.queue != [] ==> IsAllowedInStream(x.stream.queue[0].timestamp)
  {
    QueueInHistory(x);
  }

  lemma {:induction false} SettledPrefix(x: Tracked, t: Timestamp)
    requires Consistent(x) && SettledAt(x.stream, t)
    ensures PrefixUpTo(x.stream.queue, t) == if HeadAt(x.stream, t) then 1 else 0
  {
    QueueInHistory(x);
    PrefixUnique(x.stream.queue, t, if HeadAt(x.stream, t) then 1 else 0);
  }

  /** Popping a stream that is settled at `t` takes the packet at `t`, if there is
      one, and nothing else: no packet is dropped. */
  lemma {:induction false} PopSettled(x: Tracked, t: Timestamp)
    requires Consistent(x) && IsAllowedInStream(t) && x.stream.lastSelect <= t && SettledAt(x.stream, t)
    ensures Dropped(x.stream, t) == 0
    ensures HeadAt(x.stream, t) ==> Selected(x.stream, t) == x.stream.queue[0] && x.stream.queue[0].payload.Content?
    ensures !HeadAt(x.stream, t) ==> Selected(x.stream, t).payload == Empty
    ensures Apply(x, Pop(t)).removed == x.removed + if HeadAt(x.stream, t) then [x.stream.queue[0]] else []
  {
    QueueInHistory(x);
    SettledPrefix(x, t);
    if HeadAt(x.stream, t) {
      assert x.stream.queue[..1] == [x.stream.queue[0]];
    }
  }

  lemma {:induction false} PopLeavesLater(x: Tracked, t: Timestamp)
    requires Consistent(x) && IsAllowedInStream(t) && x.stream.lastSelect <= t && SettledAt(x.stream, t)
    ensures var y := Apply(x, Pop(t));
            && y.stream.bound == x.stream.bound && y.accepted == x.accepted
            && y.stream.lastSelect == t && y.stream.closed == x.stream.closed
            && (forall i :: 0 <= i < |y.stream.queue| ==> y.stream.queue[i].timestamp > t)
  {
    QueueInHistory(x);
    SettledPrefix(x, t);
  }

  /** Runs of a stream: each state follows from the one before by a legal operation. */
  ghost predicate IsRun(run: seq<Tracked>, ops: seq<Op>) {
    && |run| == |ops| + 1
    && (exists packetType, maxSize :: run[0] == Tracked(EmptyStream(packetType, maxSize), [], []))
    && (forall i :: 0 <= i < |ops| ==>
          Legal(run[i].stream, ops[i]) && run[i + 1] == Apply(run[i], ops[i]))
  }

  /** Over every run: packets are conserved, in order; the stream grammar holds;
      the queue is below the bound; the bound and both histories only grow. */
  lemma {:induction false} RunsAreConsistent(run: seq<Tracked>, ops: seq<Op>, i: nat, j: nat)
    requires IsRun(run, ops) && i <= j < |run|
    ensures Consistent(run[i]) && Consistent(run[j])
    ensures run[i].stream.bound <= run[j].stream.bound
    ensures run[i].accepted <= run[j].accepted && run[i].removed <= run[j].removed
    decreases j
  {
    if j > 0 {
      if i < j {
        RunsAreConsistent(run, ops, i, j - 1);
      } else {
        RunsAreConsistent(run, ops, j - 1, j - 1);
      }
      ApplyKeepsConsistent(run[j - 1], ops[j - 1]);
    }
  }

  // ----------------------------------------------------------- the class

  class InputStreamManager {
    var queue: seq<Packet>
    var numPacketsAdded: nat
    var nextTimestampBound: Timestamp
    var lastSelectTimestamp: Timestamp
    var closed: bool
    var enableTimestamps: bool
    var maxQueueSize: int
    const packetType: PacketType

    function State(): Stream
      reads this
    {
      Stream(queue, numPacketsAdded, nextTimestampBound, lastSelectTimestamp,
             closed, enableTimestamps, maxQueueSize, packetType)
    }

    constructor (packetType: PacketType)
      ensures State() == EmptyStream(packetType, -1)
    {
      queue := [];
      numPacketsAdded := 0;
      nextTimestampBound := PRE_STREAM;
      lastSelectTimestamp := UNSTARTED;
      closed := false;
      enableTimestamps := true;
      maxQueueSize := -1;
      this.packetType := packetType;
    }

    /** Adds a batch packet by packet and stops at the first one rejected. */
    method AddPackets(container: seq<Packet>) returns (ok: bool, notify: bool, becameFull: bool)
      modifies this
      ensures AddResult(State(), ok, notify, becameFull) == AfterAdd(old(State()), container)
    {
      ghost var before := State();
      if closed {
        return true, false, false;
      }
      var wasQueueFull := maxQueueSize != -1 && |queue| >= maxQueueSize;
      var queueBecameNonEmpty := queue == [] && container != [];
      var i := 0;
      while i < |container|
        invariant 0 <= i <= |container|
        invariant PushAll(before, container) == PushAll(State(), container[i..])
        invariant AcceptedCount(before, container) == i + AcceptedCount(State(), container[i..])
        invariant !closed && State().maxSize == before.maxSize
      {
        var packet := container[i];
        assert container[i..][0] == packet && container[i..][1..] == container[i + 1..];
        if !Validates(packetType, packet) || !IsAllowedInStream(packet.timestamp) {
          return false, false, false;
        }
        if enableTimestamps {
          if packet.timestamp == POST_STREAM && numPacketsAdded > 0 {
            return false, false, false;
          }
          if packet.timestamp < nextTimestampBound {
            return false, false, false;
          }
        }
        nextTimestampBound := Next(packet.timestamp);
        numPacketsAdded := numPacketsAdded + 1;
        queue := queue + [packet];
        i := i + 1;
      }
      becameFull := !wasQueueFull && maxQueueSize != -1 && |queue| >= maxQueueSize;
      ok, notify := true, queueBecameNonEmpty;
    }

    method SetNextTimestampBound(bound: Timestamp) returns (ok: bool, notify: bool)
      modifies this
      ensures BoundResult(State(), ok, notify) == AfterBound(old(State()), bound)
    {
      notify := false;
      if closed {
        return true, false;
      }
      if enableTimestamps && bound < nextTimestampBound {
        return false, false;
      }
      if bound > nextTimestampBound {
        nextTimestampBound := bound;
        if queue == [] {
          notify := true;
        }
      }
      ok := true;
    }

    method Close()
      modifies this
      ensures State() == AfterClose(old(State()))
    {
      if closed {
        return;
      }
      nextTimestampBound := DONE;
      lastSelectTimestamp := DONE;
      closed := true;
    }

    /** Pops one packet at a time while the head is at or before `timestamp`, and
        returns the last one popped and how many there were. */
    method PopUpTo(timestamp: Timestamp) returns (last: Packet, popped: nat)
      modifies this`queue
      ensures popped == PrefixUpTo(old(queue), timestamp) && queue == old(queue)[popped..]
      ensures last == LastUpTo(old(queue), timestamp)
    {
      last, popped := Packet(UNSET, Empty), 0;
      while queue != [] && queue[0].timestamp <= timestamp
        invariant 0 <= popped <= |old(queue)| && queue == old(queue)[popped..]
        invariant forall i :: 0 <= i < popped ==> old(queue)[i].timestamp <= timestamp
        invariant last == if popped == 0 then Packet(UNSET, Empty) else old(queue)[popped - 1]
        decreases |queue|
      {
        last := queue[0];
        queue := queue[1..];
        popped := popped + 1;
      }
      PrefixUnique(old(queue), timestamp, popped);
    }

    method PopPacketAtTimestamp(timestamp: Timestamp)
      returns (packet: Packet, numPacketsDropped: int, streamIsDone: bool, becameNonFull: bool)
      requires enableTimestamps && lastSelectTimestamp <= timestamp
      modifies this
      ensures State() == Advance(old(State()), timestamp)
      ensures packet == Selected(old(State()), timestamp)
      ensures numPacketsDropped == Dropped(old(State()), timestamp)
      ensures streamIsDone == State().IsDone()
      ensures becameNonFull == (old(State().IsFull()) && !State().IsFull())
    {
      lastSelectTimestamp := timestamp;
      if nextTimestampBound <= timestamp {
        nextTimestampBound := Next(timestamp);
      }
      var wasQueueFull := maxQueueSize != -1 && |queue| >= maxQueueSize;
      var last, popped := PopUpTo(timestamp);
      if last.timestamp == timestamp {
        packet := last;
        numPacketsDropped := popped as int - 1;
      } else {
        var bound := if queue == [] then nextTimestampBound else queue[0].timestamp;
        packet := Packet(Previous(bound), Empty);
        numPacketsDropped := popped;
      }
      becameNonFull := wasQueueFull && |queue| < maxQueueSize;
      streamIsDone := queue == [] && nextTimestampBound == DONE;
    }

    method SetMaxQueueSize(size: int) returns (becameFull: bool, becameNonFull: bool)
      modifies this
      ensures ResizeResult(State(), becameFull, becameNonFull) == AfterResize(old(State()), size)
    {
      var wasFull := maxQueueSize != -1 && |queue| >= maxQueueSize;
      maxQueueSize := size;
      var isFull := maxQueueSize != -1 && |queue| >= maxQueueSize;
      becameFull := !wasFull && isFull;
      becameNonFull := wasFull && !isFull;
    }
  }
}
