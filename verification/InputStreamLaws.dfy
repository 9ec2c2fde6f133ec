/** What a stream answers, said without its code: which packets and bounds it takes,
    what a pop gives back, and when its consumer is notified. */
module InputStreamLaws {
  import opened Timestamps
  import opened InputStreams
  import opened SyncSets

  // ------------------------------------------------------- what is taken

  lemma {:induction false} GrammarGrows(h: seq<Packet>, p: Packet, bound: Timestamp)
    requires Increasing(h) && Grammar(h) && p.timestamp >= bound
    requires forall i :: 0 <= i < |h| ==> Next(h[i].timestamp) <= bound
    ensures Grammar(h + [p]) <==> IsAllowedInStream(p.timestamp) && !(h != [] && p.timestamp == POST_STREAM)
  {
    var g := h + [p];
    assert g[|h|] == p && forall i :: 0 <= i < |h| ==> g[i] == h[i];
    if h == [] {
    } else if IsAllowedInStream(p.timestamp) && p.timestamp != POST_STREAM {
      assert Next(h[0].timestamp) <= p.timestamp;
      assert forall i :: 0 <= i < |h| ==> IsRange(h[i].timestamp) && h[i].timestamp < p.timestamp;
    }
  }

  /** An open stream takes a packet exactly if the packet is of the right type, not
      below the bound, and leaves a history that a stream may have. */
  lemma {:induction false} TakesPacketIff(x: Tracked, p: Packet)
    requires Consistent(x) && !x.stream.closed
    ensures Accepts(x.stream, p) <==>
              Validates(x.stream.packetType, p) && p.timestamp >= x.stream.bound && Grammar(x.accepted + [p])
  {
    if p.timestamp >= x.stream.bound {
      GrammarGrows(x.accepted, p, x.stream.bound);
    }
  }

  /** Nothing empty is ever accepted, and nothing of another type by a stream that has
      one; the type never keeps content out of a stream without one. */
  lemma {:induction false} TypesAreKept(x: Tracked, i: nat, payload: Payload, t: Timestamp)
    requires Consistent(x)
    ensures i < |x.accepted| ==>
              && x.accepted[i].payload != Empty
              && (x.stream.packetType.OneType? ==> x.accepted[i].payload.kind == x.stream.packetType.kind)
    ensures Validates(AnyType, Packet(t, payload)) <==> payload != Empty
    ensures payload.Content? ==>
              forall kind: nat :: Validates(OneType(kind), Packet(t, payload)) <==> kind == payload.kind
  {
    assert i < |x.accepted| ==> Validates(x.stream.packetType, x.accepted[i]);
  }

  predicate AllValid(packetType: PacketType, batch: seq<Packet>) {
    forall i :: 0 <= i < |batch| ==> Validates(packetType, batch[i])
  }

  lemma {:induction false} GrammarOfPrefix(h: seq<Packet>, g: seq<Packet>)
    requires Grammar(h + g)
    ensures Grammar(h)
  {
    assert forall i :: 0 <= i < |h| ==> (h + g)[i] == h[i];
  }

  /** The rest of a legal history comes at or after the successor of what is there. */
  lemma {:induction false} RestIsLater(h: seq<Packet>, p: Packet, q: Packet, rest: seq<Packet>)
    requires Grammar(h + [p] + [q] + rest)
    ensures q.timestamp >= Next(p.timestamp)
  {
    var all, n := h + [p] + [q] + rest, |h|;
    assert all[n] == p && all[n + 1] == q;
  }

  /** A whole batch is taken exactly if every packet is of the right type, the first
      is not below the bound, and the history stays one that a stream may have. */
  lemma {:induction false} TakesBatchIff(x: Tracked, batch: seq<Packet>)
    requires Consistent(x) && !x.stream.closed
    ensures AfterAdd(x.stream, batch).ok <==>
              && AllValid(x.stream.packetType, batch) && Grammar(x.accepted + batch)
              && (batch != [] ==> batch[0].timestamp >= x.stream.bound)
    decreases |batch|
  {
    if batch == [] {
      assert x.accepted + batch == x.accepted;
    } else {
      var p, rest := batch[0], batch[1..];
      TakesPacketIff(x, p);
      assert batch == [p] + rest && x.accepted + batch == (x.accepted + [p]) + rest;
      if Accepts(x.stream, p) {
        PushKeepsConsistent(x, p);
        TakesBatchIff(Tracked(Push(x.stream, p), x.accepted + [p], x.removed), rest);
        if rest != [] && Grammar(x.accepted + batch) {
          assert rest == [rest[0]] + rest[1..];
          assert x.accepted + batch == x.accepted + [p] + [rest[0]] + rest[1..];
          RestIsLater(x.accepted, p, rest[0], rest[1..]);
        }
      } else if Grammar(x.accepted + batch) {
        GrammarOfPrefix(x.accepted + [p], rest);
      }
    }
  }

  lemma {:induction false} OrdinaryGrammar(h: seq<Packet>, batch: seq<Packet>, bound: Timestamp)
    requires Increasing(h) && forall i :: 0 <= i < |h| ==> IsRange(h[i].timestamp) && h[i].timestamp < bound
    requires Increasing(batch) && forall i :: 0 <= i < |batch| ==> IsRange(batch[i].timestamp)
    requires batch != [] ==> batch[0].timestamp >= bound
    ensures Grammar(h + batch)
  {
    var g := h + batch;
    assert forall i :: 0 <= i < |g| ==> g[i] == if i < |h| then h[i] else batch[i - |h|];
    assert forall j :: 0 <= j < |batch| ==> batch[j].timestamp >= bound;
  }

  /** In particular an open stream takes whole every batch of valid packets at strictly
      increasing ordinary timestamps that starts at or above the bound. */
  lemma {:induction false} TakesOrdinaryBatch(x: Tracked, batch: seq<Packet>)
    requires Consistent(x) && !x.stream.closed && AllValid(x.stream.packetType, batch)
    requires Increasing(batch) && forall i :: 0 <= i < |batch| ==> IsRange(batch[i].timestamp)
    requires batch != [] ==> batch[0].timestamp >= x.stream.bound
    ensures AfterAdd(x.stream, batch).ok
    ensures Apply(x, Op.Add(batch)).stream.queue == x.stream.queue + batch
    ensures batch != [] ==> Apply(x, Op.Add(batch)).stream.bound == Next(batch[|batch| - 1].timestamp)
  {
    if batch == [] {
      assert x.accepted + batch == x.accepted;
    } else {
      forall i | 0 <= i < |x.accepted|
        ensures IsRange(x.accepted[i].timestamp) && x.accepted[i].timestamp < x.stream.bound
      {
        assert Next(x.accepted[i].timestamp) <= batch[0].timestamp <= MAX;
      }
      OrdinaryGrammar(x.accepted, batch, x.stream.bound);
    }
    TakesBatchIff(x, batch);
    PushAllAppends(x.stream, batch);
    assert batch[..|batch|] == batch;
  }

  /** A stream whose timestamps do not matter takes every valid packet. */
  lemma {:induction false} UntimedTakesIff(s: Stream, p: Packet)
    requires !s.timed
    ensures Accepts(s, p) <==> Validates(s.packetType, p) && IsAllowedInStream(p.timestamp)
  {
  }

  /** A bound is refused exactly if it is below the one there is; the stream ends up
      with the larger of the two, and with the packets it had. */
  lemma {:induction false} TakesBoundIff(s: Stream, bound: Timestamp)
    requires !s.closed && s.timed
    ensures AfterBound(s, bound).ok <==> bound >= s.bound
    ensures AfterBound(s, bound).stream == s.(bound := Max2(s.bound, bound))
  {
  }

  /** A closed stream takes no notice of its producers, and closes once. */
  lemma {:induction false} ClosedIsFinal(s: Stream, op: Op)
    requires op.Add? || op.Bound? || op.Shut?
    ensures var c := AfterClose(s);
            && c.closed && c.queue == s.queue && (!s.closed ==> c.bound == DONE && c.lastSelect == DONE)
            && Apply(Tracked(c, [], []), op).stream == c
            && Succeeds(c, op) && !Signals(c, op)
  {
  }

  /** A notification is made exactly when an update without an error changes what a
      look at the stream would show. */
  lemma {:induction false} SignalledIffVisible(x: Tracked, op: Op)
    requires Consistent(x) && !op.Pop? && !op.Shut? && Succeeds(x.stream, op)
    ensures Signals(x.stream, op) <==> Observe(Apply(x, op).stream) != Observe(x.stream)
  {
    if op.Add? && !x.stream.closed {
      PushAllAppends(x.stream, op.batch);
      assert op.batch[..|op.batch|] == op.batch;
    }
  }

  /** A rejected batch notifies nobody. */
  lemma {:induction false} FailureIsNotSignalled(s: Stream, op: Op)
    requires !Succeeds(s, op)
    ensures !Signals(s, op)
  {
  }

  // ------------------------------------------------------ what a pop gives

  /** How many packets wait before `t`. */
  function WaitingBefore(queue: seq<Packet>, t: Timestamp): nat {
    if queue == [] then 0
    else (if queue[0].timestamp < t then 1 else 0) + WaitingBefore(queue[1..], t)
  }

  predicate WaitsAt(queue: seq<Packet>, t: Timestamp) {
    exists i :: 0 <= i < |queue| && queue[i].timestamp == t
  }

  lemma {:induction false} WaitsInRest(queue: seq<Packet>, t: Timestamp)
    requires queue != [] && queue[0].timestamp != t
    ensures WaitsAt(queue, t) <==> WaitsAt(queue[1..], t)
  {
    var rest := queue[1..];
    assert forall i :: 0 < i < |queue| ==> queue[i] == rest[i - 1];
    if i :| 0 <= i < |rest| && rest[i].timestamp == t {
      assert queue[i + 1].timestamp == t;
    }
  }

  lemma {:induction false} CountsBefore(queue: seq<Packet>, t: Timestamp)
    requires Increasing(queue)
    ensures PrefixUpTo(queue, t) == WaitingBefore(queue, t) + if WaitsAt(queue, t) then 1 else 0
    ensures WaitsAt(queue, t) ==> PrefixUpTo(queue, t) > 0 && queue[PrefixUpTo(queue, t) - 1].timestamp == t
  {
    if queue == [] {
    } else {
      var rest := queue[1..];
      assert forall i :: 0 < i < |queue| ==> queue[i] == rest[i - 1];
      if queue[0].timestamp < t {
        CountsBefore(rest, t);
        WaitsInRest(queue, t);
      } else {
        NoneBefore(rest, t);
        FirstIsLate(queue, t);
      }
    }
  }

  lemma {:induction false} FirstIsLate(queue: seq<Packet>, t: Timestamp)
    requires Increasing(queue) && queue != [] && queue[0].timestamp >= t
    ensures PrefixUpTo(queue, t) == if queue[0].timestamp == t then 1 else 0
    ensures WaitsAt(queue, t) <==> queue[0].timestamp == t
  {
    PrefixUnique(queue, t, if queue[0].timestamp == t then 1 else 0);
  }

  lemma {:induction false} NoneBefore(queue: seq<Packet>, t: Timestamp)
    requires forall i :: 0 <= i < |queue| ==> queue[i].timestamp >= t
    ensures WaitingBefore(queue, t) == 0
  {
    if queue == [] {
    } else {
      NoneBefore(queue[1..], t);
    }
  }

  lemma {:induction false} TailMember(queue: seq<Packet>, t: Timestamp, i: nat)
    requires Increasing(queue) && i < |queue|
    ensures queue[i] in queue[PrefixUpTo(queue, t)..] <==> queue[i].timestamp > t
  {
    var n := PrefixUpTo(queue, t);
    if i >= n {
      assert queue[n..][i - n] == queue[i];
    }
    TailIsLater(queue, t);
  }

  lemma {:induction false} TailIsLater(queue: seq<Packet>, t: Timestamp)
    requires Increasing(queue)
    ensures forall k :: PrefixUpTo(queue, t) <= k < |queue| ==> queue[k].timestamp > t
  {
  }

  lemma {:induction false} OneAt(queue: seq<Packet>, t: Timestamp, i: nat)
    requires Increasing(queue) && i < |queue| && queue[i].timestamp == t
    ensures LastUpTo(queue, t) == queue[i]
  {
    CountsBefore(queue, t);
  }

  lemma {:induction false} NoneAt(queue: seq<Packet>, t: Timestamp)
    requires Increasing(queue) && forall i :: 0 <= i < |queue| ==> queue[i].timestamp != t
    requires t != UNSET
    ensures LastUpTo(queue, t).timestamp != t
  {
  }

  lemma {:induction false} DroppedBefore(queue: seq<Packet>, t: Timestamp)
    requires Increasing(queue) && t != UNSET
    ensures PrefixUpTo(queue, t) - (if LastUpTo(queue, t).timestamp == t then 1 else 0) == WaitingBefore(queue, t)
  {
    CountsBefore(queue, t);
    if i :| 0 <= i < |queue| && queue[i].timestamp == t {
      OneAt(queue, t, i);
    } else {
      NoneAt(queue, t);
    }
  }

  /** A pop at `t`, settled or not, answers with the packet at `t` if one waits, drops
      exactly the packets before `t`, keeps the later ones, and leaves a stream to
      which nothing at or before `t` can be added. */
  lemma {:induction false} PopAnswers(x: Tracked, t: Timestamp, i: nat)
    requires Consistent(x) && IsAllowedInStream(t) && i < |x.stream.queue|
    ensures Dropped(x.stream, t) == WaitingBefore(x.stream.queue, t)
    ensures x.stream.queue[i].timestamp == t ==> Selected(x.stream, t) == x.stream.queue[i]
    ensures x.stream.queue[i] in Advance(x.stream, t).queue <==> x.stream.queue[i].timestamp > t
  {
    QueueInHistory(x);
    DroppedBefore(x.stream.queue, t);
    TailMember(x.stream.queue, t, i);
    if x.stream.queue[i].timestamp == t {
      OneAt(x.stream.queue, t, i);
    }
  }

  /** What is left of the stream: a tail of its queue, and a bound after `t`, the one
      it had or what a packet at `t` would have left. */
  lemma {:induction false} PopLeaves(s: Stream, t: Timestamp)
    requires IsAllowedInStream(t)
    ensures var r := Advance(s, t);
            && r.bound > t && (s.bound > t ==> r.bound == s.bound) && r.bound <= Max2(s.bound, Next(t))
            && r.lastSelect == t
            && r == s.(queue := r.queue, bound := r.bound, lastSelect := r.lastSelect)
            && |r.queue| <= |s.queue| && r.queue == s.queue[|s.queue| - |r.queue|..]
  {
  }

  /** The answer where no packet waits names the last timestamp before anything that
      can still come. */
  lemma {:induction false} EmptyAnswer(x: Tracked, t: Timestamp)
    requires Consistent(x) && IsAllowedInStream(t)
    requires forall i :: 0 <= i < |x.stream.queue| ==> x.stream.queue[i].timestamp != t
    ensures var next, p := Advance(x.stream, t).MinTimestampOrBound(), Selected(x.stream, t);
            && p.payload == Empty
            && (IsRange(next) && next != MIN ==> p.timestamp >= t && Next(p.timestamp) == next)
  {
    QueueInHistory(x);
    NoneAt(x.stream.queue, t);
    TailIsLater(x.stream.queue, t);
  }

  /** A stream is done only when nothing waits and nothing can be added. */
  lemma {:induction false} DoneIsEmptyForGood(x: Tracked, p: Packet)
    requires Consistent(x) && x.stream.IsDone()
    ensures x.stream.queue == [] && !Accepts(x.stream, p)
  {
  }

  /** One that has been closed and emptied is done. */
  lemma {:induction false} ClosedAndEmptyIsDone(x: Tracked)
    requires Consistent(x) && x.stream.closed && x.stream.queue == []
    ensures x.stream.IsDone()
  {
  }
}
