/** How a node decides, from one reading of each input stream, whether it may
    process a timestamp, may close, or must wait; and what the sequence of input
    sets it processes ought to be. */
module SyncSets {
  import opened Collections
  import opened Timestamps
  import opened InputStreams

  datatype Readiness = NotReady | ReadyForProcess | ReadyForClose

  // ------------------------------------------------------------ the decision

  /** What one look at a stream tells. */
  datatype Observation = Observation(timestamp: Timestamp, empty: bool)

  function Observe(s: Stream): Observation {
    Observation(s.MinTimestampOrBound(), s.queue == [])
  }

  /** The running minima: over the bounds of empty streams, and over the first
      packets of the others. */
  datatype Minima = Minima(bound: Timestamp, packet: Timestamp)

  function Include(m: Minima, o: Observation): Minima {
    if o.empty then m.(bound := Min2(m.bound, o.timestamp))
    else m.(packet := Min2(m.packet, o.timestamp))
  }

  function MinimaOf(obs: seq<Observation>): (m: Minima)
    ensures forall i :: 0 <= i < |obs| && obs[i].empty ==> m.bound <= obs[i].timestamp
    ensures forall i :: 0 <= i < |obs| && !obs[i].empty ==> m.packet <= obs[i].timestamp
    ensures m.bound == DONE || exists i :: 0 <= i < |obs| && obs[i].empty && obs[i].timestamp == m.bound
    ensures m.packet == DONE || exists i :: 0 <= i < |obs| && !obs[i].empty && obs[i].timestamp == m.packet
  {
    if obs == [] then Minima(DONE, DONE)
    else Include(MinimaOf(obs[..|obs| - 1]), obs[|obs| - 1])
  }

  /** The answer, its timestamp, and the new last processed timestamp. */
  datatype Verdict = Verdict(readiness: Readiness, timestamp: Timestamp, lastProcessed: Timestamp)

  function Settled(m: Minima): Timestamp {
    if m.packet == POST_STREAM && m.bound > m.packet then m.packet else Previous(m.bound)
  }

  function Judge(m: Minima, processTimestamps: bool, last: Timestamp): Verdict {
    var minimum := Min2(m.packet, m.bound);
    if minimum >= ONE_OVER_POST_STREAM then Verdict(ReadyForClose, DONE, Previous(DONE))
    else if !processTimestamps then
      if m.bound > m.packet then Verdict(ReadyForProcess, minimum, minimum)
      else Verdict(NotReady, minimum, last)
    else
      var input := Min2(m.packet, Settled(m));
      if input > Max2(last, UNSTARTED) then Verdict(ReadyForProcess, input, input)
      else Verdict(NotReady, minimum, last)
  }

  // ------------------------------------------- what the answer ought to mean

  /** A timestamp that has a packet and on which no stream can add anything. */
  ghost predicate Processable(streams: seq<Stream>, t: Timestamp) {
    && (exists i :: 0 <= i < |streams| && streams[i].queue != [] && streams[i].queue[0].timestamp == t)
    && (forall i :: 0 <= i < |streams| ==> SettledAt(streams[i], t))
  }

  ghost predicate Exhausted(streams: seq<Stream>) {
    forall i :: 0 <= i < |streams| ==> streams[i].queue == [] && streams[i].bound >= ONE_OVER_POST_STREAM
  }

  /** Queued packets have legal timestamps, below the bound. */
  predicate Sound(s: Stream) {
    && s.bound > UNSTARTED
    && (s.queue != [] ==> IsAllowedInStream(s.queue[0].timestamp) && s.queue[0].timestamp < s.bound)
  }

  function ObserveAll(streams: seq<Stream>): (obs: seq<Observation>)
    ensures |obs| == |streams|
    ensures forall i :: 0 <= i < |streams| ==> obs[i] == Observe(streams[i])
  {
    seq(|streams|, i requires 0 <= i < |streams| => Observe(streams[i]))
  }

  lemma {:induction false} SeenProcessable(streams: seq<Stream>, t: Timestamp)
    requires forall i :: 0 <= i < |streams| ==> Sound(streams[i])
    requires var m := MinimaOf(ObserveAll(streams)); m.packet == t && m.bound > t && t < DONE
    ensures Processable(streams, t)
  {
    var obs := ObserveAll(streams);
    var k :| 0 <= k < |obs| && !obs[k].empty && obs[k].timestamp == t;
    assert streams[k].queue[0].timestamp == t;
    forall i | 0 <= i < |streams|
      ensures SettledAt(streams[i], t)
    {
      assert obs[i] == Observe(streams[i]) && Sound(streams[i]);
    }
  }

  lemma {:induction false} ProcessableSeen(streams: seq<Stream>, t: Timestamp)
    requires forall i :: 0 <= i < |streams| ==> Sound(streams[i])
    requires Processable(streams, t)
    ensures IsAllowedInStream(t)
    ensures var m := MinimaOf(ObserveAll(streams)); m.packet == t && m.bound > t
  {
    var obs := ObserveAll(streams);
    var k :| 0 <= k < |streams| && streams[k].queue != [] && streams[k].queue[0].timestamp == t;
    assert !obs[k].empty && Sound(streams[k]);
    assert forall i :: 0 <= i < |streams| ==> SettledAt(streams[i], t) && obs[i] == Observe(streams[i]);
  }

  lemma {:induction false} ExhaustedSeen(streams: seq<Stream>)
    requires forall i :: 0 <= i < |streams| ==> Sound(streams[i])
    ensures var m := MinimaOf(ObserveAll(streams));
            Min2(m.packet, m.bound) >= ONE_OVER_POST_STREAM <==> Exhausted(streams)
  {
    var obs := ObserveAll(streams);
    assert forall i :: 0 <= i < |streams| ==> obs[i] == Observe(streams[i]) && Sound(streams[i]);
  }

  /** Without timestamp-bound processing the decision is exact on an undisturbed
      set of streams: it names a timestamp just when one can be processed, and
      closes just when every stream is exhausted. */
  lemma {:induction false} JudgeIsExact(streams: seq<Stream>, last: Timestamp, t: Timestamp)
    requires forall i :: 0 <= i < |streams| ==> Sound(streams[i])
    ensures var v := Judge(MinimaOf(ObserveAll(streams)), false, last);
            && (v.readiness == ReadyForProcess && v.timestamp == t <==> Processable(streams, t))
            && (v.readiness == ReadyForClose <==> Exhausted(streams))
  {
    ExhaustedSeen(streams);
    var m := MinimaOf(ObserveAll(streams));
    if m.packet == t && m.bound > t && t < ONE_OVER_POST_STREAM {
      SeenProcessable(streams, t);
    } else if Processable(streams, t) {
      ProcessableSeen(streams, t);
    }
  }

  /** With timestamp-bound processing a processable packet later than everything
      processed so far is found unless the lowest bound of an empty stream is one
      of the two timestamps that have no predecessor. */
  lemma {:induction false} BoundProcessingMisses(m: Minima, last: Timestamp)
    requires IsAllowedInStream(m.packet) && m.packet < m.bound && m.packet > Max2(last, UNSTARTED)
    ensures Judge(m, true, last).readiness == ReadyForProcess <==> m.bound != MIN && (m.bound != POST_STREAM)
    ensures Judge(m, true, last).readiness == ReadyForProcess ==> Judge(m, true, last).timestamp == m.packet
  {
  }

  /** The same on streams: of a timestamp that can be processed and is later than
      everything processed, the decision is exact if and only if the lowest bound of
      an empty stream has a predecessor. */
  lemma {:induction false} BoundProcessingIsExactIff(streams: seq<Stream>, last: Timestamp, t: Timestamp)
    requires forall i :: 0 <= i < |streams| ==> Sound(streams[i])
    requires Processable(streams, t) && t > last
    ensures var m := MinimaOf(ObserveAll(streams));
            var v := Judge(m, true, last);
            v.readiness == ReadyForProcess && v.timestamp == t <==> m.bound != MIN && m.bound != POST_STREAM
  {
    ProcessableSeen(streams, t);
    BoundProcessingMisses(MinimaOf(ObserveAll(streams)), last);
  }

  /** One such case: a packet at 5, and another stream that promises only a packet
      after the end of the stream. */
  lemma {:induction false} BoundProcessingMissesExample(p: Packet)
    requires p.timestamp == 5
    ensures var first := EmptyStream(AnyType, -1).(queue := [p], added := 1, bound := 6);
            var second := EmptyStream(AnyType, -1).(bound := POST_STREAM);
            var streams := [first, second];
            && (forall i :: 0 <= i < |streams| ==> Sound(streams[i])) && Processable(streams, 5)
            && Judge(MinimaOf(ObserveAll(streams)), true, UNSET).readiness == NotReady
            && Judge(MinimaOf(ObserveAll(streams)), false, UNSET).readiness == ReadyForProcess
  {
    var first := EmptyStream(AnyType, -1).(queue := [p], added := 1, bound := 6);
    var second := EmptyStream(AnyType, -1).(bound := POST_STREAM);
    var streams := [first, second];
    var obs := ObserveAll(streams);
    assert streams[0].queue[0].timestamp == 5;
    assert obs == [Observation(5, false), Observation(POST_STREAM, true)];
    assert obs[..1] == [Observation(5, false)] && obs[..1][..0] == [];
    assert MinimaOf(obs[..1]) == Minima(DONE, 5);
    assert MinimaOf(obs) == Minima(POST_STREAM, 5);
  }

  // -------------------------------------------------------- the ideal merge

  /** What a node receives from one stream at one timestamp. */
  type Row = seq<Option<Packet>>

  datatype InputSet = InputSet(timestamp: Timestamp, row: Row)

  type Histories = seq<seq<Packet>>

  predicate AllEmpty(hs: Histories) {
    forall i :: 0 <= i < |hs| ==> hs[i] == []
  }

  /** The earliest first timestamp. */
  function First(hs: Histories): (t: Timestamp)
    ensures forall i :: 0 <= i < |hs| && hs[i] != [] ==> t <= hs[i][0].timestamp
    ensures t == DONE || exists i :: 0 <= i < |hs| && hs[i] != [] && hs[i][0].timestamp == t
  {
    if hs == [] then DONE
    else
      var rest := First(hs[1..]);
      if hs[0] == [] then rest else Min2(rest, hs[0][0].timestamp)
  }

  function RowAt(hs: Histories, t: Timestamp): (row: Row)
    ensures |row| == |hs|
  {
    seq(|hs|, i requires 0 <= i < |hs| =>
      if hs[i] != [] && hs[i][0].timestamp == t then Some(hs[i][0]) else None)
  }

  function DropAt(h: seq<Packet>, t: Timestamp): seq<Packet> {
    if h != [] && h[0].timestamp == t then h[1..] else h
  }

  function After(hs: Histories, t: Timestamp): (rest: Histories)
    ensures |rest| == |hs|
  {
    seq(|hs|, i requires 0 <= i < |hs| => DropAt(hs[i], t))
  }

  function Size(hs: Histories): nat {
    if hs == [] then 0 else |hs[0]| + Size(hs[1..])
  }

  lemma {:induction false} SizeShrinks(hs: Histories, gs: Histories)
    requires |hs| == |gs|
    requires forall i :: 0 <= i < |hs| ==> |gs[i]| <= |hs[i]|
    ensures Size(gs) <= Size(hs)
    ensures (exists i :: 0 <= i < |hs| && |gs[i]| < |hs[i]|) ==> Size(gs) < Size(hs)
  {
    if hs == [] {
    } else {
      SizeShrinks(hs[1..], gs[1..]);
      if i :| 0 <= i < |hs| && |gs[i]| < |hs[i]| {
        if i > 0 {
          assert |gs[1..][i - 1]| < |hs[1..][i - 1]|;
        }
      }
    }
  }

  predicate Ordered(hs: Histories) {
    forall i, k :: 0 <= i < |hs| && 0 <= k < |hs[i]| ==> hs[i][k].timestamp < DONE
  }

  lemma {:induction false} FirstIsReached(hs: Histories)
    requires Ordered(hs) && !AllEmpty(hs)
    ensures First(hs) < DONE
    ensures Size(After(hs, First(hs))) < Size(hs)
    ensures Ordered(After(hs, First(hs)))
  {
    var t := First(hs);
    var i :| 0 <= i < |hs| && hs[i] != [] && hs[i][0].timestamp == t;
    SizeShrinks(hs, After(hs, t));
    assert |After(hs, t)[i]| < |hs[i]|;
  }

  /** All packets of all streams, grouped by timestamp in increasing order. It
      depends on the packets alone, not on when they arrived. */
  function Merge(hs: Histories): (sets: seq<InputSet>)
    requires Ordered(hs)
    decreases Size(hs)
  {
    if AllEmpty(hs) then []
    else
      FirstIsReached(hs);
      var t := First(hs);
      [InputSet(t, RowAt(hs, t))] + Merge(After(hs, t))
  }

  function Join(hs: Histories, gs: Histories): (js: Histories)
    requires |hs| == |gs|
    ensures |js| == |hs|
  {
    seq(|hs|, i requires 0 <= i < |hs| => hs[i] + gs[i])
  }

  /** Every packet of `hs` is at or before `t`, and every packet of `gs` after. */
  ghost predicate Split(hs: Histories, gs: Histories, t: Timestamp) {
    && |hs| == |gs|
    && (forall i, k :: 0 <= i < |hs| && 0 <= k < |hs[i]| ==> hs[i][k].timestamp <= t)
    && (forall i, k :: 0 <= i < |gs| && 0 <= k < |gs[i]| ==> gs[i][k].timestamp > t)
  }

  lemma {:induction false} FirstOfJoin(hs: Histories, gs: Histories, t: Timestamp)
    requires Ordered(hs) && Split(hs, gs, t) && !AllEmpty(hs)
    ensures First(hs) <= t && First(Join(hs, gs)) == First(hs)
  {
    var js: Histories := Join(hs, gs);
    var u, w := First(hs), First(js);
    FirstIsReached(hs);
    var k :| 0 <= k < |hs| && hs[k] != [] && hs[k][0].timestamp == u;
    assert js[k] != [] && js[k][0] == hs[k][0];
    forall i | 0 <= i < |js| && js[i] != []
      ensures js[i][0].timestamp >= u
    {
      if hs[i] == [] {
        assert js[i] == gs[i];
      } else {
        assert js[i][0] == hs[i][0];
      }
    }
  }

  lemma {:induction false} StepOfJoin(hs: Histories, gs: Histories, t: Timestamp, u: Timestamp)
    requires Split(hs, gs, t) && u <= t
    ensures RowAt(Join(hs, gs), u) == RowAt(hs, u)
    ensures After(Join(hs, gs), u) == Join(After(hs, u), gs)
    ensures Split(After(hs, u), gs, t)
  {
    var js: Histories := Join(hs, gs);
    forall i | 0 <= i < |hs|
      ensures RowAt(js, u)[i] == RowAt(hs, u)[i] && After(js, u)[i] == After(hs, u)[i] + gs[i]
    {
      if hs[i] == [] {
        assert js[i] == gs[i];
      } else {
        assert js[i][0] == hs[i][0] && js[i][1..] == hs[i][1..] + gs[i];
      }
    }
  }

  lemma {:induction false} JoinIsOrdered(hs: Histories, gs: Histories)
    requires Ordered(hs) && Ordered(gs) && |hs| == |gs|
    ensures Ordered(Join(hs, gs))
    ensures !AllEmpty(hs) ==> !AllEmpty(Join(hs, gs))
  {
    var js: Histories := Join(hs, gs);
    assert forall i :: 0 <= i < |hs| ==> |js[i]| == |hs[i]| + |gs[i]|;
  }

  lemma {:induction false} MergeUnfolds(hs: Histories)
    requires Ordered(hs) && !AllEmpty(hs)
    ensures First(hs) < DONE && Ordered(After(hs, First(hs)))
    ensures Merge(hs) == [InputSet(First(hs), RowAt(hs, First(hs)))] + Merge(After(hs, First(hs)))
  {
    FirstIsReached(hs);
  }

  lemma {:induction false} JoinOfEmpty(hs: Histories, gs: Histories)
    requires |hs| == |gs| && AllEmpty(hs)
    ensures Join(hs, gs) == gs
  {
    assert forall i :: 0 <= i < |hs| ==> Join(hs, gs)[i] == gs[i];
  }

  lemma {:induction false} JoinUnfolds(hs: Histories, gs: Histories, t: Timestamp)
    requires Ordered(hs) && Ordered(gs) && Split(hs, gs, t) && !AllEmpty(hs)
    ensures var u := First(hs);
            && u < DONE && Ordered(After(hs, u)) && Split(After(hs, u), gs, t)
            && Ordered(Join(hs, gs)) && Ordered(Join(After(hs, u), gs))
            && Merge(Join(hs, gs)) == [InputSet(u, RowAt(hs, u))] + Merge(Join(After(hs, u), gs))
  {
    FirstOfJoin(hs, gs, t);
    StepOfJoin(hs, gs, t, First(hs));
    FirstIsReached(hs);
    JoinIsOrdered(hs, gs);
    JoinIsOrdered(After(hs, First(hs)), gs);
    MergeUnfolds(Join(hs, gs));
  }

  lemma {:induction false} Associate<T>(one: seq<T>, a: seq<T>, b: seq<T>)
    ensures one + (a + b) == (one + a) + b
  {
  }

  /** Both merges begin with the same set. */
  lemma {:induction false} SplitStep(hs: Histories, gs: Histories, t: Timestamp) returns (one: seq<InputSet>)
    requires Ordered(hs) && Ordered(gs) && Split(hs, gs, t) && !AllEmpty(hs)
    ensures var rest := After(hs, First(hs));
            && Ordered(rest) && Split(rest, gs, t) && Size(rest) < Size(hs)
            && Ordered(Join(hs, gs)) && Ordered(Join(rest, gs))
            && Merge(hs) == one + Merge(rest) && Merge(Join(hs, gs)) == one + Merge(Join(rest, gs))
  {
    FirstIsReached(hs);
    JoinUnfolds(hs, gs, t);
    MergeUnfolds(hs);
    one := [InputSet(First(hs), RowAt(hs, First(hs)))];
  }

  /** Histories cut at any timestamp merge piecewise: the merge of what came first
      is a prefix of the merge of everything. */
  lemma {:induction false} MergeSplits(hs: Histories, gs: Histories, t: Timestamp)
    requires Ordered(hs) && Ordered(gs) && Split(hs, gs, t)
    ensures Ordered(Join(hs, gs))
    ensures Merge(Join(hs, gs)) == Merge(hs) + Merge(gs)
    decreases Size(hs)
  {
    if AllEmpty(hs) {
      JoinIsOrdered(hs, gs);
      JoinOfEmpty(hs, gs);
      assert Merge(hs) == [];
    } else {
      var one := SplitStep(hs, gs, t);
      MergeSplits(After(hs, First(hs)), gs, t);
      Associate(one, Merge(After(hs, First(hs))), Merge(gs));
    }
  }

  /** Histories that hold only the packets of one row, all of them at `t`. */
  ghost predicate OneRow(hs: Histories, t: Timestamp, row: Row) {
    && |row| == |hs| && t < DONE
    && (forall i :: 0 <= i < |hs| && row[i].None? ==> hs[i] == [])
    && (forall i :: 0 <= i < |hs| && row[i].Some? ==> hs[i] == [row[i].value] && row[i].value.timestamp == t)
  }

  lemma {:induction false} OneRowIsFirst(hs: Histories, t: Timestamp, row: Row, k: nat)
    requires OneRow(hs, t, row) && k < |row| && row[k].Some?
    ensures Ordered(hs) && !AllEmpty(hs) && First(hs) == t
  {
    assert hs[k] != [];
  }

  lemma {:induction false} OneRowStep(hs: Histories, t: Timestamp, row: Row)
    requires OneRow(hs, t, row)
    ensures RowAt(hs, t) == row && AllEmpty(After(hs, t))
  {
    forall i | 0 <= i < |row|
      ensures RowAt(hs, t)[i] == row[i] && After(hs, t)[i] == []
    {
      assert row[i].Some? ==> hs[i] == [row[i].value];
    }
  }

  lemma {:induction false} MergeOfOne(hs: Histories, t: Timestamp, row: Row, k: nat)
    requires OneRow(hs, t, row) && k < |row| && row[k].Some?
    ensures Ordered(hs) && Merge(hs) == [InputSet(t, row)]
  {
    OneRowIsFirst(hs, t, row, k);
    OneRowStep(hs, t, row);
    MergeUnfolds(hs);
    assert Merge(After(hs, t)) == [];
  }

  ghost predicate AllAfter(hs: Histories, low: Timestamp) {
    forall i, k :: 0 <= i < |hs| && 0 <= k < |hs[i]| ==> hs[i][k].timestamp > low
  }

  ghost predicate AllIncreasing(hs: Histories) {
    forall i :: 0 <= i < |hs| ==> Increasing(hs[i])
  }

  lemma {:induction false} DropIsLater(h: seq<Packet>, t: Timestamp)
    requires Increasing(h) && (h != [] ==> t <= h[0].timestamp)
    ensures Increasing(DropAt(h, t))
    ensures forall j :: 0 <= j < |DropAt(h, t)| ==> DropAt(h, t)[j].timestamp > t
  {
    assert forall j :: 0 < j < |h| ==> h[j].timestamp > h[0].timestamp;
  }

  lemma {:induction false} AfterIsLater(hs: Histories, low: Timestamp)
    requires Ordered(hs) && !AllEmpty(hs) && AllIncreasing(hs) && AllAfter(hs, low)
    ensures First(hs) > low
    ensures AllIncreasing(After(hs, First(hs))) && AllAfter(After(hs, First(hs)), First(hs))
  {
    FirstIsReached(hs);
    var t := First(hs);
    var k :| 0 <= k < |hs| && hs[k] != [] && hs[k][0].timestamp == t;
    forall i | 0 <= i < |hs|
      ensures Increasing(DropAt(hs[i], t))
      ensures forall j :: 0 <= j < |DropAt(hs[i], t)| ==> DropAt(hs[i], t)[j].timestamp > t
    {
      DropIsLater(hs[i], t);
    }
  }

  /** Strictly increasing timestamps, all above `low`. */
  ghost predicate Ascending(sets: seq<InputSet>, low: Timestamp) {
    && (forall i :: 0 <= i < |sets| ==> sets[i].timestamp > low)
    && (forall i, j :: 0 <= i < j < |sets| ==> sets[i].timestamp < sets[j].timestamp)
  }

  lemma {:induction false} AscendingCons(first: InputSet, rest: seq<InputSet>, low: Timestamp)
    requires first.timestamp > low && Ascending(rest, first.timestamp)
    ensures Ascending([first] + rest, low)
  {
  }

  /** The merge increases strictly when each history does. */
  lemma {:induction false} MergeAscends(hs: Histories, low: Timestamp)
    requires Ordered(hs) && AllIncreasing(hs) && AllAfter(hs, low)
    ensures Ascending(Merge(hs), low)
    decreases Size(hs)
  {
    if AllEmpty(hs) {
      assert Merge(hs) == [];
    } else {
      FirstIsReached(hs);
      AfterIsLater(hs, low);
      MergeUnfolds(hs);
      MergeAscends(After(hs, First(hs)), First(hs));
      AscendingCons(InputSet(First(hs), RowAt(hs, First(hs))), Merge(After(hs, First(hs))), low);
    }
  }
}
