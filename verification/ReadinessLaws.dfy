/** What the readiness decision and the ideal merge amount to, said of the streams
    themselves. */
module ReadinessLaws {
  import opened Timestamps
  import opened InputStreams
  import opened SyncSets

  /** No stream can still deliver anything at or before `t` but what it shows. */
  ghost predicate AllSettled(streams: seq<Stream>, t: Timestamp) {
    forall i :: 0 <= i < |streams| ==> SettledAt(streams[i], t)
  }

  /** The last timestamp a packet may have on which everything is settled. */
  ghost predicate LatestSettled(streams: seq<Stream>, u: Timestamp) {
    && IsAllowedInStream(u) && AllSettled(streams, u)
    && (forall t: Timestamp :: IsAllowedInStream(t) && AllSettled(streams, t) ==> t <= u)
  }

  ghost predicate AllSound(streams: seq<Stream>) {
    forall i :: 0 <= i < |streams| ==> Sound(streams[i])
  }

  lemma {:induction false} SettledIff(streams: seq<Stream>, t: Timestamp)
    requires AllSound(streams) && t < DONE
    ensures var m := MinimaOf(ObserveAll(streams));
            AllSettled(streams, t) <==> t <= m.packet && t < m.bound
  {
    var obs, m := ObserveAll(streams), MinimaOf(ObserveAll(streams));
    assert forall i :: 0 <= i < |streams| ==> obs[i] == Observe(streams[i]) && Sound(streams[i]);
    if AllSettled(streams, t) {
      assert forall i :: 0 <= i < |obs| ==> SettledAt(streams[i], t);
    } else {
      var i :| 0 <= i < |streams| && !SettledAt(streams[i], t);
      assert obs[i] == Observe(streams[i]);
    }
  }

  /** What the two minima say about the latest settled timestamp. */
  function Latest(m: Minima): Timestamp
    requires UNSTARTED < Min2(m.packet, m.bound) < ONE_OVER_POST_STREAM
  {
    if m.packet < m.bound then m.packet
    else if IsRange(m.bound) && m.bound > MIN then m.bound - 1
    else if m.bound == MIN then PRE_STREAM
    else if m.bound == POST_STREAM then MAX
    else UNSTARTED
  }

  lemma {:induction false} LatestIff(streams: seq<Stream>, u: Timestamp)
    requires AllSound(streams) && !Exhausted(streams)
    requires IsAllowedInStream(u)
    ensures var m := MinimaOf(ObserveAll(streams));
            && UNSTARTED < Min2(m.packet, m.bound) < ONE_OVER_POST_STREAM
            && (LatestSettled(streams, u) <==> u == Latest(m))
  {
    MinimaAreSound(streams);
    var m := MinimaOf(ObserveAll(streams));
    var v := Latest(m);
    SettledIff(streams, u);
    if v >= PRE_STREAM {
      SettledIff(streams, v);
    }
    forall t: Timestamp | IsAllowedInStream(t) && AllSettled(streams, t)
      ensures t <= v
    {
      SettledIff(streams, t);
    }
  }

  lemma {:induction false} MinimaAreSound(streams: seq<Stream>)
    requires AllSound(streams) && !Exhausted(streams)
    ensures var m := MinimaOf(ObserveAll(streams));
            && UNSTARTED < Min2(m.packet, m.bound) < ONE_OVER_POST_STREAM
            && (m.packet == DONE || IsAllowedInStream(m.packet))
  {
    ExhaustedSeen(streams);
    var obs := ObserveAll(streams);
    assert forall i :: 0 <= i < |streams| ==> obs[i] == Observe(streams[i]) && Sound(streams[i]);
  }

  lemma {:induction false} JudgesLatest(m: Minima, last: Timestamp, u: Timestamp)
    requires UNSTARTED < Min2(m.packet, m.bound) < ONE_OVER_POST_STREAM
    requires m.packet == DONE || IsAllowedInStream(m.packet)
    requires IsAllowedInStream(u)
    ensures var v := Judge(m, true, last);
            v.readiness == ReadyForProcess && v.timestamp == u <==>
              m.bound != MIN && m.bound != POST_STREAM && u == Latest(m) && u > last
  {
  }

  /** With timestamp-bound processing, of streams that are not exhausted: readiness
      names exactly the latest timestamp on which all streams are settled, packet or
      none, if it is later than the last one processed; unless the lowest bound of an
      empty stream has no predecessor, when it names none. */
  lemma {:induction false} BoundProcessingNamesLatestIff(streams: seq<Stream>, last: Timestamp, u: Timestamp)
    requires AllSound(streams) && !Exhausted(streams) && IsAllowedInStream(u)
    ensures var b := MinimaOf(ObserveAll(streams)).bound;
            var v := Judge(MinimaOf(ObserveAll(streams)), true, last);
            v.readiness == ReadyForProcess && v.timestamp == u <==>
              b != MIN && b != POST_STREAM && LatestSettled(streams, u) && u > last
  {
    LatestIff(streams, u);
    MinimaAreSound(streams);
    JudgesLatest(MinimaOf(ObserveAll(streams)), last, u);
  }

  /** In both modes readiness closes exactly if every stream is exhausted, and then no
      ordinary timestamp is left to process. */
  lemma {:induction false} ClosesIff(streams: seq<Stream>, processTimestamps: bool, last: Timestamp)
    requires AllSound(streams)
    ensures var v := Judge(MinimaOf(ObserveAll(streams)), processTimestamps, last);
            && (v.readiness == ReadyForClose <==> Exhausted(streams))
            && (v.readiness == ReadyForClose ==> v.timestamp == DONE && v.lastProcessed == MAX)
  {
    ExhaustedSeen(streams);
  }

  /** A timestamp answered with "process" is a legal one. */
  lemma {:induction false} ProcessesLegal(streams: seq<Stream>, processTimestamps: bool, last: Timestamp)
    requires AllSound(streams)
    ensures var v := Judge(MinimaOf(ObserveAll(streams)), processTimestamps, last);
            v.readiness == ReadyForProcess ==> IsAllowedInStream(v.timestamp) && v.lastProcessed == v.timestamp
  {
    if !Exhausted(streams) {
      MinimaAreSound(streams);
    } else {
      ExhaustedSeen(streams);
    }
  }

  /** An answer "not ready" leaves the last timestamp, and names the earliest one at
      which a stream has a packet or may still get one. */
  lemma {:induction false} NotReadyNamesEarliest(streams: seq<Stream>, processTimestamps: bool, last: Timestamp)
    requires AllSound(streams)
    ensures var v := Judge(MinimaOf(ObserveAll(streams)), processTimestamps, last);
            v.readiness == NotReady ==>
              && v.lastProcessed == last
              && (forall i :: 0 <= i < |streams| ==> v.timestamp <= streams[i].MinTimestampOrBound())
              && (exists i :: 0 <= i < |streams| && v.timestamp == streams[i].MinTimestampOrBound())
  {
    var obs := ObserveAll(streams);
    assert forall i :: 0 <= i < |streams| ==> obs[i] == Observe(streams[i]);
  }

  // --------------------------------------------------------- the merge

  /** The packets that stream `i` contributes to a sequence of sets. */
  function Column(sets: seq<InputSet>, i: nat): seq<Packet> {
    if sets == [] then []
    else
      (if i < |sets[0].row| && sets[0].row[i].Some? then [sets[0].row[i].value] else []) + Column(sets[1..], i)
  }

  /** A set with at least one packet, all of them at its timestamp. */
  predicate WellFilled(s: InputSet) {
    && (exists i :: 0 <= i < |s.row| && s.row[i].Some?)
    && (forall i :: 0 <= i < |s.row| && s.row[i].Some? ==> s.row[i].value.timestamp == s.timestamp)
  }

  lemma {:induction false} FirstSetIsFilled(hs: Histories)
    requires Ordered(hs) && !AllEmpty(hs)
    ensures WellFilled(InputSet(First(hs), RowAt(hs, First(hs))))
  {
    FirstIsReached(hs);
    var i :| 0 <= i < |hs| && hs[i] != [] && hs[i][0].timestamp == First(hs);
    assert RowAt(hs, First(hs))[i].Some?;
  }

  /** Every set of the merge has a packet, and only packets of its own timestamp. */
  lemma {:induction false} MergeIsFilled(hs: Histories, k: nat)
    requires Ordered(hs) && k < |Merge(hs)|
    ensures WellFilled(Merge(hs)[k]) && |Merge(hs)[k].row| == |hs|
    decreases Size(hs)
  {
    if AllEmpty(hs) {
    } else {
      FirstIsReached(hs);
      MergeUnfolds(hs);
      if k == 0 {
        FirstSetIsFilled(hs);
      } else {
        MergeIsFilled(After(hs, First(hs)), k - 1);
      }
    }
  }

  lemma {:induction false} ColumnUnfolds(first: InputSet, rest: seq<InputSet>, i: nat)
    requires i < |first.row|
    ensures Column([first] + rest, i) ==
            (if first.row[i].Some? then [first.row[i].value] else []) + Column(rest, i)
  {
    assert ([first] + rest)[1..] == rest;
  }

  lemma {:induction false} FirstAndRest(hs: Histories, t: Timestamp, i: nat)
    requires i < |hs|
    ensures hs[i] == (if RowAt(hs, t)[i].Some? then [RowAt(hs, t)[i].value] else []) + After(hs, t)[i]
  {
  }

  /** The merge holds every packet of every stream once and in order. */
  lemma {:induction false} MergeIsComplete(hs: Histories, i: nat)
    requires Ordered(hs) && i < |hs|
    ensures Column(Merge(hs), i) == hs[i]
    decreases Size(hs)
  {
    if AllEmpty(hs) {
      assert Merge(hs) == [];
    } else {
      FirstIsReached(hs);
      MergeUnfolds(hs);
      var t := First(hs);
      MergeIsComplete(After(hs, t), i);
      ColumnUnfolds(InputSet(t, RowAt(hs, t)), Merge(After(hs, t)), i);
      FirstAndRest(hs, t, i);
    }
  }

  lemma {:induction false} ColumnOfPrefix(sets: seq<InputSet>, more: seq<InputSet>, i: nat)
    ensures Column(sets + more, i) == Column(sets, i) + Column(more, i)
  {
    if sets == [] {
      assert sets + more == more;
    } else {
      assert (sets + more)[1..] == sets[1..] + more;
      ColumnOfPrefix(sets[1..], more, i);
    }
  }

  /** So has a prefix of it, as far as it goes. */
  lemma {:induction false} PrefixOfMerge(hs: Histories, sets: seq<InputSet>, i: nat, k: nat)
    requires Ordered(hs) && i < |hs| && sets <= Merge(hs)
    ensures Column(sets, i) <= hs[i]
    ensures sets == Merge(hs) ==> Column(sets, i) == hs[i]
    ensures k < |sets| ==> WellFilled(sets[k])
  {
    MergeIsComplete(hs, i);
    var rest := Merge(hs)[|sets|..];
    assert Merge(hs) == sets + rest;
    ColumnOfPrefix(sets, rest, i);
    if k < |sets| {
      MergeIsFilled(hs, k);
    }
  }
}
