/** Unthrottling. When everything has come to rest behind full streams, the graph
    gives each full stream room for one packet more, but for those whose packets the
    application takes. Here the streams themselves join the bookkeeping of
    `Throttling`. */
module Unthrottling {
  import opened InputStreams
  import opened NodeProtocol
  import opened Throttling

  // -------------------------------------------------- what is to be grown

  /** The streams that UnthrottleSources grows: all in any set, but for those whose
      packets the application takes from the graph. */
  ghost function ToGrow(f: Sets, outputs: set<nat>): set<nat> {
    set n, s | 0 <= n < |f.sets| && s in f.sets[n] && s !in outputs :: s
  }

  /** Nobody is about to report. */
  predicate Settled(f: Sets) {
    f.section.NoOne? && forall s :: 0 <= s < |f.callbacks| ==> f.callbacks[s] == 0
  }

  /** Until then a report can be made. */
  lemma {:induction false} ReportsGoOn(g: Graph) returns (step: Step)
    requires Inv(g) && !Settled(g.sets)
    ensures Enabled(g, step) && !step.OfSource? && !(step.Report? && step.report.Flip?)
  {
    var f := g.sets;
    if f.section.NoOne? {
      var s :| 0 <= s < |f.callbacks| && f.callbacks[s] != 0;
      step := Report(EnterSection(s));
    } else if f.section.checking {
      step := AskActive;
    } else {
      step := Report(if f.section.next < |f.upstream[f.section.stream]| then UpdateNext else LeaveSection);
    }
  }

  lemma {:induction false} SettledMember(f: Sets, firstInput: nat, n: nat, s: nat)
    requires SetsInv(f, firstInput) && Settled(f) && n < |f.sets|
    ensures s in f.sets[n] <==> s < |f.isFull| && f.isFull[s] && n in f.upstream[s]
  {
    assert OnlyUpstream(f, n);
    if s < |f.isFull| {
      assert FreshInv(f, s);
      if n in f.upstream[s] {
        var k :| 0 <= k < |f.upstream[s]| && f.upstream[s][k] == n;
        assert MemberInv(f, s, k);
      }
    }
  }

  lemma {:induction false} GrownSets(f: Sets, g: Sets, firstInput: nat, outputs: set<nat>, n: nat)
    requires SetsInv(f, firstInput) && SetsInv(g, firstInput) && Settled(f) && Settled(g)
    requires g.upstream == f.upstream && |g.sets| == |f.sets| && n < |f.sets|
    requires forall s :: 0 <= s < |f.isFull| ==> g.isFull[s] == (f.isFull[s] && s !in ToGrow(f, outputs))
    ensures g.sets[n] == f.sets[n] * outputs
  {
    forall s: nat
      ensures s in g.sets[n] <==> s in f.sets[n] && s in outputs
    {
      SettledMember(f, firstInput, n, s);
      SettledMember(g, firstInput, n, s);
    }
  }

  /** There is nothing to grow exactly when all that is held back is held back by full
      graph outputs, and then waits for the application. */
  lemma {:induction false} NothingToGrowIff(f: Sets, outputs: set<nat>)
    ensures ToGrow(f, outputs) == {} <==> forall n :: 0 <= n < |f.sets| ==> f.sets[n] <= outputs
  {
    if ToGrow(f, outputs) == {} {
      forall n, s | 0 <= n < |f.sets| && s in f.sets[n]
        ensures s in outputs
      {
        assert s !in ToGrow(f, outputs);
      }
    }
  }

  // ---------------------------------------------- streams and bookkeeping

  datatype Throttled = Throttled(graph: Graph, streams: seq<Tracked>)

  datatype Move = Operate(s: nat, op: Op) | Go(step: Step)

  /** Fullness changes by operations on streams only; none is a rejected batch that
      fills its stream unannounced. */
  predicate MoveEnabled(x: Throttled, move: Move) {
    match move
    case Operate(s, op) =>
      && s < |x.streams| && s < |x.graph.sets.isFull|
      && Legal(x.streams[s].stream, op) && (op.Add? ==> FillsLoudly(x.streams[s].stream, op.batch))
    case Go(step) => Enabled(x.graph, step) && !(step.Report? && step.report.Flip?)
  }

  function MoveTake(x: Throttled, move: Move): Throttled
    requires Throttling.Shaped(x.graph.sets) && |x.graph.sources| <= |x.graph.sets.sets| && MoveEnabled(x, move)
  {
    match move
    case Operate(s, op) =>
      Throttled(if CallsBack(x.streams[s].stream, op) then Take(x.graph, Report(Flip(s))) else x.graph,
                x.streams[s := Apply(x.streams[s], op)])
    case Go(step) => x.(graph := Take(x.graph, step))
  }

  ghost predicate BothInv(x: Throttled) {
    && Inv(x.graph) && |x.streams| == |x.graph.sets.isFull|
    && (forall s :: 0 <= s < |x.streams| ==> x.graph.sets.isFull[s] == x.streams[s].stream.IsFull())
  }

  ghost predicate BothInit(x: Throttled) {
    && Init(x.graph) && |x.streams| == |x.graph.sets.isFull|
    && (forall s :: 0 <= s < |x.streams| ==> !x.streams[s].stream.IsFull())
  }

  predicate Alike(g: Graph, h: Graph) {
    && h.sets.upstream == g.sets.upstream && |h.sets.sets| == |g.sets.sets| && |h.sources| == |g.sources|
    && |h.sets.isFull| == |g.sets.isFull|
  }

  lemma {:induction false} StepShape(g: Graph, step: Step)
    requires Throttling.Shaped(g.sets) && |g.sources| <= |g.sets.sets| && Enabled(g, step)
    ensures Alike(g, Take(g, step))
    ensures !(step.Report? && step.report.Flip?) ==> Take(g, step).sets.isFull == g.sets.isFull
  {
  }

  lemma {:induction false} MoveKeeps(x: Throttled, move: Move)
    requires BothInv(x) && MoveEnabled(x, move)
    ensures BothInv(MoveTake(x, move)) && Alike(x.graph, MoveTake(x, move).graph)
  {
    match move
    case Operate(s, op) =>
      CallbacksAgreeIff(x.streams[s], op);
      StepKeeps(x.graph, Report(Flip(s)));
    case Go(step) =>
      StepShape(x.graph, step);
      StepKeeps(x.graph, step);
  }

  ghost predicate IsMoveRun(run: seq<Throttled>, moves: seq<Move>) {
    && |run| == |moves| + 1 && BothInit(run[0])
    && (forall i :: 0 <= i < |moves| ==> Moves(run[i], moves[i], run[i + 1]))
  }

  ghost predicate Moves(x: Throttled, move: Move, y: Throttled) {
    && Throttling.Shaped(x.graph.sets) && |x.graph.sources| <= |x.graph.sets.sets|
    && MoveEnabled(x, move) && y == MoveTake(x, move)
  }

  lemma {:induction false} MoveRunsHold(run: seq<Throttled>, moves: seq<Move>, i: nat)
    requires IsMoveRun(run, moves) && i < |run|
    ensures BothInv(run[i])
  {
    if i == 0 {
      InitHolds(run[0].graph);
    } else {
      MoveRunsHold(run, moves, i - 1);
      assert Moves(run[i - 1], moves[i - 1], run[i]);
      MoveKeeps(run[i - 1], moves[i - 1]);
    }
  }

  // ------------------------------------------------------------- growing

  predicate GrowsAt(run: seq<Throttled>, moves: seq<Move>, k: nat, s: nat)
    requires |run| == |moves| + 1 && k < |moves|
  {
    s < |run[k].streams| && moves[k] == Operate(s, Resize(|run[k].streams[s].stream.queue| + 1))
  }

  /** Between two states every stream to grow has been grown, and nothing else was
      done to any stream. */
  ghost predicate OnlyGrowth(run: seq<Throttled>, moves: seq<Move>, i: nat, j: nat, outputs: set<nat>)
    requires |run| == |moves| + 1 && i <= j < |run|
  {
    && (forall k :: i <= k < j && moves[k].Operate? ==>
          GrowsAt(run, moves, k, moves[k].s) && moves[k].s in ToGrow(run[i].graph.sets, outputs))
    && (forall s :: s in ToGrow(run[i].graph.sets, outputs) ==> exists k :: i <= k < j && GrowsAt(run, moves, k, s))
  }

  /** A stream is full if it was, and has not been grown. */
  lemma {:induction false} GrownSoFar(run: seq<Throttled>, moves: seq<Move>, i: nat, k: nat, s: nat)
    requires IsMoveRun(run, moves) && i <= k < |run|
    requires forall l :: i <= l < k && moves[l].Operate? ==> GrowsAt(run, moves, l, moves[l].s)
    requires s < |run[i].streams|
    ensures |run[k].streams| == |run[i].streams|
    ensures run[k].streams[s].stream.IsFull() <==>
              run[i].streams[s].stream.IsFull() && forall l :: i <= l < k ==> !GrowsAt(run, moves, l, s)
    decreases k
  {
    if i == k {
    } else {
      GrownSoFar(run, moves, i, k - 1, s);
      OneGrowth(run, moves, k - 1, s);
    }
  }

  lemma {:induction false} OneGrowth(run: seq<Throttled>, moves: seq<Move>, k: nat, s: nat)
    requires IsMoveRun(run, moves) && k < |moves| && s < |run[k].streams|
    requires moves[k].Operate? ==> GrowsAt(run, moves, k, moves[k].s)
    ensures |run[k + 1].streams| == |run[k].streams|
    ensures run[k + 1].streams[s].stream.IsFull() <==>
              run[k].streams[s].stream.IsFull() && !GrowsAt(run, moves, k, s)
  {
    assert Moves(run[k], moves[k], run[k + 1]);
    MoveRunsHold(run, moves, k);
    MoveKeeps(run[k], moves[k]);
    if moves[k].Operate? {
      GrowthFrees(run[k].streams[moves[k].s]);
    }
  }

  lemma {:induction false} FreesAt(g: Graph, h: Graph, outputs: set<nat>, n: nat)
    requires Inv(g) && Inv(h) && Settled(g.sets) && Settled(h.sets) && Alike(g, h) && n < |g.sets.sets|
    requires forall s :: 0 <= s < |g.sets.isFull| ==>
               h.sets.isFull[s] == (g.sets.isFull[s] && s !in ToGrow(g.sets, outputs))
    ensures h.sets.sets[n] == g.sets.sets[n] * outputs
    ensures n < |h.sources| && h.sources[n].protocol.status == Active && !TryDue(h.sources[n])
            && g.sets.sets[n] !! outputs ==>
              h.sources[n].queued + h.sources[n].running == 1
  {
    GrownSets(g.sets, h.sets, |g.sources|, outputs, n);
    if n < |h.sources| {
      assert SourceInv(h, n);
      QuietSource(h.sources[n], Held(h.sets, n));
    }
  }

  /** Once all the streams to grow have been grown, nothing else has been done to any
      stream, and every change has been reported, each source and graph input is held
      back by exactly the graph outputs below it that are full. An active source that
      is free has a task, unless somebody is about to try to add it. */
  lemma {:induction false} UnthrottlingFrees(run: seq<Throttled>, moves: seq<Move>, i: nat, j: nat,
        outputs: set<nat>, n: nat)
    requires IsMoveRun(run, moves) && i <= j < |run| && n < |run[i].graph.sets.sets|
    requires Settled(run[i].graph.sets) && Settled(run[j].graph.sets) && OnlyGrowth(run, moves, i, j, outputs)
    ensures n < |run[j].graph.sets.sets|
    ensures run[j].graph.sets.sets[n] == run[i].graph.sets.sets[n] * outputs
    ensures n < |run[j].graph.sources| && run[j].graph.sources[n].protocol.status == Active
            && !TryDue(run[j].graph.sources[n]) && run[i].graph.sets.sets[n] !! outputs ==>
              run[j].graph.sources[n].queued + run[j].graph.sources[n].running == 1
  {
    GrownFullness(run, moves, i, j, outputs);
    MoveRunsHold(run, moves, i);
    MoveRunsHold(run, moves, j);
    FreesAt(run[i].graph, run[j].graph, outputs, n);
  }

  predicate AlikeStates(x: Throttled, y: Throttled) {
    Alike(x.graph, y.graph) && |y.streams| == |x.streams|
  }

  predicate AlikeAt(run: seq<Throttled>, k: nat) {
    k + 1 < |run| && AlikeStates(run[k], run[k + 1])
  }

  lemma {:induction false} NextIsAlike(run: seq<Throttled>, moves: seq<Move>, k: nat)
    requires IsMoveRun(run, moves) && k < |moves|
    ensures AlikeAt(run, k)
  {
    MoveRunsHold(run, moves, k);
    assert Moves(run[k], moves[k], run[k + 1]);
    MoveKeeps(run[k], moves[k]);
  }

  lemma {:induction false} AlikeChain(run: seq<Throttled>, i: nat, j: nat)
    requires i <= j < |run| && forall k: nat :: k + 1 < |run| ==> AlikeAt(run, k)
    ensures AlikeStates(run[i], run[j])
    decreases j
  {
    if i == j {
    } else {
      AlikeChain(run, i, j - 1);
      assert AlikeAt(run, j - 1);
    }
  }

  lemma {:induction false} AlikeThroughout(run: seq<Throttled>, moves: seq<Move>, i: nat, j: nat)
    requires IsMoveRun(run, moves) && i <= j < |run|
    ensures AlikeStates(run[i], run[j])
  {
    forall k: nat | k + 1 < |run|
      ensures AlikeAt(run, k)
    {
      NextIsAlike(run, moves, k);
    }
    AlikeChain(run, i, j);
  }

  lemma {:induction false} GrownOrNot(run: seq<Throttled>, moves: seq<Move>, i: nat, j: nat, outputs: set<nat>,
        s: nat)
    requires |run| == |moves| + 1 && i <= j < |run| && OnlyGrowth(run, moves, i, j, outputs)
    ensures s !in ToGrow(run[i].graph.sets, outputs) <==> forall k :: i <= k < j ==> !GrowsAt(run, moves, k, s)
  {
    if k :| i <= k < j && GrowsAt(run, moves, k, s) {
      assert moves[k].Operate?;
    }
  }

  lemma {:induction false} GrownIsNotFull(run: seq<Throttled>, moves: seq<Move>, i: nat, j: nat,
        outputs: set<nat>, s: nat)
    requires IsMoveRun(run, moves) && i <= j < |run| && OnlyGrowth(run, moves, i, j, outputs)
    requires s < |run[i].streams| == |run[j].streams|
    ensures run[j].streams[s].stream.IsFull() <==>
              run[i].streams[s].stream.IsFull() && s !in ToGrow(run[i].graph.sets, outputs)
  {
    GrownSoFar(run, moves, i, j, s);
    GrownOrNot(run, moves, i, j, outputs, s);
  }

  lemma {:induction false} GrownFullness(run: seq<Throttled>, moves: seq<Move>, i: nat, j: nat, outputs: set<nat>)
    requires IsMoveRun(run, moves) && i <= j < |run| && OnlyGrowth(run, moves, i, j, outputs)
    ensures Alike(run[i].graph, run[j].graph)
    ensures forall s :: 0 <= s < |run[i].graph.sets.isFull| ==>
              run[j].graph.sets.isFull[s]
              == (run[i].graph.sets.isFull[s] && s !in ToGrow(run[i].graph.sets, outputs))
  {
    AlikeThroughout(run, moves, i, j);
    MoveRunsHold(run, moves, i);
    MoveRunsHold(run, moves, j);
    forall s | 0 <= s < |run[i].graph.sets.isFull|
      ensures run[j].graph.sets.isFull[s]
              == (run[i].graph.sets.isFull[s] && s !in ToGrow(run[i].graph.sets, outputs))
    {
      GrownIsNotFull(run, moves, i, j, outputs, s);
      assert run[i].graph.sets.isFull[s] == run[i].streams[s].stream.IsFull();
      assert run[j].graph.sets.isFull[s] == run[j].streams[s].stream.IsFull();
    }
  }

  lemma {:induction false} NothingShared(a: set<nat>, b: set<nat>)
    ensures a * b == {} <==> a !! b
  {
    if a * b == {} {
      forall x | x in a
        ensures x !in b
      {
        assert x !in a * b;
      }
    }
  }

  /** What can be said beforehand: growing frees something that is held back if and
      only if something is held back by no graph output. */
  lemma {:induction false} GrowingFreesIff(run: seq<Throttled>, moves: seq<Move>, i: nat, j: nat,
        outputs: set<nat>, sources: nat)
    requires IsMoveRun(run, moves) && i <= j < |run| && sources <= |run[i].graph.sets.sets|
    requires Settled(run[i].graph.sets) && Settled(run[j].graph.sets) && OnlyGrowth(run, moves, i, j, outputs)
    ensures |run[j].graph.sets.sets| == |run[i].graph.sets.sets|
    ensures (exists n :: 0 <= n < sources && run[i].graph.sets.sets[n] != {} && run[j].graph.sets.sets[n] == {}) <==>
            (exists n :: 0 <= n < sources && run[i].graph.sets.sets[n] != {} && run[i].graph.sets.sets[n] !! outputs)
  {
    AlikeThroughout(run, moves, i, j);
    forall n | 0 <= n < sources
      ensures run[j].graph.sets.sets[n] == {} <==> run[i].graph.sets.sets[n] !! outputs
    {
      UnthrottlingFrees(run, moves, i, j, outputs, n);
      NothingShared(run[i].graph.sets.sets[n], outputs);
    }
  }

  // ------------------------------------------ growing need not free a source

  lemma {:induction false} MovesOn(run: seq<Throttled>, moves: seq<Move>, move: Move, y: Throttled)
      returns (longer: seq<Throttled>, more: seq<Move>)
    requires IsMoveRun(run, moves) && Moves(run[|moves|], move, y)
    ensures IsMoveRun(longer, more) && |more| == |moves| + 1 && longer[|more|] == y
  {
    longer, more := run + [y], moves + [move];
    assert longer[0] == run[0];
    forall i | 0 <= i < |more|
      ensures Moves(longer[i], more[i], longer[i + 1])
    {
      if i < |moves| {
        assert Moves(run[i], moves[i], run[i + 1]);
      }
    }
  }

  /** One idle source above two streams, each with room for one packet. */
  function TwoBelow(isFull: seq<bool>, reported: seq<bool>, callbacks: seq<nat>, held: set<nat>, section: Section,
        streams: seq<Tracked>): Throttled
  {
    var source := SourceNode(Protocol(Opened, Idle, 0, 1), 0, 0, NoLoop, Absent, 0);
    Throttled(Graph(Sets([[0], [0]], isFull, reported, callbacks, [held], section, 0), [source], true), streams)
  }

  function EmptyOne(): Tracked {
    Tracked(EmptyStream(AnyType, 1), [], [])
  }

  function FilledOne(p: Packet): Tracked {
    Apply(EmptyOne(), Op.Add([p]))
  }

  lemma {:induction false} FillsOne(p: Packet)
    requires Accepts(EmptyStream(AnyType, 1), p)
    ensures !EmptyOne().stream.IsFull() && FilledOne(p).stream.IsFull()
    ensures CallsBack(EmptyOne().stream, Op.Add([p])) && FillsLoudly(EmptyOne().stream, [p])
  {
    var s := EmptyStream(AnyType, 1);
    assert [p][1..] == [] && s.queue + [p] == [p];
    assert AcceptedCount(s, [p]) == 1 + AcceptedCount(Push(s, p), [p][1..]);
    assert PushAll(s, [p]) == PushAll(Push(s, p), [p][1..]);
  }

  lemma {:induction false} FillMoves(p: Packet, s: nat, isFull: seq<bool>, callbacks: seq<nat>, streams: seq<Tracked>)
    requires Accepts(EmptyStream(AnyType, 1), p) && |isFull| == |callbacks| == |streams| == 2
    requires s < 2 && !isFull[s] && streams[s] == EmptyOne()
    ensures Moves(TwoBelow(isFull, [false, false], callbacks, {}, NoOne, streams), Operate(s, Op.Add([p])),
                  TwoBelow(isFull[s := true], [false, false], callbacks[s := callbacks[s] + 1], {}, NoOne,
                           streams[s := FilledOne(p)]))
  {
    FillsOne(p);
  }

  /** The three critical sections that report a stream full. */
  lemma {:induction false} ReportMoves(run: seq<Throttled>, moves: seq<Move>, s: nat, isFull: seq<bool>,
        reported: seq<bool>, callbacks: seq<nat>, held: set<nat>, streams: seq<Tracked>)
      returns (longer: seq<Throttled>, more: seq<Move>)
    requires IsMoveRun(run, moves) && |isFull| == |reported| == |callbacks| == 2 && s < 2
    requires run[|moves|] == TwoBelow(isFull, reported, callbacks, held, NoOne, streams)
    requires isFull[s] && !reported[s] && callbacks[s] > 0
    ensures IsMoveRun(longer, more)
    ensures longer[|more|] ==
            TwoBelow(isFull, reported[s := true], callbacks[s := callbacks[s] - 1], held + {s}, NoOne, streams)
  {
    var left := callbacks[s := callbacks[s] - 1];
    var x := TwoBelow(isFull, reported, left, held, Updating(s, true, 0, false), streams);
    longer, more := MovesOn(run, moves, Go(Report(EnterSection(s))), x);
    var y := TwoBelow(isFull, reported, left, held + {s}, Updating(s, true, 1, false), streams);
    UpdateMoves(s, isFull, reported, left, held, streams);
    longer, more := MovesOn(longer, more, Go(Report(UpdateNext)), y);
    var z := TwoBelow(isFull, reported[s := true], left, held + {s}, NoOne, streams);
    longer, more := MovesOn(longer, more, Go(Report(LeaveSection)), z);
  }

  lemma {:induction false} UpdateMoves(s: nat, isFull: seq<bool>, reported: seq<bool>, callbacks: seq<nat>,
        held: set<nat>, streams: seq<Tracked>)
    requires |isFull| == |reported| == |callbacks| == 2 && s < 2 && !reported[s]
    ensures Moves(TwoBelow(isFull, reported, callbacks, held, Updating(s, true, 0, false), streams),
                  Go(Report(UpdateNext)),
                  TwoBelow(isFull, reported, callbacks, held + {s}, Updating(s, true, 1, false), streams))
  {
    var x := TwoBelow(isFull, reported, callbacks, held, Updating(s, true, 0, false), streams);
    assert NextNode(x.graph.sets) == 0 && s in NextSet(x.graph.sets);
    assert [held][0 := held + {s}] == [held + {s}];
  }

  /** A run in which both streams fill and are reported. If the second is a graph
      output, the first is to be grown, and the source stays held back. */
  lemma {:induction false} OutputHoldsSource(p: Packet) returns (run: seq<Throttled>, moves: seq<Move>)
    requires Accepts(EmptyStream(AnyType, 1), p)
    ensures IsMoveRun(run, moves) && Settled(run[|moves|].graph.sets)
    ensures run[|moves|].graph.sets.sets == [{0, 1}]
    ensures ToGrow(run[|moves|].graph.sets, {1}) == {0} && run[|moves|].graph.sets.sets[0] * {1} == {1}
  {
    run, moves := BothFill(p);
    var streams := [FilledOne(p), FilledOne(p)];
    run, moves := ReportMoves(run, moves, 0, [true, true], [false, false], [1, 1], {}, streams);
    assert [false, false][0 := true] == [true, false] && [1, 1][0 := 0] == [0, 1] && {} + {0} == {0};
    run, moves := ReportMoves(run, moves, 1, [true, true], [true, false], [0, 1], {0}, streams);
    var f := run[|moves|].graph.sets;
    assert {0} + {1} == {0, 1} && f.sets[0] == {0, 1};
    assert forall s :: s in ToGrow(f, {1}) <==> s == 0;
  }

  lemma {:induction false} BothFill(p: Packet) returns (run: seq<Throttled>, moves: seq<Move>)
    requires Accepts(EmptyStream(AnyType, 1), p)
    ensures IsMoveRun(run, moves)
    ensures run[|moves|] ==
            TwoBelow([true, true], [false, false], [1, 1], {}, NoOne, [FilledOne(p), FilledOne(p)])
  {
    FillsOne(p);
    var e, f := EmptyOne(), FilledOne(p);
    run, moves := [TwoBelow([false, false], [false, false], [0, 0], {}, NoOne, [e, e])], [];
    FillMoves(p, 0, [false, false], [0, 0], [e, e]);
    assert [false, false][0 := true] == [true, false] && [0, 0][0 := 1] == [1, 0] && [e, e][0 := f] == [f, e];
    run, moves := MovesOn(run, moves, Operate(0, Op.Add([p])),
                          TwoBelow([true, false], [false, false], [1, 0], {}, NoOne, [f, e]));
    FillMoves(p, 1, [true, false], [1, 0], [f, e]);
    assert [true, false][1 := true] == [true, true] && [1, 0][1 := 1] == [1, 1] && [f, e][1 := f] == [f, f];
    run, moves := MovesOn(run, moves, Operate(1, Op.Add([p])),
                          TwoBelow([true, true], [false, false], [1, 1], {}, NoOne, [f, f]));
  }
}
