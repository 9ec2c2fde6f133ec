/** That throttling holds sources back: a source is put into the queue only by threads
    that have asked whether it is held back, or that have just freed it. */
module ThrottlingLaws {
  import opened NodeProtocol
  import opened Throttling

  /** A source is held back exactly while queue sizes are limited and some stream below
      it was last reported full. */
  lemma {:induction false} ThrottledIff(run: seq<Graph>, steps: seq<Step>, i: nat, n: nat)
    requires IsRun(run, steps) && i < |run| && run[i].sets.section.NoOne? && n < |run[i].sets.sets|
    requires |run[i].sets.upstream| == |run[i].sets.reported| == |run[i].sets.isFull|
    ensures IsThrottled(run[i], n) <==>
              run[i].limited && exists s :: 0 <= s < |run[i].sets.isFull| && n in run[i].sets.upstream[s]
                                            && run[i].sets.reported[s]
  {
    RunsHold(run, steps, i);
    var f := run[i].sets;
    forall s: nat | s < |f.isFull|
      ensures s in f.sets[n] <==> f.reported[s] && n in f.upstream[s]
    {
      ThrottleAccounting(run, steps, i, s, n);
    }
    assert OnlyUpstream(f, n);
    if f.sets[n] != {} {
      var s :| s in f.sets[n];
      assert s < |f.upstream|;
    }
  }

  /** Only the three steps that add put a source into the queue, one task each, and only
      if none is in flight. */
  lemma {:induction false} OnlyAddingQueues(v: SourceNode, step: SourceStep, throttled: bool)
    requires SourceEnabled(v, step) && SourceTake(v, step, throttled).queued > v.queued
    ensures AddsSource(step) && v.protocol.inFlight < v.protocol.maxInFlight
    ensures SourceTake(v, step, throttled).queued == v.queued + 1
  {
  }

  /** And they do so if none is in flight. */
  lemma {:induction false} AddingQueuesIff(v: SourceNode, step: SourceStep, throttled: bool)
    requires SourceEnabled(v, step) && AddsSource(step)
    ensures SourceTake(v, step, throttled).queued ==
            v.queued + if v.protocol.inFlight < v.protocol.maxInFlight then 1 else 0
  {
  }

  /** The loop, and the thread that activates the source, come to add it only by asking
      while it is not held back. */
  lemma {:induction false} AsksBeforeAdding(v: SourceNode, step: SourceStep, throttled: bool)
    requires SourceEnabled(v, step)
    ensures var w := SourceTake(v, step, throttled);
            && (w.loop.Adding? && !v.loop.Adding? ==> step.LoopAsks? && !throttled)
            && (w.activator.Adds? && !v.activator.Adds? ==> step.ActivatorAsks? && !throttled)
            && (step.LoopAsks? && !throttled ==> w.loop.Adding?)
            && (step.ActivatorAsks? && !throttled ==> w.activator.Adds?)
            && w.holders <= v.holders
  {
  }

  predicate AskedFreely(run: seq<Graph>, steps: seq<Step>, i: nat, n: nat, work: SourceStep)
    requires |run| == |steps| + 1 && i < |steps|
  {
    n < |run[i].sets.sets| && steps[i] == OfSource(n, work) && !IsThrottled(run[i], n)
  }

  lemma {:induction false} SourcesStay(g: Graph, step: Step, n: nat)
    requires Inv(g) && Enabled(g, step) && n < |g.sources|
    ensures n < |Take(g, step).sources|
    ensures step.OfSource? && step.n == n ==>
              Take(g, step).sources[n] == SourceTake(g.sources[n], step.work, IsThrottled(g, n))
    ensures !(step.OfSource? && step.n == n) ==>
              && Take(g, step).sources[n].loop == g.sources[n].loop
              && Take(g, step).sources[n].activator == g.sources[n].activator
              && Take(g, step).sources[n].queued == g.sources[n].queued
  {
  }

  lemma {:induction false} StartsIdle(run: seq<Graph>, steps: seq<Step>, n: nat)
    requires IsRun(run, steps) && n < |run[0].sources|
    ensures !run[0].sources[n].loop.Adding? && !run[0].sources[n].activator.Adds?
  {
    assert Init(run[0]);
  }

  /** Over every run, a thread in the loop that is about to add a source asked when the
      source was not held back, and has done nothing else for it since. */
  lemma {:induction false} LoopAskedFreely(run: seq<Graph>, steps: seq<Step>, j: nat, n: nat)
    requires IsRun(run, steps) && j < |run| && n < |run[j].sources| && n < |run[0].sources|
    requires run[j].sources[n].loop.Adding?
    ensures exists i :: 0 <= i < j && AskedFreely(run, steps, i, n, LoopAsks)
  {
    StartsIdle(run, steps, n);
    if j == 0 {
      assert false;
    } else {
      SameCount(run, steps, j - 1);
      RunsHold(run, steps, j - 1);
      SourcesStay(run[j - 1], steps[j - 1], n);
      if run[j - 1].sources[n].loop.Adding? {
        LoopAskedFreely(run, steps, j - 1, n);
      } else {
        AsksBeforeAdding(run[j - 1].sources[n], steps[j - 1].work, IsThrottled(run[j - 1], n));
        assert AskedFreely(run, steps, j - 1, n, LoopAsks);
      }
    }
  }

  /** So did a thread that is about to add a source it activates. */
  lemma {:induction false} ActivatorAskedFreely(run: seq<Graph>, steps: seq<Step>, j: nat, n: nat)
    requires IsRun(run, steps) && j < |run| && n < |run[j].sources| && n < |run[0].sources|
    requires run[j].sources[n].activator.Adds?
    ensures exists i :: 0 <= i < j && AskedFreely(run, steps, i, n, ActivatorAsks)
  {
    StartsIdle(run, steps, n);
    if j == 0 {
      assert false;
    } else {
      SameCount(run, steps, j - 1);
      RunsHold(run, steps, j - 1);
      SourcesStay(run[j - 1], steps[j - 1], n);
      if run[j - 1].sources[n].activator.Adds? {
        ActivatorAskedFreely(run, steps, j - 1, n);
      } else {
        AsksBeforeAdding(run[j - 1].sources[n], steps[j - 1].work, IsThrottled(run[j - 1], n));
        assert AskedFreely(run, steps, j - 1, n, ActivatorAsks);
      }
    }
  }

  lemma {:induction false} SameCount(run: seq<Graph>, steps: seq<Step>, i: nat)
    requires IsRun(run, steps) && i < |steps|
    ensures |run[i + 1].sources| == |run[i].sources|
  {
    assert run[i + 1] == Take(run[i], steps[i]);
  }

  /** A report that frees a source adds it later exactly if it is active: that is the
      only way a source is added without asking. */
  lemma {:induction false} FreedIsAddedIff(g: Graph, step: Step, n: nat)
    requires Inv(g) && Enabled(g, step) && n < |g.sources|
    ensures Take(g, step).sources[n].holders > g.sources[n].holders <==>
              && step.AskActive? && NextNode(g.sets) == n && g.sets.sets[n] == {}
              && g.sources[n].protocol.status == Active
  {
    if step.OfSource? {
      AsksBeforeAdding(g.sources[step.n], step.work, IsThrottled(g, step.n));
    }
  }
}
