/** Packet generators turn side packets into more side packets, each as soon as
    its inputs exist, on an executor that may run them in any order. */
module Generators {
  import opened Collections

  type Name = string

  type Value = int

  type Packets = map<Name, Value>

  datatype Generator = Generator(inputs: seq<Name>, outputs: seq<Name>)

  /** `produce` gives what a generator puts on each output for given inputs, `fails`
      says whether it returns an error instead. */
  datatype Config = Config(
    generators: seq<Generator>,
    produce: (nat, nat, seq<Value>) -> Value,
    fails: (nat, seq<Value>) -> bool)

  // ------------------------------------------------- what ought to be there

  predicate Runnable(c: Config, m: Packets, g: nat)
    requires g < |c.generators|
  {
    forall i :: 0 <= i < |c.generators[g].inputs| ==> c.generators[g].inputs[i] in m
  }

  function InputsOf(c: Config, m: Packets, g: nat): (values: seq<Value>)
    requires g < |c.generators| && Runnable(c, m, g)
    ensures |values| == |c.generators[g].inputs|
  {
    seq(|c.generators[g].inputs|, i requires 0 <= i < |c.generators[g].inputs| => m[c.generators[g].inputs[i]])
  }

  /** All packets of `m` are in `n`, unchanged. */
  ghost predicate Within(m: Packets, n: Packets) {
    forall k :: k in m ==> k in n && n[k] == m[k]
  }

  /** The outputs of a generator with these inputs are in `m`. */
  ghost predicate Delivered(c: Config, m: Packets, g: nat, values: seq<Value>)
    requires g < |c.generators|
  {
    forall o :: 0 <= o < |c.generators[g].outputs| ==>
      c.generators[g].outputs[o] in m && m[c.generators[g].outputs[o]] == c.produce(g, o, values)
  }

  ghost predicate Satisfied(c: Config, m: Packets, g: nat)
    requires g < |c.generators|
  {
    Runnable(c, m, g) ==> Delivered(c, m, g, InputsOf(c, m, g))
  }

  /** Every generator whose inputs exist has its outputs there. */
  ghost predicate Closed(c: Config, m: Packets) {
    forall g: nat :: g < |c.generators| ==> Satisfied(c, m, g)
  }

  /** `m` is the least closed extension of `start`. */
  ghost predicate IsLeast(c: Config, start: Packets, m: Packets) {
    && Within(start, m) && Closed(c, m)
    && (forall n :: Within(start, n) && Closed(c, n) ==> Within(m, n))
  }

  /** There is at most one. */
  lemma {:induction false} LeastIsUnique(c: Config, start: Packets, m: Packets, n: Packets)
    requires IsLeast(c, start, m) && IsLeast(c, start, n)
    ensures m == n
  {
    assert Within(m, n) && Within(n, m);
  }

  /** In it each output of a runnable generator is what the generator makes of the
      packets at its inputs, in their order. */
  lemma {:induction false} LeastIsProduced(c: Config, start: Packets, m: Packets, g: nat, o: nat, values: seq<Value>)
    requires IsLeast(c, start, m) && g < |c.generators| && o < |c.generators[g].outputs|
    requires Runnable(c, m, g) && |values| == |c.generators[g].inputs|
    requires forall i :: 0 <= i < |values| ==> values[i] == m[c.generators[g].inputs[i]]
    ensures c.generators[g].outputs[o] in m && m[c.generators[g].outputs[o]] == c.produce(g, o, values)
  {
    assert values == InputsOf(c, m, g);
    assert Satisfied(c, m, g);
  }

  /** No two outputs share a name. */
  ghost predicate Distinct(c: Config) {
    forall g, o, h, p :: 0 <= g < |c.generators| && 0 <= o < |c.generators[g].outputs|
                         && 0 <= h < |c.generators| && 0 <= p < |c.generators[h].outputs| && (g != h || o != p) ==>
      c.generators[g].outputs[o] != c.generators[h].outputs[p]
  }

  // ---------------------------------------------------------- one pass

  datatype Task = Task(generator: nat, inputs: seq<Value>)

  /** `main` is how far the first scan has come, `scans` how far those made by
      finished generators have; `ran` lists the generators that have run. */
  datatype Pass = Pass(
    packets: Packets,
    scheduled: seq<bool>,
    main: nat,
    tasks: seq<Task>,
    scans: seq<nat>,
    ran: seq<nat>,
    numTasks: nat,
    failed: bool)

  datatype Step =
    | ScanMain
    | Scan(k: nat)
    | EndScan(k: nat)
    | RunTask(k: nat)

  predicate Enabled(c: Config, p: Pass, step: Step) {
    match step
    case ScanMain => p.main < |c.generators| == |p.scheduled|
    case Scan(k) => k < |p.scans| && p.scans[k] < |c.generators| == |p.scheduled|
    case EndScan(k) => k < |p.scans| && p.scans[k] == |c.generators| && p.numTasks > 0
    case RunTask(k) => k < |p.tasks| && p.tasks[k].generator < |c.generators|
  }

  /** One generator looked at by a scan, with the lock held. */
  function Looked(c: Config, p: Pass, g: nat): Pass
    requires g < |c.generators| == |p.scheduled|
  {
    if p.scheduled[g] || !Runnable(c, p.packets, g) then p
    else
      p.(scheduled := p.scheduled[g := true], numTasks := p.numTasks + 1,
         tasks := p.tasks + [Task(g, InputsOf(c, p.packets, g))])
  }

  /** The first `n` outputs of a generator, by name. */
  function Outputs(c: Config, t: Task, n: nat): (m: Packets)
    requires t.generator < |c.generators| && n <= |c.generators[t.generator].outputs|
  {
    if n == 0 then map[]
    else Outputs(c, t, n - 1)[c.generators[t.generator].outputs[n - 1] := c.produce(t.generator, n - 1, t.inputs)]
  }

  function AllOutputs(c: Config, t: Task): Packets
    requires t.generator < |c.generators|
  {
    Outputs(c, t, |c.generators[t.generator].outputs|)
  }

  /** A packet already there keeps its place, and its second definition is an
      error. */
  function Take(c: Config, p: Pass, step: Step): Pass
    requires Enabled(c, p, step)
  {
    match step
    case ScanMain => Looked(c, p, p.main).(main := p.main + 1)
    case Scan(k) => Looked(c, p, p.scans[k]).(scans := p.scans[k := p.scans[k] + 1])
    case EndScan(k) => p.(scans := Remove(p.scans, k), numTasks := p.numTasks - 1)
    case RunTask(k) =>
      var t := p.tasks[k];
      p.(packets := AllOutputs(c, t) + p.packets,
         tasks := Remove(p.tasks, k), scans := p.scans + [0], ran := p.ran + [t.generator],
         failed := p.failed || exists o :: 0 <= o < |c.generators[t.generator].outputs|
                                           && c.generators[t.generator].outputs[o] in p.packets)
  }

  // ------------------------------------------------------ what steps keep

  lemma {:induction false} OutputsHold(c: Config, t: Task, n: nat)
    requires Distinct(c) && t.generator < |c.generators| && n <= |c.generators[t.generator].outputs|
    ensures forall o :: 0 <= o < n ==>
              && c.generators[t.generator].outputs[o] in Outputs(c, t, n)
              && Outputs(c, t, n)[c.generators[t.generator].outputs[o]] == c.produce(t.generator, o, t.inputs)
    ensures forall k :: k in Outputs(c, t, n) ==> exists o :: 0 <= o < n && c.generators[t.generator].outputs[o] == k
  {
    if n == 0 {
    } else {
      OutputsHold(c, t, n - 1);
    }
  }

  ghost predicate OutputOf(c: Config, g: nat, k: Name)
    requires g < |c.generators|
  {
    exists o :: 0 <= o < |c.generators[g].outputs| && c.generators[g].outputs[o] == k
  }

  ghost predicate TaskInv(c: Config, p: Pass, t: Task) {
    && t.generator < |c.generators| == |p.scheduled| && p.scheduled[t.generator]
    && Runnable(c, p.packets, t.generator) && t.inputs == InputsOf(c, p.packets, t.generator)
  }

  /** A generator not scheduled has not run, and one scheduled has run or will,
      once. */
  ghost predicate OnceInv(c: Config, p: Pass) {
    && |p.scheduled| == |c.generators|
    && (forall k :: 0 <= k < |p.tasks| ==> TaskInv(c, p, p.tasks[k]))
    && (forall k :: 0 <= k < |p.ran| ==> p.ran[k] < |c.generators| && p.scheduled[p.ran[k]])
    && Apart(p.tasks, p.ran)
    && p.numTasks == |p.tasks| + |p.scans|
    && p.main <= |c.generators| && (forall k :: 0 <= k < |p.scans| ==> p.scans[k] <= |c.generators|)
  }

  ghost predicate IsPending(p: Pass, g: nat) {
    exists k :: 0 <= k < |p.tasks| && p.tasks[k].generator == g
  }

  /** A scan will still come to generator `g`. */
  ghost predicate WillLook(p: Pass, g: nat) {
    p.main <= g || exists k :: 0 <= k < |p.scans| && p.scans[k] <= g
  }

  /** A generator that has become runnable will be looked at; one that was
      scheduled is waiting to run or has delivered. */
  ghost predicate ProgressInv(c: Config, p: Pass, g: nat)
    requires g < |c.generators| && g < |p.scheduled|
  {
    if p.scheduled[g] then
      Runnable(c, p.packets, g) && (IsPending(p, g) || Delivered(c, p.packets, g, InputsOf(c, p.packets, g)))
    else Runnable(c, p.packets, g) ==> WillLook(p, g)
  }

  /** The outputs of a generator that has yet to run are not there. */
  ghost predicate AbsentInv(c: Config, p: Pass, g: nat)
    requires g < |c.generators| && g < |p.scheduled|
  {
    !p.scheduled[g] || IsPending(p, g) ==> forall k :: OutputOf(c, g, k) ==> k !in p.packets
  }

  ghost predicate Inv(c: Config, p: Pass) {
    && Distinct(c) && OnceInv(c, p) && !p.failed
    && (forall g: nat :: g < |c.generators| ==> ProgressInv(c, p, g) && AbsentInv(c, p, g))
  }

  lemma {:induction false} SameInputs(c: Config, m: Packets, n: Packets, g: nat)
    requires g < |c.generators| && Runnable(c, m, g) && Within(m, n)
    ensures Runnable(c, n, g) && InputsOf(c, n, g) == InputsOf(c, m, g)
  {
    assert forall i :: 0 <= i < |c.generators[g].inputs| ==> c.generators[g].inputs[i] in m;
  }

  lemma {:induction false} LookedOnce(c: Config, p: Pass, g: nat)
    requires OnceInv(c, p) && g < |c.generators|
    ensures var q := Looked(c, p, g); OnceInv(c, q) && q.packets == p.packets && q.scans == p.scans && q.main == p.main
  {
    var q := Looked(c, p, g);
    forall k | 0 <= k < |q.tasks|
      ensures TaskInv(c, q, q.tasks[k])
    {
      if k < |p.tasks| {
        assert TaskInv(c, p, p.tasks[k]);
      }
    }
  }

  lemma {:induction false} LookedProgress(c: Config, p: Pass, g: nat, h: nat)
    requires OnceInv(c, p) && g < |c.generators| && h < |c.generators|
    requires ProgressInv(c, p, h) && AbsentInv(c, p, h)
    ensures ProgressInv(c, Looked(c, p, g), h) && AbsentInv(c, Looked(c, p, g), h)
    ensures h == g && !Looked(c, p, g).scheduled[g] ==> !Runnable(c, p.packets, g)
  {
    var q := Looked(c, p, g);
    if q != p {
      assert q.tasks[|p.tasks|].generator == g;
      assert forall k :: 0 <= k < |p.tasks| ==> q.tasks[k] == p.tasks[k];
    }
  }

  /** Moving a scan past a generator that it found scheduled or not runnable. */
  lemma {:induction false} ScanKeeps(c: Config, p: Pass, step: Step)
    requires Inv(c, p) && Enabled(c, p, step) && (step.ScanMain? || step.Scan?)
    ensures Inv(c, Take(c, p, step))
  {
    var g := if step.ScanMain? then p.main else p.scans[step.k];
    var q, r := Looked(c, p, g), Take(c, p, step);
    LookedOnce(c, p, g);
    assert OnceInv(c, r) by {
      assert forall k :: 0 <= k < |q.tasks| ==> TaskInv(c, q, q.tasks[k]);
    }
    forall h: nat | h < |c.generators|
      ensures ProgressInv(c, r, h) && AbsentInv(c, r, h)
    {
      assert ProgressInv(c, p, h) && AbsentInv(c, p, h);
      LookedProgress(c, p, g, h);
      ScanMoved(c, q, r, h, step);
    }
  }

  lemma {:induction false} ScanMoved(c: Config, q: Pass, r: Pass, h: nat, step: Step)
    requires h < |c.generators| == |q.scheduled| && ProgressInv(c, q, h) && AbsentInv(c, q, h)
    requires if step.ScanMain? then r == q.(main := q.main + 1)
             else step.Scan? && step.k < |q.scans| && r == q.(scans := q.scans[step.k := q.scans[step.k] + 1])
    requires h == (if step.ScanMain? then q.main else q.scans[step.k]) && !q.scheduled[h] ==> !Runnable(c, q.packets, h)
    ensures ProgressInv(c, r, h) && AbsentInv(c, r, h)
  {
    assert IsPending(r, h) == IsPending(q, h);
    if !q.scheduled[h] && Runnable(c, q.packets, h) && q.main > h {
      var k :| 0 <= k < |q.scans| && q.scans[k] <= h;
      assert r.scans[k] <= h;
    }
  }

  /** A scan that has looked at every generator is no longer needed. */
  lemma {:induction false} EndScanKeeps(c: Config, p: Pass, k: nat)
    requires Inv(c, p) && Enabled(c, p, EndScan(k))
    ensures Inv(c, Take(c, p, EndScan(k)))
  {
    var r := Take(c, p, EndScan(k));
    assert OnceInv(c, r) by {
      assert forall i :: 0 <= i < |p.tasks| ==> TaskInv(c, p, p.tasks[i]);
    }
    forall h: nat | h < |c.generators|
      ensures ProgressInv(c, r, h) && AbsentInv(c, r, h)
    {
      assert ProgressInv(c, p, h) && AbsentInv(c, p, h);
      assert IsPending(r, h) == IsPending(p, h);
      if !p.scheduled[h] && Runnable(c, p.packets, h) && p.main > h {
        var i :| 0 <= i < |p.scans| && p.scans[i] <= h;
        assert i != k;
        assert r.scans[if i < k then i else i - 1] == p.scans[i];
      }
    }
  }

  /** What running a task adds: its outputs, none of which was there. */
  lemma {:induction false} RunAdds(c: Config, p: Pass, k: nat)
    requires Inv(c, p) && Enabled(c, p, RunTask(k))
    ensures var q, t := Take(c, p, RunTask(k)), p.tasks[k];
            && !q.failed && Within(p.packets, q.packets) && Delivered(c, q.packets, t.generator, t.inputs)
            && (forall n :: n in q.packets ==> n in p.packets || OutputOf(c, t.generator, n))
  {
    var q, t := Take(c, p, RunTask(k)), p.tasks[k];
    var g := t.generator;
    assert TaskInv(c, p, t) && AbsentInv(c, p, g) && IsPending(p, g);
    OutputsHold(c, t, |c.generators[g].outputs|);
    forall o | 0 <= o < |c.generators[g].outputs|
      ensures c.generators[g].outputs[o] !in p.packets
    {
      assert OutputOf(c, g, c.generators[g].outputs[o]);
    }
  }

  lemma {:induction false} TaskStays(c: Config, p: Pass, q: Pass, t: Task)
    requires TaskInv(c, p, t) && Within(p.packets, q.packets) && q.scheduled == p.scheduled
    ensures TaskInv(c, q, t)
  {
    SameInputs(c, p.packets, q.packets, t.generator);
  }

  /** The generators of the waiting tasks and those that have run, all different. */
  ghost predicate Apart(tasks: seq<Task>, ran: seq<nat>) {
    && (forall k, l :: 0 <= k < l < |tasks| ==> tasks[k].generator != tasks[l].generator)
    && (forall k, l :: 0 <= k < l < |ran| ==> ran[k] != ran[l])
    && (forall k, l :: 0 <= k < |ran| && 0 <= l < |tasks| ==> ran[k] != tasks[l].generator)
  }

  lemma {:induction false} RunApart(tasks: seq<Task>, ran: seq<nat>, k: nat)
    requires k < |tasks| && Apart(tasks, ran)
    ensures Apart(Remove(tasks, k), ran + [tasks[k].generator])
  {
    RemoveAt(tasks, k);
  }

  lemma {:induction false} RunOnce(c: Config, p: Pass, k: nat)
    requires OnceInv(c, p) && Enabled(c, p, RunTask(k)) && Within(p.packets, Take(c, p, RunTask(k)).packets)
    ensures OnceInv(c, Take(c, p, RunTask(k)))
  {
    var q, t := Take(c, p, RunTask(k)), p.tasks[k];
    assert TaskInv(c, p, t);
    RunApart(p.tasks, p.ran, k);
    RemoveAt(p.tasks, k);
    forall i | 0 <= i < |q.tasks|
      ensures TaskInv(c, q, q.tasks[i])
    {
      TaskStays(c, p, q, p.tasks[if i < k then i else i + 1]);
    }
  }

  /** Running a task takes its generator off the list, and no other. */
  lemma {:induction false} PendingAfterRun(p: Pass, q: Pass, k: nat, h: nat)
    requires k < |p.tasks| && q.tasks == Remove(p.tasks, k)
    requires forall i, j :: 0 <= i < j < |p.tasks| ==> p.tasks[i].generator != p.tasks[j].generator
    ensures IsPending(q, h) <==> IsPending(p, h) && h != p.tasks[k].generator
    ensures IsPending(p, p.tasks[k].generator)
  {
    if IsPending(p, h) && h != p.tasks[k].generator {
      var i :| 0 <= i < |p.tasks| && p.tasks[i].generator == h;
      assert q.tasks[if i < k then i else i - 1] == p.tasks[i];
    }
    if IsPending(q, h) {
      var i :| 0 <= i < |q.tasks| && q.tasks[i].generator == h;
      assert q.tasks[i] == p.tasks[if i < k then i else i + 1];
    }
  }

  lemma {:induction false} RunProgress(c: Config, p: Pass, k: nat, h: nat)
    requires Inv(c, p) && Enabled(c, p, RunTask(k)) && h < |c.generators|
    ensures ProgressInv(c, Take(c, p, RunTask(k)), h) && AbsentInv(c, Take(c, p, RunTask(k)), h)
  {
    var q, t := Take(c, p, RunTask(k)), p.tasks[k];
    var g := t.generator;
    RunAdds(c, p, k);
    assert ProgressInv(c, p, h) && AbsentInv(c, p, h) && TaskInv(c, p, t);
    PendingAfterRun(p, q, k, h);
    if p.scheduled[h] {
      SameInputs(c, p.packets, q.packets, h);
      if h == g {
        assert Delivered(c, q.packets, h, InputsOf(c, q.packets, h));
      }
    } else {
      assert q.scans[|p.scans|] == 0;
    }
    if !q.scheduled[h] || IsPending(q, h) {
      forall n | OutputOf(c, h, n)
        ensures n !in q.packets
      {
        assert !OutputOf(c, g, n);
      }
    }
  }

  lemma {:induction false} StepKeeps(c: Config, p: Pass, step: Step)
    requires Inv(c, p) && Enabled(c, p, step)
    ensures Inv(c, Take(c, p, step))
  {
    match step
    case ScanMain => ScanKeeps(c, p, step);
    case Scan(_) => ScanKeeps(c, p, step);
    case EndScan(k) => EndScanKeeps(c, p, k);
    case RunTask(k) =>
      RunAdds(c, p, k);
      RunOnce(c, p, k);
      forall h: nat | h < |c.generators|
        ensures ProgressInv(c, Take(c, p, step), h) && AbsentInv(c, Take(c, p, step), h)
      {
        RunProgress(c, p, k, h);
      }
  }

  /** Nothing is added that is not in every closed extension of the start. */
  lemma {:induction false} StepStaysWithin(c: Config, p: Pass, step: Step, n: Packets)
    requires Inv(c, p) && Enabled(c, p, step) && Within(p.packets, n) && Closed(c, n)
    ensures Within(Take(c, p, step).packets, n)
  {
    if step.RunTask? {
      var q, t := Take(c, p, step), p.tasks[step.k];
      RunAdds(c, p, step.k);
      assert TaskInv(c, p, t);
      SameInputs(c, p.packets, n, t.generator);
      assert Satisfied(c, n, t.generator);
      forall k | k in q.packets
        ensures k in n && n[k] == q.packets[k]
      {
        if k !in p.packets {
          var o :| 0 <= o < |c.generators[t.generator].outputs| && c.generators[t.generator].outputs[o] == k;
        }
      }
    }
  }

  /** Nothing in `m` is missing from any closed extension of `start`. */
  ghost predicate Contained(c: Config, start: Packets, m: Packets) {
    forall n :: Within(start, n) && Closed(c, n) ==> Within(m, n)
  }

  // ----------------------------------------------------------- whole runs

  /** The generators marked scheduled at the start are those of an earlier pass:
      they have delivered. No other generator's outputs are there. */
  ghost predicate Startable(c: Config, start: Packets, scheduled: seq<bool>) {
    && Distinct(c) && |scheduled| == |c.generators|
    && (forall g: nat :: g < |c.generators| ==> StartsWith(c, start, scheduled, g))
  }

  ghost predicate StartsWith(c: Config, start: Packets, scheduled: seq<bool>, g: nat)
    requires g < |c.generators| && g < |scheduled|
  {
    if scheduled[g] then Runnable(c, start, g) && Delivered(c, start, g, InputsOf(c, start, g))
    else forall k :: OutputOf(c, g, k) ==> k !in start
  }

  ghost predicate IsRun(c: Config, start: Packets, scheduled: seq<bool>, run: seq<Pass>, steps: seq<Step>) {
    && Startable(c, start, scheduled)
    && |run| == |steps| + 1 && run[0] == Pass(start, scheduled, 0, [], [], [], 0, false)
    && (forall i :: 0 <= i < |steps| ==> Enabled(c, run[i], steps[i]) && run[i + 1] == Take(c, run[i], steps[i]))
  }

  lemma {:induction false} RunsHold(c: Config, start: Packets, scheduled: seq<bool>, run: seq<Pass>,
        steps: seq<Step>, i: nat)
    requires IsRun(c, start, scheduled, run, steps) && i < |run|
    ensures Inv(c, run[i]) && Within(start, run[i].packets)
  {
    if i == 0 {
      assert forall g: nat :: g < |c.generators| ==> StartsWith(c, start, scheduled, g);
      forall g: nat | g < |c.generators|
        ensures ProgressInv(c, run[0], g) && AbsentInv(c, run[0], g)
      {
        assert StartsWith(c, start, scheduled, g);
      }
    } else {
      RunsHold(c, start, scheduled, run, steps, i - 1);
      StepKeeps(c, run[i - 1], steps[i - 1]);
      if steps[i - 1].RunTask? {
        RunAdds(c, run[i - 1], steps[i - 1].k);
      }
    }
  }

  lemma {:induction false} RunsStayWithin(c: Config, start: Packets, scheduled: seq<bool>, run: seq<Pass>,
        steps: seq<Step>, i: nat, n: Packets)
    requires IsRun(c, start, scheduled, run, steps) && i < |run|
    requires Within(start, n) && Closed(c, n)
    ensures Within(run[i].packets, n)
  {
    if i == 0 {
    } else {
      RunsStayWithin(c, start, scheduled, run, steps, i - 1, n);
      RunsHold(c, start, scheduled, run, steps, i - 1);
      StepStaysWithin(c, run[i - 1], steps[i - 1], n);
    }
  }

  /** What WaitUntilIdle waits for, once the first scan is over. */
  predicate AtIdle(c: Config, p: Pass) {
    p.main == |c.generators| && p.numTasks == 0
  }

  lemma {:induction false} IdleIsClosed(c: Config, p: Pass)
    requires Inv(c, p) && AtIdle(c, p)
    ensures Closed(c, p.packets)
    ensures forall g: nat :: g < |c.generators| ==> (p.scheduled[g] <==> Runnable(c, p.packets, g))
  {
    forall g: nat | g < |c.generators|
      ensures Satisfied(c, p.packets, g) && (p.scheduled[g] <==> Runnable(c, p.packets, g))
    {
      assert ProgressInv(c, p, g);
      assert !IsPending(p, g);
      assert !WillLook(p, g);
    }
  }

  /** Until then some task or some scan can go on. */
  lemma {:induction false} NotIdleMoves(c: Config, p: Pass)
    requires Inv(c, p) && !AtIdle(c, p)
    ensures exists step :: Enabled(c, p, step)
  {
    if p.main < |c.generators| {
      assert Enabled(c, p, ScanMain);
    } else if p.tasks != [] {
      assert TaskInv(c, p, p.tasks[0]);
      assert Enabled(c, p, RunTask(0));
    } else {
      assert Enabled(c, p, if p.scans[0] < |c.generators| then Scan(0) else EndScan(0));
    }
  }

  /** Confluence. In whatever order the executor runs the tasks, at idle the packets
      are the least closed extension of those at the start; a generator is scheduled
      just when its inputs exist; and no generator ran twice. */
  lemma {:induction false} PassReachesLeast(c: Config, start: Packets, scheduled: seq<bool>, run: seq<Pass>,
        steps: seq<Step>, i: nat)
    requires IsRun(c, start, scheduled, run, steps) && i < |run| && AtIdle(c, run[i])
    ensures IsLeast(c, start, run[i].packets) && !run[i].failed
    ensures |run[i].scheduled| == |c.generators|
    ensures forall g: nat :: g < |c.generators| ==> (run[i].scheduled[g] <==> Runnable(c, run[i].packets, g))
    ensures forall k, l :: 0 <= k < l < |run[i].ran| ==> run[i].ran[k] != run[i].ran[l]
  {
    RunsHold(c, start, scheduled, run, steps, i);
    IdleIsClosed(c, run[i]);
    forall n | Within(start, n) && Closed(c, n)
      ensures Within(run[i].packets, n)
    {
      RunsStayWithin(c, start, scheduled, run, steps, i, n);
    }
  }

  // Which generators ran.

  ghost predicate RanInv(p: Pass, scheduled: seq<bool>, g: nat)
    requires g < |p.scheduled| && g < |scheduled|
  {
    && (scheduled[g] ==> p.scheduled[g] && g !in p.ran && !IsPending(p, g))
    && (p.scheduled[g] && !scheduled[g] ==> g in p.ran || IsPending(p, g))
  }

  lemma {:induction false} LookedRan(c: Config, p: Pass, scheduled: seq<bool>, g: nat, h: nat)
    requires OnceInv(c, p) && g < |c.generators| && h < |c.generators| == |scheduled| && RanInv(p, scheduled, h)
    ensures RanInv(Looked(c, p, g), scheduled, h)
  {
    var q := Looked(c, p, g);
    if q != p {
      assert q.tasks[|p.tasks|].generator == g;
      assert forall k :: 0 <= k < |p.tasks| ==> q.tasks[k] == p.tasks[k];
    }
  }

  lemma {:induction false} RunTaskRan(c: Config, p: Pass, scheduled: seq<bool>, k: nat, h: nat)
    requires OnceInv(c, p) && k < |p.tasks| && h < |c.generators| == |scheduled| && RanInv(p, scheduled, h)
    requires p.tasks[k].generator < |c.generators|
    ensures RanInv(Take(c, p, RunTask(k)), scheduled, h)
  {
    var q := Take(c, p, RunTask(k));
    PendingAfterRun(p, q, k, h);
    assert q.ran[|p.ran|] == p.tasks[k].generator;
    assert h in q.ran <==> h in p.ran || h == p.tasks[k].generator;
  }

  lemma {:induction false} StepRan(c: Config, p: Pass, scheduled: seq<bool>, step: Step, g: nat)
    requires Inv(c, p) && Enabled(c, p, step) && g < |c.generators| == |scheduled| == |p.scheduled|
    requires RanInv(p, scheduled, g)
    ensures g < |Take(c, p, step).scheduled| && RanInv(Take(c, p, step), scheduled, g)
  {
    match step
    case ScanMain => LookedRan(c, p, scheduled, p.main, g);
    case Scan(k) => LookedRan(c, p, scheduled, p.scans[k], g);
    case EndScan(_) =>
    case RunTask(k) => RunTaskRan(c, p, scheduled, k, g);
  }

  lemma {:induction false} RunsRan(c: Config, start: Packets, scheduled: seq<bool>, run: seq<Pass>,
        steps: seq<Step>, i: nat, g: nat)
    requires IsRun(c, start, scheduled, run, steps) && i < |run| && g < |c.generators|
    ensures g < |run[i].scheduled| && RanInv(run[i], scheduled, g)
  {
    RunsHold(c, start, scheduled, run, steps, i);
    if i == 0 {
    } else {
      RunsRan(c, start, scheduled, run, steps, i - 1, g);
      RunsHold(c, start, scheduled, run, steps, i - 1);
      StepRan(c, run[i - 1], scheduled, steps[i - 1], g);
    }
  }

  /** At idle the generators that ran, once each, are those whose inputs exist and
      that had not run in an earlier pass. */
  lemma {:induction false} ExactlyTheRunnableRan(c: Config, start: Packets, scheduled: seq<bool>, run: seq<Pass>,
        steps: seq<Step>, i: nat, g: nat)
    requires IsRun(c, start, scheduled, run, steps) && i < |run| && AtIdle(c, run[i]) && g < |c.generators|
    requires |scheduled| == |c.generators|
    ensures g in run[i].ran <==> !scheduled[g] && Runnable(c, run[i].packets, g)
  {
    RunsRan(c, start, scheduled, run, steps, i, g);
    RunsHold(c, start, scheduled, run, steps, i);
    IdleIsClosed(c, run[i]);
    assert !IsPending(run[i], g);
  }

  // ---------------------------------------------------------- two phases

  /** After a first pass on the base packets, the packets of a run may be added, and
      the generators left over get a second pass. */
  lemma {:induction false} SecondPassStarts(c: Config, base: Packets, m: Packets, more: Packets, scheduled: seq<bool>)
    requires Distinct(c) && IsLeast(c, base, m) && |scheduled| == |c.generators|
    requires forall g: nat :: g < |c.generators| ==> (scheduled[g] <==> Runnable(c, m, g))
    requires forall k :: k in more ==> k !in m
    requires forall g: nat, k :: g < |c.generators| && !scheduled[g] && OutputOf(c, g, k) ==> k !in m && k !in more
    ensures Startable(c, m + more, scheduled)
  {
    assert Within(m, m + more);
    forall g: nat | g < |c.generators|
      ensures StartsWith(c, m + more, scheduled, g)
    {
      if scheduled[g] {
        assert Satisfied(c, m, g);
        SameInputs(c, m, m + more, g);
      }
    }
  }

  /** Initializing a graph with some packets and then setting up a run with the rest
      gives the same packets as one pass over all of them. */
  lemma {:induction false} TwoPhasesAreOne(c: Config, base: Packets, m: Packets, more: Packets, result: Packets)
    requires IsLeast(c, base, m) && IsLeast(c, m + more, result)
    requires forall k :: k in more ==> k !in m
    ensures IsLeast(c, base + more, result)
  {
    assert Within(base, m) && Within(m + more, result);
    assert Within(base + more, result) by {
      forall k | k in base + more
        ensures k in result && result[k] == (base + more)[k]
      {
        assert k in m + more;
        assert k in more ==> (m + more)[k] == more[k];
      }
    }
    forall n | Within(base + more, n) && Closed(c, n)
      ensures Within(result, n)
    {
      BaseWithin(base, m, more, n);
      assert Within(m, n);
      assert Within(m + more, n) by {
        forall k | k in m + more
          ensures k in n && n[k] == (m + more)[k]
        {
          assert k in more ==> (base + more)[k] == more[k];
        }
      }
    }
  }

  lemma {:induction false} BaseWithin(base: Packets, m: Packets, more: Packets, n: Packets)
    requires Within(base, m) && Within(base + more, n) && forall k :: k in more ==> k !in m
    ensures Within(base, n)
  {
    forall k | k in base
      ensures k in n && n[k] == base[k]
    {
      assert k in m && k !in more;
      assert (base + more)[k] == base[k];
    }
  }

  /** Whatever happens in between: one pass over the base packets, a second one over
      its result and the rest with the generators left over, or a single pass over
      all packets, leave the same packets. */
  lemma {:induction false} SetupEqualsOnePass(
    c: Config, base: Packets, more: Packets, none: seq<bool>,
    run1: seq<Pass>, steps1: seq<Step>, run2: seq<Pass>, steps2: seq<Step>, run3: seq<Pass>, steps3: seq<Step>)
    requires IsRun(c, base, none, run1, steps1) && AtIdle(c, run1[|run1| - 1])
    requires forall k :: k in more ==> k !in run1[|run1| - 1].packets
    requires IsRun(c, run1[|run1| - 1].packets + more, run1[|run1| - 1].scheduled, run2, steps2)
    requires AtIdle(c, run2[|run2| - 1])
    requires IsRun(c, base + more, none, run3, steps3) && AtIdle(c, run3[|run3| - 1])
    ensures run2[|run2| - 1].packets == run3[|run3| - 1].packets
  {
    var m := run1[|run1| - 1];
    PassReachesLeast(c, base, none, run1, steps1, |run1| - 1);
    PassReachesLeast(c, m.packets + more, m.scheduled, run2, steps2, |run2| - 1);
    PassReachesLeast(c, base + more, none, run3, steps3, |run3| - 1);
    TwoPhasesAreOne(c, base, m.packets, more, run2[|run2| - 1].packets);
    LeastIsUnique(c, base + more, run2[|run2| - 1].packets, run3[|run3| - 1].packets);
  }
}
