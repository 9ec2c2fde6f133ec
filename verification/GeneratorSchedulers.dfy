/** The scheduler of packet generators with its delegating executor: tasks wait until
    the application thread runs them, the oldest first. */
module GeneratorSchedulers {
  import opened Collections
  import opened Generators
  import opened FailingGenerators

  class GeneratorScheduler {
    const config: Config
    var sidePackets: Packets
    var scheduledGenerators: seq<bool>
    var numTasks: nat
    var appThreadTasks: seq<Task>
    var statuses: nat
    ghost var ran: seq<nat>

    /** The pass at a moment when no scan is under way. */
    ghost function State(): Pass
      reads this
    {
      Pass(sidePackets, scheduledGenerators, |config.generators|, appThreadTasks, [], ran, numTasks, false)
    }

    ghost predicate Valid(start: Packets, scheduled: seq<bool>)
      reads this
    {
      AttemptInv(config, start, scheduled, Attempt(State(), statuses))
    }

    constructor (config: Config, start: Packets, scheduled: seq<bool>)
      requires |scheduled| == |config.generators|
      ensures this.config == config && sidePackets == start && scheduledGenerators == scheduled
      ensures numTasks == 0 && appThreadTasks == [] && statuses == 0 && ran == []
    {
      this.config := config;
      sidePackets, scheduledGenerators, numTasks, appThreadTasks := start, scheduled, 0, [];
      statuses, ran := 0, [];
    }

    /** The pass while a scan is at `index`: the first scan, or one made by a task
        that has not returned. */
    ghost function Scanning(index: nat, first: bool): Pass
      reads this
    {
      if first then State().(main := index) else State().(scans := [index])
    }

    /** One turn of the loop below. */
    method ScheduleIfRunnable(index: nat, ghost first: bool, ghost start: Packets, ghost scheduled: seq<bool>)
      requires index < |config.generators| && AllWell(config, start, scheduled, Scanning(index, first))
      modifies this
      ensures AllWell(config, start, scheduled, Scanning(index + 1, first)) && statuses == old(statuses)
      ensures State() == Looked(config, old(State()), index)
      ensures Unscheduled(scheduledGenerators, |scheduledGenerators|) + |appThreadTasks|
              == old(Unscheduled(scheduledGenerators, |scheduledGenerators|) + |appThreadTasks|)
    {
      ghost var p := Scanning(index, first);
      LookStep(p, index, first, start, scheduled);
      if !scheduledGenerators[index] && Runnable(config, sidePackets, index) {
        UnscheduledAt(scheduledGenerators, |scheduledGenerators|, index);
        scheduledGenerators := scheduledGenerators[index := true];
        numTasks := numTasks + 1;
        appThreadTasks := appThreadTasks + [Task(index, InputsOf(config, sidePackets, index))];
      }
      ghost var q := Looked(config, p, index);
      assert Scanning(index + 1, first) == if first then q.(main := index + 1) else q.(scans := [index + 1]);
    }

    /** The same turn as a step of the pass. */
    lemma {:induction false} LookStep(p: Pass, index: nat, first: bool, start: Packets, scheduled: seq<bool>)
      requires AllWell(config, start, scheduled, p) && index < |config.generators|
      requires if first then p.main == index else p.scans == [index]
      ensures var q := Looked(config, p, index);
              AllWell(config, start, scheduled, if first then q.(main := index + 1) else q.(scans := [index + 1]))
    {
      assert [index][0 := index + 1] == [index + 1];
      NormalKeeps(config, start, scheduled, p, if first then ScanMain else Scan(0));
    }

    /** Looks at every generator in turn and schedules those that can run. */
    method ScheduleAllRunnableGenerators(ghost first: bool, ghost start: Packets, ghost scheduled: seq<bool>)
      requires AllWell(config, start, scheduled, Scanning(0, first))
      modifies this
      ensures AllWell(config, start, scheduled, Scanning(|config.generators|, first)) && statuses == old(statuses)
      ensures sidePackets == old(sidePackets) && ran == old(ran)
      ensures |scheduledGenerators| == |old(scheduledGenerators)|
      ensures Unscheduled(scheduledGenerators, |scheduledGenerators|) + |appThreadTasks|
              == old(Unscheduled(scheduledGenerators, |scheduledGenerators|) + |appThreadTasks|)
    {
      var index := 0;
      while index < |config.generators|
        invariant 0 <= index <= |config.generators|
        invariant AllWell(config, start, scheduled, Scanning(index, first)) && statuses == old(statuses)
        invariant sidePackets == old(sidePackets) && ran == old(ran)
        invariant |scheduledGenerators| == |old(scheduledGenerators)|
        invariant Unscheduled(scheduledGenerators, |scheduledGenerators|) + |appThreadTasks|
                  == old(Unscheduled(scheduledGenerators, |scheduledGenerators|) + |appThreadTasks|)
      {
        ScheduleIfRunnable(index, first, start, scheduled);
        index := index + 1;
      }
    }

    /** Adds the outputs of a generator to the packets, one by one. */
    method AddOutputs(task: Task) returns (ok: bool)
      requires task.generator < |config.generators| && Distinct(config)
      requires forall k :: OutputOf(config, task.generator, k) ==> k !in sidePackets
      modifies this`sidePackets
      ensures ok && sidePackets == AllOutputs(config, task) + old(sidePackets)
    {
      ok := true;
      var outputs := config.generators[task.generator].outputs;
      var o := 0;
      assert map[] + sidePackets == sidePackets;
      while o < |outputs|
        invariant 0 <= o <= |outputs| && ok
        invariant sidePackets == Outputs(config, task, o) + old(sidePackets)
      {
        NextOutput(config, task, o, old(sidePackets));
        var value := config.produce(task.generator, o, task.inputs);
        if outputs[o] in sidePackets {
          ok := false;
        } else {
          sidePackets := sidePackets[outputs[o] := value];
        }
        o := o + 1;
      }
    }

    /** A task that does not fail. */
    method RunGenerator(task: Task, ghost p: Pass, ghost start: Packets, ghost scheduled: seq<bool>)
      requires AllWell(config, start, scheduled, p) && p.tasks != [] && p.tasks[0] == task && p.scans == []
      requires State() == p.(tasks := p.tasks[1..]) && statuses == 0
      requires task.generator < |config.generators| && !config.fails(task.generator, task.inputs)
      modifies this
      ensures AllWell(config, start, scheduled, State()) && statuses == 0
      ensures Unscheduled(scheduledGenerators, |scheduledGenerators|) + |appThreadTasks|
              == old(Unscheduled(scheduledGenerators, |scheduledGenerators|) + |appThreadTasks|)
    {
      TaskIsNew(p);
      var ok := AddOutputs(task);
      ran := ran + [task.generator];
      TaskRuns(p, Scanning(0, false), start, scheduled);
      ScheduleAllRunnableGenerators(false, start, scheduled);
      numTasks := numTasks - 1;
      TaskReturns(Scanning(|config.generators|, false).(numTasks := numTasks + 1), State(), start, scheduled);
    }

    /** Runs the oldest task, and schedules what it makes runnable; after an error the
        task is dropped. */
    method GenerateAndScheduleNext(ghost start: Packets, ghost scheduled: seq<bool>)
      requires Valid(start, scheduled) && appThreadTasks != []
      modifies this
      ensures Valid(start, scheduled)
      ensures Unscheduled(scheduledGenerators, |scheduledGenerators|) + |appThreadTasks|
              == old(Unscheduled(scheduledGenerators, |scheduledGenerators|) + |appThreadTasks|) - 1
    {
      ghost var before := Attempt(State(), statuses);
      var task := appThreadTasks[0];
      assert appThreadTasks[1..] == Remove(appThreadTasks, 0);
      appThreadTasks := appThreadTasks[1..];
      if statuses > 0 || config.fails(task.generator, task.inputs) {
        numTasks := numTasks - 1;
        if statuses > 0 {
          AttemptStepKeeps(config, start, scheduled, before, Drop(0));
        } else {
          AttemptStepKeeps(config, start, scheduled, before, Fail(0));
          statuses := statuses + 1;
        }
        return;
      }
      RunGenerator(task, before.pass, start, scheduled);
    }

    /** Runs waiting tasks until there are none. */
    method RunApplicationThreadTasks(ghost start: Packets, ghost scheduled: seq<bool>)
      requires Valid(start, scheduled)
      modifies this
      ensures Valid(start, scheduled) && AtIdle(config, State())
    {
      while appThreadTasks != []
        invariant Valid(start, scheduled)
        decreases Unscheduled(scheduledGenerators, |scheduledGenerators|) + |appThreadTasks|
      {
        GenerateAndScheduleNext(start, scheduled);
      }
    }

    lemma {:induction false} TaskIsNew(p: Pass)
      requires Inv(config, p) && p.tasks != []
      ensures p.tasks[0].generator < |config.generators|
      ensures forall k :: OutputOf(config, p.tasks[0].generator, k) ==> k !in p.packets
    {
      assert TaskInv(config, p, p.tasks[0]) && IsPending(p, p.tasks[0].generator);
      assert AbsentInv(config, p, p.tasks[0].generator);
    }

    /** One task run, as steps of the pass. */
    lemma {:induction false} TaskRuns(p: Pass, q: Pass, start: Packets, scheduled: seq<bool>)
      requires AllWell(config, start, scheduled, p) && p.scans == [] && p.tasks != []
      requires p.tasks[0].generator < |config.generators|
      requires !config.fails(p.tasks[0].generator, p.tasks[0].inputs)
      requires q == p.(packets := AllOutputs(config, p.tasks[0]) + p.packets, tasks := p.tasks[1..],
                       scans := [0], ran := p.ran + [p.tasks[0].generator])
      ensures AllWell(config, start, scheduled, q)
    {
      NormalKeeps(config, start, scheduled, p, RunTask(0));
      RunAdds(config, p, 0);
      assert Take(config, p, RunTask(0)) == q;
    }

    lemma {:induction false} TaskReturns(p: Pass, q: Pass, start: Packets, scheduled: seq<bool>)
      requires AllWell(config, start, scheduled, p) && p.scans == [|config.generators|] && p.numTasks > 0
      requires q == p.(scans := [], numTasks := p.numTasks - 1)
      ensures AllWell(config, start, scheduled, q)
    {
      NormalKeeps(config, start, scheduled, p, EndScan(0));
      assert Take(config, p, EndScan(0)) == q;
    }
  }

  /** The next output is new, and the packets that were there keep their values. */
  lemma {:induction false} NextOutput(c: Config, t: Task, o: nat, m: Packets)
    requires t.generator < |c.generators| && o < |c.generators[t.generator].outputs| && Distinct(c)
    requires forall k :: OutputOf(c, t.generator, k) ==> k !in m
    ensures var k := c.generators[t.generator].outputs[o];
            && k !in Outputs(c, t, o) + m
            && Outputs(c, t, o + 1) + m == (Outputs(c, t, o) + m)[k := c.produce(t.generator, o, t.inputs)]
  {
    OutputsHold(c, t, o);
    assert OutputOf(c, t.generator, c.generators[t.generator].outputs[o]);
  }

  function Unscheduled(s: seq<bool>, n: nat): nat
    requires n <= |s|
  {
    if n == 0 then 0 else Unscheduled(s, n - 1) + if s[n - 1] then 0 else 1
  }

  lemma {:induction false} UnscheduledAt(s: seq<bool>, n: nat, g: nat)
    requires n <= |s| && g < |s| && !s[g]
    ensures Unscheduled(s[g := true], n) == Unscheduled(s, n) - if g < n then 1 else 0
  {
    if n == 0 {
    } else {
      UnscheduledAt(s, n - 1, g);
    }
  }

  /** One pass: whether it went without error, and then the packets it leaves and the
      generators that could not run. */
  method ExecuteGenerators(config: Config, start: Packets, scheduled: seq<bool>)
    returns (ok: bool, packets: Packets, nonScheduled: seq<nat>)
    requires Startable(config, start, scheduled)
    ensures ok ==> IsLeast(config, start, packets)
    ensures ok ==> forall g: nat :: g in nonScheduled <==> g < |config.generators| && !Runnable(config, packets, g)
    ensures forall m :: IsLeast(config, start, m) ==> (ok <==> forall g: nat :: !FailsOn(config, m, scheduled, g))
  {
    var scheduler := new GeneratorScheduler(config, start, scheduled);
    StartIsWell(config, start, scheduled);
    assert scheduler.Scanning(0, true) == Pass(start, scheduled, 0, [], [], [], 0, false);
    scheduler.ScheduleAllRunnableGenerators(true, start, scheduled);
    assert scheduler.State() == scheduler.Scanning(|config.generators|, true);
    scheduler.RunApplicationThreadTasks(start, scheduled);
    ok, packets, nonScheduled := scheduler.statuses == 0, scheduler.sidePackets, [];
    OutcomeAtIdle(config, start, scheduled, Attempt(scheduler.State(), scheduler.statuses));
    if !ok {
      return;
    }
    var i := 0;
    while i < |config.generators|
      invariant 0 <= i <= |config.generators| == |scheduler.scheduledGenerators|
      invariant forall g: nat :: g in nonScheduled <==> g < i && !scheduler.scheduledGenerators[g]
    {
      if !scheduler.scheduledGenerators[i] {
        nonScheduled := nonScheduled + [i];
      }
      i := i + 1;
    }
  }
}
