/** Control-lane reordering and coalescing are invisible, and exactly when a late statistic is not. */
module PipelineResults {
  import opened Basics
  import opened Control
  import opened OpsState
  import opened Worker
  import opened Pipeline
  import opened PipelineSources
  import opened PipelineSettles
  import opened PipelineQuiet

  // ---------------------------------------------------------------- totals

  function KernelSum(last: map<string, nat>, names: seq<string>): nat
    requires SetOf(names) <= last.Keys
  {
    if names == [] then 0 else
      var n := |names| - 1;
      assert SetOf(names[..n]) <= SetOf(names);
      assert names[n] in SetOf(names);
      KernelSum(last, names[..n]) + last[names[n]]
  }

  /** All kernel drops the sources have counted. */
  function Reported(producers: seq<Producer>): nat {
    if producers == [] then 0 else Reported(producers[..|producers| - 1]) + producers[|producers| - 1].drops
  }

  lemma {:induction false} KernelSumUpdate(last: map<string, nat>, names: seq<string>, point: string, total: nat)
    requires SetOf(names) <= last.Keys && Distinct(names)
    ensures SetOf(names) <= last[point := total].Keys
    ensures KernelSum(last[point := total], names) ==
      KernelSum(last, names) + (if point in names then total - last[point] else 0)
  {
    if names != [] {
      var n := |names| - 1;
      assert SetOf(names[..n]) <= SetOf(names);
      assert names[n] in SetOf(names);
      KernelSumUpdate(last, names[..n], point, total);
      assert names == names[..n] + [names[n]];
      assert point in names ==> point in SetOf(names);
    }
  }

  lemma {:induction false} KernelSumIsReported(last: map<string, nat>, names: seq<string>, producers: seq<Producer>)
    requires SetOf(names) <= last.Keys && CalledBy(producers, names)
    requires forall i :: 0 <= i < |names| ==> names[i] in last && last[names[i]] == producers[i].drops
    ensures KernelSum(last, names) == Reported(producers)
  {
    if names != [] {
      var n := |names| - 1;
      assert SetOf(names[..n]) <= SetOf(names);
      KernelSumIsReported(last, names[..n], producers[..n]);
    }
  }

  ghost predicate Counted(o: Ops, names: seq<string>) {
    SetOf(names) <= o.lastKernel.Keys && o.kernelDrops == KernelSum(o.lastKernel, names)
  }

  lemma HandlingCounts(r: Recorder, m: Message, w: World, names: seq<string>)
    requires GoodNames(names) && Knows(r.ops, SetOf(names)) && Counted(r.ops, names)
    requires Routable(r.ops, m) && Proper(m, SetOf(names))
    requires m.kind.Stats? ==> r.ops.lastKernel[m.stats.value.point] <= m.stats.value.drops
    ensures Counted(Handled(r, m, w).ops, names)
  {
    if m.kind.Stats? {
      StatsHandling(r, m, w);
      KernelSumUpdate(r.ops.lastKernel, names, m.stats.value.point, m.stats.value.drops);
    } else if IsLifecycle(m.kind) {
      LifecycleHandling(r, m, w);
    } else {
      QuietHandling(r, m, w);
    }
  }

  lemma FirstRises(k: Known, ms: seq<Message>, point: string)
    requires ms != [] && Rises(k, ms, point) && IsStatsOf(ms[0], point)
    ensures k.drops <= ms[0].stats.value.drops
  {
    assert ms == [ms[0]] + ms[1..];
    LearnAppend(k, [ms[0]], ms[1..], point);
    OneTeaches(k, ms[0], point);
  }

  lemma HandleCounts(s: State, w: World, names: seq<string>)
    requires GoodNames(names) && Informed(s, names) && Counted(s.recorder.ops, names)
    requires s.position.Handling? && s.position.batch != [] && Routable(s.recorder.ops, s.position.batch[0])
    requires forall n :: n in names ==> Rises(Of(s.recorder.ops, n), Batch(s.position), n)
    ensures Counted(AfterHandle(s, w).recorder.ops, names)
  {
    var m := s.position.batch[0];
    assert Proper(Batch(s.position)[0], SetOf(names));
    if m.kind.Stats? {
      FirstRises(Of(s.recorder.ops, m.stats.value.point), Batch(s.position), m.stats.value.point);
    }
    if StopsWorker(m) {
      EndingLearnsNothing(s.recorder, w);
    } else {
      HandlingCounts(s.recorder, m, w, names);
    }
  }

  lemma CrashCounts(s: State, w: World, names: seq<string>)
    requires GoodNames(names) && Informed(s, names) && Counted(s.recorder.ops, names)
    requires s.position.Handling? && s.position.batch != [] && Refusable(s.position.batch[0])
    requires Routable(s.recorder.ops, s.position.batch[0])
    ensures Counted(AfterCrash(s, w).recorder.ops, names)
  {
    var m := s.position.batch[0];
    assert Proper(Batch(s.position)[0], SetOf(names));
    HandlingCounts(s.recorder, m, w, names);
    RefusingLearns(s.recorder, m, w);
  }

  lemma WorkCounts(s: State, step: Step, names: seq<string>)
    requires GoodNames(names) && Informed(s, names) && Counted(s.recorder.ops, names) && Works(step) && Enabled(s, step)
    requires forall n :: n in names ==> Rises(Of(s.recorder.ops, n), Batch(s.position), n)
    ensures Counted(AfterWork(s, step).recorder.ops, names)
  {
    if step.HandleStep? {
      HandleCounts(s, Around(s, step.cooldown, step.healthy, step.reloaded), names);
    } else if step.CrashStep? {
      CrashCounts(s, Around(s, 0, step.healthy, None), names);
    } else if step.TickStep? {
      assert s.position.timers[0] in Timers(s.position);
      QuietHandling(s.recorder, s.position.timers[0], Around(s, step.cooldown, step.healthy, None));
    } else {
      if step.QuitStep? {
        EndingLearnsNothing(s.recorder, Around(s, 0, step.healthy, None));
      }
      assert SameSources(s.recorder.ops, AfterWork(s, step).recorder.ops);
    }
  }

  lemma StepCounts(s: State, step: Step, names: seq<string>)
    requires s.capacity >= 1 && GoodNames(names) && Informed(s, names) && Counted(s.recorder.ops, names)
      && Enabled(s, step)
    requires forall n :: n in names ==> Rises(Of(s.recorder.ops, n), Batch(s.position), n)
    ensures Counted(Next(s, step).recorder.ops, names)
  {
    if Works(step) {
      WorkCounts(s, step, names);
    } else {
      assert Next(s, step).recorder == s.recorder;
    }
  }

  // ---------------------------------------------------------------- runs

  function NamesOf(producers: seq<Producer>): (names: seq<string>)
    ensures |names| == |producers| && forall i :: 0 <= i < |names| ==> names[i] == producers[i].point
  {
    seq(|producers|, i requires 0 <= i < |producers| => producers[i].point)
  }

  lemma FreshIsInformed(start: State)
    requires Fresh(start) && start.producers != []
    ensures GoodNames(NamesOf(start.producers)) && Informed(start, NamesOf(start.producers))
    ensures SetOf(NamesOf(start.producers)) == Points(start.producers)
  {
    var names := NamesOf(start.producers);
    forall n | n in SetOf(names) ensures n in Points(start.producers) {
      var i :| 0 <= i < |names| && names[i] == n;
      assert start.producers[i] in start.producers;
    }
    forall n | n in Points(start.producers) ensures n in SetOf(names) {
      var p :| p in start.producers && p.point == n;
      var i :| 0 <= i < |start.producers| && start.producers[i] == p;
      assert names[i] == n;
    }
  }

  ghost predicate Exact(s: State, names: seq<string>) {
    && Informed(s, names) && AllDropsForeseen(s, names) && Counted(s.recorder.ops, names)
  }

  lemma BatchesRise(s: State, names: seq<string>)
    requires Informed(s, names) && AllDropsForeseen(s, names)
    ensures forall n :: n in names ==> Rises(Of(s.recorder.ops, n), Batch(s.position), n)
  {
    forall n | n in names ensures Rises(Of(s.recorder.ops, n), Batch(s.position), n) {
      var i :| 0 <= i < |names| && names[i] == n;
      assert DropsForeseen(s, s.producers[i]);
    }
  }

  lemma StepKeepsAllDrops(s: State, step: Step, t: State, names: seq<string>)
    requires s.capacity >= 1 && GoodNames(names) && Informed(s, names) && AllDropsForeseen(s, names)
    requires Enabled(s, step) && t == Next(s, step)
    ensures Informed(t, names) && AllDropsForeseen(t, names)
  {
    StepKeepsDropsForeseen(s, step, names, 0);
    forall i | 0 <= i < |t.producers| ensures DropsForeseen(t, t.producers[i]) == true {
      StepKeepsDropsForeseen(s, step, names, i);
    }
  }

  lemma StepKeepsExact(s: State, step: Step, names: seq<string>)
    requires s.capacity >= 1 && GoodNames(names) && Exact(s, names) && Enabled(s, step)
    ensures Exact(Next(s, step), names) == true
  {
    StepKeepsAllDrops(s, step, Next(s, step), names);
    BatchesRise(s, names);
    StepCounts(s, step, names);
  }

  lemma {:induction false} RunKeepsExact(s: State, steps: seq<Step>, names: seq<string>)
    requires s.capacity >= 1 && GoodNames(names) && Exact(s, names) && Runs(s, steps)
    ensures Exact(End(s, steps), names) == true
    decreases |steps|
  {
    if steps != [] {
      var n := |steps| - 1;
      RunKeepsExact(s, steps[..n], names);
      StepKeepsExact(End(s, steps[..n]), steps[n], names);
    }
  }

  /** Every step of source `i` saying "stopped" finds its thread out of the read loop. */
  predicate OrderlyRun(s: State, steps: seq<Step>, i: nat)
    requires s.capacity >= 1 && Runs(s, steps)
    decreases |steps|
  {
    steps == [] ||
    (OrderlyRun(s, steps[..|steps| - 1], i) && Orderly(End(s, steps[..|steps| - 1]), steps[|steps| - 1], i))
  }

  lemma {:induction false} RunKeepsLink(s: State, steps: seq<Step>, names: seq<string>, i: nat)
    requires s.capacity >= 1 && GoodNames(names) && Informed(s, names) && Runs(s, steps)
    requires i < |names| && LinkForeseen(s, s.producers[i]) && OrderlyRun(s, steps, i)
    ensures Informed(End(s, steps), names)
    ensures LinkForeseen(End(s, steps), End(s, steps).producers[i]) == true
    decreases |steps|
  {
    if steps != [] {
      var n := |steps| - 1;
      RunKeepsLink(s, steps[..n], names, i);
      StepKeepsLinkForeseen(End(s, steps[..n]), steps[n], names, i);
    }
  }

  // ---------------------------------------------------------------- the results

  /** Nothing waits in the lane and the last batch has been handled. */
  predicate Quiet(s: State) { Drained(s.lane) == [] && Batch(s.position) == [] }

  lemma FreshIsExact(start: State)
    requires Fresh(start) && start.producers != []
    ensures GoodNames(NamesOf(start.producers)) && Exact(start, NamesOf(start.producers))
    ensures AllLinksForeseen(start, NamesOf(start.producers))
  {
    var names := NamesOf(start.producers);
    FreshIsInformed(start);
    assert Drained(EMPTY_LANE) == [];
    NothingCounted(start.recorder.ops.lastKernel, names);
    forall i | 0 <= i < |start.producers|
      ensures DropsForeseen(start, start.producers[i]) && LinkForeseen(start, start.producers[i]) {
      assert names[i] in SetOf(names);
    }
  }

  lemma {:induction false} NothingCounted(last: map<string, nat>, names: seq<string>)
    requires SetOf(names) <= last.Keys && forall n :: n in last ==> last[n] == 0
    ensures KernelSum(last, names) == 0
  {
    if names != [] {
      assert SetOf(names[..|names| - 1]) <= SetOf(names);
      NothingCounted(last, names[..|names| - 1]);
    }
  }

  /** At every quiet moment of every run the kernel drop total is the sum of all drops the sources
      have counted, however the statistics were coalesced. */
  lemma KernelDropsExact(start: State, steps: seq<Step>)
    requires Fresh(start) && start.producers != [] && Runs(start, steps) && Quiet(End(start, steps))
    ensures End(start, steps).recorder.ops.kernelDrops == Reported(End(start, steps).producers)
  {
    var s, names := End(start, steps), NamesOf(start.producers);
    FreshIsExact(start);
    RunKeepsExact(start, steps, names);
    forall i | 0 <= i < |names|
      ensures names[i] in s.recorder.ops.lastKernel && s.recorder.ops.lastKernel[names[i]] == s.producers[i].drops {
      assert DropsForeseen(s, s.producers[i]);
    }
    KernelSumIsReported(s.recorder.ops.lastKernel, names, s.producers);
  }

  /** At every quiet moment each source whose thread had left its read loop whenever it said
      "stopped" is recorded in the state its last lifecycle message names. */
  lemma SourcesSettle(start: State, steps: seq<Step>, i: nat)
    requires Fresh(start) && i < |start.producers| && Runs(start, steps)
    requires OrderlyRun(start, steps, i) && Quiet(End(start, steps))
    ensures var s := End(start, steps);
      && i < |s.producers| && s.producers[i].point in s.recorder.ops.sources
      && s.recorder.ops.sources[s.producers[i].point].link == s.producers[i].named
  {
    FreshIsExact(start);
    RunKeepsLink(start, steps, NamesOf(start.producers), i);
  }

  /** The worker never meets a source it has no record of. */
  lemma WorkerNeverStuck(start: State, steps: seq<Step>, cooldown: int, healthy: bool, reloaded: Option<string>)
    requires Fresh(start) && start.producers != [] && Runs(start, steps)
    ensures var p := End(start, steps).position;
      p.Handling? && p.batch != [] ==> Enabled(End(start, steps), HandleStep(cooldown, healthy, reloaded))
  {
    var s, names := End(start, steps), NamesOf(start.producers);
    FreshIsExact(start);
    RunKeepsExact(start, steps, names);
    if s.position.Handling? && s.position.batch != [] {
      assert Proper(Batch(s.position)[0], SetOf(names));
    }
  }
}
