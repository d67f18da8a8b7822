/** Drop incidents over whole runs: announced once, closed once, and always with their beginning. */
module PipelineIncidents {
  import opened Basics
  import opened Control
  import opened OpsState
  import opened Worker
  import opened Pipeline

  predicate Weighs(m: Message) { m.kind.ObservationDropped? ==> m.drops > 0 }

  /** Every drop report carries at least one drop. */
  ghost predicate Heavy(ms: seq<Message>) { forall m :: m in ms ==> Weighs(m) }

  ghost predicate HeavyLane(l: Lane) {
    && (l.force.Some? ==> Weighs(l.force.value)) && (l.shutdown.Some? ==> Weighs(l.shutdown.value))
    && (l.reload.Some? ==> Weighs(l.reload.value)) && (l.timer.Some? ==> Weighs(l.timer.value))
    && Heavy(l.stats) && Heavy(l.dropped) && Heavy(l.lifecycle) && Heavy(l.items)
  }

  ghost predicate Tame(s: State) {
    HeavyLane(s.lane) && Heavy(Batch(s.position)) && TimersOnly(s) && Tracked(s.recorder)
  }

  lemma StoreHeavy(entries: seq<Message>, m: Message)
    requires Heavy(entries) && Weighs(m)
    ensures Heavy(Store(entries, m))
  {
  }

  lemma SnocHeavy(ms: seq<Message>, m: Message)
    requires Heavy(ms) && Weighs(m)
    ensures Heavy(ms + [m])
  {
  }

  lemma QueuesHeavy(l: Lane, stats: seq<Message>, dropped: seq<Message>, lifecycle: seq<Message>, items: seq<Message>)
    requires HeavyLane(l) && Heavy(stats) && Heavy(dropped) && Heavy(lifecycle) && Heavy(items)
    ensures HeavyLane(l.(stats := stats, dropped := dropped, lifecycle := lifecycle, items := items))
  {
  }

  lemma PlacedHeavy(l: Lane, m: Message)
    requires HeavyLane(l) && Weighs(m)
    ensures HeavyLane(Placed(l, m)) == true
  {
    if m.kind.Stats? && Named(m) {
      StoreHeavy(l.stats, m);
      QueuesHeavy(l, Store(l.stats, m), l.dropped, l.lifecycle, l.items);
    } else if m.kind.ObservationDropped? && Named(m) {
      StoreHeavy(l.dropped, Summed(l.dropped, m));
      QueuesHeavy(l, l.stats, Store(l.dropped, Summed(l.dropped, m)), l.lifecycle, l.items);
    } else if Named(m) && IsLifecycle(m.kind) {
      SnocHeavy(l.lifecycle, m);
      QueuesHeavy(l, l.stats, l.dropped, l.lifecycle + [m], l.items);
    } else {
      SnocHeavy(l.items, m);
      QueuesHeavy(l, l.stats, l.dropped, l.lifecycle, l.items + [m]);
    }
  }

  lemma DrainedHeavy(l: Lane)
    requires HeavyLane(l)
    ensures Heavy(Drained(l))
  {
    forall m | m in Drained(l) ensures Weighs(m) {
      if m in l.dropped {
      } else if m in l.lifecycle {
      } else if m in l.items {
      }
    }
  }

  lemma WorkKeepsTame(s: State, step: Step, t: State)
    requires Tame(s) && Works(step) && Enabled(s, step) && t == AfterWork(s, step)
    ensures HeavyLane(t.lane) && Heavy(Batch(t.position)) && Tracked(t.recorder)
  {
    if step.DrainStep? {
      DrainedHeavy(s.lane);
    } else if step.HandleStep? {
      assert s.position.batch[0] in Batch(s.position);
      assert forall m :: m in s.position.batch[1..] ==> m in Batch(s.position);
      TakingKeepsTracked(s.recorder, s.position.batch[0], Around(s, step.cooldown, step.healthy, step.reloaded));
    } else if step.CrashStep? {
      StrikingKeepsTracked(s.recorder, s.position.batch[0], Around(s, 0, step.healthy, None));
      assert forall m :: m in s.position.batch[1..] ==> m in Batch(s.position);
    } else if step.TickStep? {
      assert s.position.timers[0] in Timers(s.position);
      HandlingKeepsTracked(s.recorder, s.position.timers[0], Around(s, step.cooldown, step.healthy, None));
    } else if step.PopStep? || step.RescueStep? {
      WatchingKeepsTracked(s.recorder, s.queue[0], step.now, Around(s, 0, step.healthy, None));
    } else if step.QuitStep? {
      EndingKeepsTracked(s.recorder, Around(s, 0, step.healthy, None));
    } else if step.CloseStep? {
      ApartKeepsTracked(s.recorder, Logged(s.recorder, CloseWork(step.now)));
    }
  }

  lemma StepKeepsTame(s: State, step: Step)
    requires s.capacity >= 1 && Tame(s) && Enabled(s, step)
    ensures Tame(Next(s, step))
  {
    StepKeepsTimersOnly(s, step);
    if Works(step) {
      WorkKeepsTame(s, step, Next(s, step));
    } else if Speaks(step) {
      PlacedHeavy(s.lane, Words(s.producers[step.i], step));
    } else if step.RequestStep? {
      PlacedHeavy(s.lane, Plain(step.kind, step.at));
    }
  }

  lemma {:induction false} RunKeepsTame(s: State, steps: seq<Step>)
    requires s.capacity >= 1 && Tame(s) && Runs(s, steps)
    ensures Tame(End(s, steps))
    decreases |steps|
  {
    if steps != [] {
      RunKeepsTame(s, steps[..|steps| - 1]);
      StepKeepsTame(End(s, steps[..|steps| - 1]), steps[|steps| - 1]);
    }
  }

  /** Over any run: a kernel incident is announced once and closed at most once, every coverage gap
      names its beginning, and a drop reason stands exactly while its incident is open. */
  lemma IncidentsOverRuns(start: State, steps: seq<Step>)
    requires Fresh(start) && Runs(start, steps)
    ensures var r := End(start, steps).recorder;
      && Incidents(r.log)
      && (KernelOpen(r.log) <==> KernelDrops in r.ops.causes)
      && (KernelDrops in r.ops.causes <==> r.kernelStart.Some?)
      && (AppQueueDrops in r.ops.causes <==> r.appStart.Some?)
  {
    RunKeepsTame(start, steps);
  }
}
