/** The times the worker hands to the episode processor: an observation's own, or the clock's reading
    when it has none; a timer's own. */
module PipelineTimes {
  import opened Basics
  import opened Control
  import opened OpsState
  import opened Worker
  import opened Pipeline
  import opened PipelineRuns
  import opened PipelineIncidents
  import opened IncidentTiming

  /** The entry of an observation with a monotonic time gives that time. */
  predicate OwnTime(work: Work) {
    work.ObserveWork? && work.observation.monotonicAt.Some? ==> work.lifecycle == work.observation.monotonicAt.value
  }

  ghost predicate OwnTimes(log: seq<Work>) { forall i :: 0 <= i < |log| ==> OwnTime(log[i]) }

  /** What handling the message `m` hands over: a tick at the timer's own time before any gap, a reload
      with what it switched to, a lifecycle message's own words, at most a kernel notice, or nothing. */
  predicate MessageGives(m: Message, reloaded: Option<string>, more: seq<Work>) {
    if m.kind.TimerTick? then
      && more != [] && more[0] == TickWork(m.at)
      && forall i :: 1 <= i < |more| ==> more[i].NoticeWork? && more[i].notice.GapNotice?
    else if m.kind.ReloadRequest? then more == [ReloadWork(reloaded)]
    else if IsLifecycle(m.kind) then
      m.point.Some? && more == [NoticeWork(SourceNotice(m.kind, m.point.value, m.generation, m.detail))]
    else if m.kind.Stats? && m.stats.Some? then
      |more| <= 1 && forall i :: 0 <= i < |more| ==> more[i].NoticeWork? && more[i].notice.KernelNotice?
    else more == []
  }

  /** What a step hands to the episode processor: the head of the queue at its own time, or at the step's
      reading of the clock when it has none; the close at the step's reading; what a message gives; and
      nothing else. */
  predicate Hands(s: State, step: Step, more: seq<Work>)
    requires Enabled(s, step)
  {
    if step.PopStep? || step.RescueStep? then
      var o := s.queue[0];
      more == [ObserveWork(o, if o.monotonicAt.Some? then o.monotonicAt.value else step.now)]
    else if step.CloseStep? then more == [CloseWork(step.now)]
    else if step.TickStep? then MessageGives(s.position.timers[0], None, more)
    else if step.CrashStep? then MessageGives(s.position.batch[0], None, more)
    else if step.HandleStep? && !s.position.batch[0].kind.TimerTick? && !StopsWorker(s.position.batch[0])
    then MessageGives(s.position.batch[0], step.reloaded, more)
    else more == []
  }

  lemma StepHands(s: State, step: Step)
    requires s.capacity >= 1 && Enabled(s, step) && Tame(s)
    ensures var more := LogMore(s.recorder.log, Next(s, step).recorder.log);
      Next(s, step).recorder.log == s.recorder.log + more && Hands(s, step, more)
  {
    var m := MessageOf(s, step);
    LogTail(s.recorder.log, []);
    NothingAfter(s.recorder.log);
    if m.Some? {
      HandledBeat(s, step, m.value);
      MessageHands(s.recorder, m.value, WorldOf(s, step));
    } else if step.CrashStep? || step.PopStep? || step.RescueStep? || step.CloseStep? {
      var work := SingleLog(s, step);
      LogTail(s.recorder.log, [work]);
      WorkHands(s, step, work);
    } else {
      SilentStep(s, step);
    }
  }

  lemma WorkHands(s: State, step: Step, work: Work)
    requires s.capacity >= 1 && Enabled(s, step) && Next(s, step).recorder.log == s.recorder.log + [work]
    requires step.CrashStep? || step.PopStep? || step.RescueStep? || step.CloseStep?
    ensures Hands(s, step, [work])
  {
    var all := s.recorder.log + [work];
    assert work == all[|all| - 1];
  }

  lemma MessageHands(r: Recorder, m: Message, w: World)
    requires Routable(r.ops, m)
    ensures var t := Handled(r, m, w);
      var more := LogMore(r.log, t.log);
      t.log == r.log + more && MessageGives(m, w.reloaded, more)
  {
    LogTail(r.log, []);
    NothingAfter(r.log);
    if m.kind.TimerTick? {
      TimerLogged(r, m, w);
      LogTail(r.log, TimerLog(r, m, w));
    } else if m.kind.ReloadRequest? {
      LogTail(r.log, [ReloadWork(w.reloaded)]);
    } else if m.kind.Stats? && m.stats.Some? {
      StatsLogged(r, m, w);
      LogTail(r.log, StatsLog(r, m));
    } else if IsLifecycle(m.kind) {
      LogTail(r.log, [NoticeWork(SourceNotice(m.kind, m.point.value, m.generation, m.detail))]);
    }
  }

  lemma {:induction false} RunOwnTimes(start: State, steps: seq<Step>)
    requires Fresh(start) && Runs(start, steps)
    ensures OwnTimes(End(start, steps).recorder.log)
    decreases |steps|
  {
    if steps != [] {
      var front, step, before := LastStep(start, steps);
      RunOwnTimes(start, front);
      RunKeepsTame(start, front);
      StepHands(before, step);
      OwnTimesMore(before, step, LogMore(before.recorder.log, Next(before, step).recorder.log));
    }
  }

  lemma OwnTimesMore(s: State, step: Step, more: seq<Work>)
    requires Enabled(s, step) && OwnTimes(s.recorder.log) && Hands(s, step, more)
    ensures OwnTimes(s.recorder.log + more)
  {
    var log := s.recorder.log + more;
    forall i | 0 <= i < |log| ensures OwnTime(log[i]) {
      if i >= |s.recorder.log| {
        assert log[i] == more[i - |s.recorder.log|];
      }
    }
  }

  /** Steps after which the worker publishes. */
  predicate Publishes(s: State, step: Step)
    requires Enabled(s, step)
  {
    || step.PopStep? || step.RescueStep? || step.QuitStep? || step.CrashStep?
    || (step.TickStep? && s.position.timers[0].kind.TimerTick?)
    || (step.HandleStep? && !s.position.batch[0].kind.TimerTick?
        && (s.position.batch[0].kind.Stats? ==> s.position.batch[0].stats.Some?))
  }

  /** Whenever the worker publishes, the journal's health as it is then is recorded; nothing else changes it. */
  lemma HealthPublished(s: State, step: Step)
    requires s.capacity >= 1 && Enabled(s, step) && TimersOnly(s)
    ensures JournalUnavailable in Next(s, step).recorder.ops.causes <==>
      if Publishes(s, step) then !step.healthy else JournalUnavailable in s.recorder.ops.causes
  {
    if step.HandleStep? {
      HandlingPublishes(s, step);
    } else if step.TickStep? {
      assert s.position.timers[0] in Timers(s.position);
      PublishedHealth(s.recorder, s.position.timers[0], Around(s, step.cooldown, step.healthy, None));
    }
  }

  lemma HandlingPublishes(s: State, step: Step)
    requires s.capacity >= 1 && step.HandleStep? && Enabled(s, step)
    ensures JournalUnavailable in Next(s, step).recorder.ops.causes <==>
      if Publishes(s, step) then !step.healthy else JournalUnavailable in s.recorder.ops.causes
  {
    if !StopsWorker(s.position.batch[0]) {
      PublishedHealth(s.recorder, s.position.batch[0], Around(s, step.cooldown, step.healthy, step.reloaded));
    }
  }

  lemma PublishedHealth(r: Recorder, m: Message, w: World)
    requires Routable(r.ops, m)
    ensures var quiet := (m.kind.Stats? && m.stats.None?) || StopsWorker(m);
      JournalUnavailable in Handled(r, m, w).ops.causes <==>
        if quiet then JournalUnavailable in r.ops.causes else !w.healthy
  {
  }

  /** Over every run, at every step: what is handed to the processor is the step's own doing, and every
      observation with a monotonic time has been processed at that time. */
  lemma HandedAtOwnTimes(start: State, steps: seq<Step>, step: Step)
    requires Fresh(start) && Runs(start, steps) && Enabled(End(start, steps), step)
    ensures var s := End(start, steps);
      var more := LogMore(s.recorder.log, Next(s, step).recorder.log);
      Next(s, step).recorder.log == s.recorder.log + more && Hands(s, step, more)
    ensures forall i :: 0 <= i < |End(start, steps).recorder.log| ==> OwnTime(End(start, steps).recorder.log[i])
  {
    RunKeepsTame(start, steps);
    StepHands(End(start, steps), step);
    RunOwnTimes(start, steps);
  }
}
