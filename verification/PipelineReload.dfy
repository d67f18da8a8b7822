/** Reloads in the live pipeline: the policy the worker publishes is the one the processor runs, and a
    reload that cannot even be reported ends the worker. */
module PipelineReload {
  import opened Basics
  import M = Models
  import E = Evidence
  import opened Control
  import opened OpsState
  import opened Worker
  import opened Pipeline
  import opened PipelineRuns
  import opened PipelineEvidence
  import Processing
  import R = Runs

  // ---------------------------------------------------------------- the published policy

  /** The revision the last effective reload in the log switched to, or the one before the log. */
  function PolicyOf(first: Option<string>, log: seq<Work>): Option<string> {
    if log == [] then first else
      var last := log[|log| - 1];
      if last.ReloadWork? && last.reloaded.Some? then last.reloaded else PolicyOf(first, log[..|log| - 1])
  }

  predicate Agrees(first: Option<string>, r: Recorder) { r.ops.policy == PolicyOf(first, r.log) }

  predicate Effective(work: Work) { work.ReloadWork? && work.reloaded.Some? }

  /** The policy stayed, and nothing that was logged meanwhile changes it. */
  predicate SamePolicy(r: Recorder, s: Recorder) {
    && s.ops.policy == r.ops.policy && |r.log| <= |s.log| && s.log[..|r.log|] == r.log
    && forall i :: |r.log| <= i < |s.log| ==> !Effective(s.log[i])
  }

  lemma {:induction false} IneffectiveRest(first: Option<string>, log: seq<Work>, n: nat)
    requires n <= |log| && forall i :: n <= i < |log| ==> !Effective(log[i])
    ensures PolicyOf(first, log) == PolicyOf(first, log[..n])
  {
    if n < |log| {
      var front := log[..|log| - 1];
      IneffectiveRest(first, front, n);
      assert front[..n] == log[..n];
    } else {
      assert log[..n] == log;
    }
  }

  lemma SamePolicyAgrees(first: Option<string>, r: Recorder, s: Recorder)
    requires Agrees(first, r) && SamePolicy(r, s)
    ensures Agrees(first, s)
  {
    IneffectiveRest(first, s.log, |r.log|);
  }

  lemma SamePolicyTwice(r: Recorder, s: Recorder, t: Recorder)
    requires SamePolicy(r, s) && SamePolicy(s, t)
    ensures SamePolicy(r, t)
  {
    assert t.log[..|r.log|] == s.log[..|r.log|];
  }

  lemma LoggedSamePolicy(r: Recorder, work: Work)
    requires !Effective(work)
    ensures SamePolicy(r, Logged(r, work))
  {
  }

  lemma PublishedSamePolicy(r: Recorder, w: World)
    ensures SamePolicy(r, Published(r, w))
  {
  }

  lemma ClearingSamePolicy(r: Recorder, now: int, w: World)
    ensures SamePolicy(r, Worker.Recovered(r, now, w))
  {
    var a := AppCleared(r, now, w);
    assert SamePolicy(r, a);
    assert SamePolicy(a, KernelCleared(a, r.ops.causes, now, w));
    SamePolicyTwice(r, a, Worker.Recovered(r, now, w));
  }

  /** What handling does before it publishes, reloads apart. */
  function Unpublished(r: Recorder, m: Message, w: World): Recorder
    requires Routable(r.ops, m) && !m.kind.ReloadRequest?
  {
    if m.kind.TimerTick? then HandledTimer(r, m, w)
    else if m.kind.ObservationDropped? then HandledDrops(r, m)
    else if m.kind.Stats? && m.stats.Some? then HandledStats(r, m)
    else if IsLifecycle(m.kind) then HandledLifecycle(r, m)
    else r
  }

  lemma UnpublishedSamePolicy(r: Recorder, m: Message, w: World)
    requires Routable(r.ops, m) && !m.kind.ReloadRequest?
    ensures SamePolicy(r, Unpublished(r, m, w))
  {
    if m.kind.TimerTick? {
      LoggedSamePolicy(r, TickWork(m.at));
      ClearingSamePolicy(Logged(r, TickWork(m.at)), m.at, w);
      SamePolicyTwice(r, Logged(r, TickWork(m.at)), Unpublished(r, m, w));
    }
  }

  lemma HandlingAgrees(first: Option<string>, r: Recorder, m: Message, w: World)
    requires Agrees(first, r) && Routable(r.ops, m)
    ensures Agrees(first, Handled(r, m, w))
  {
    if m.kind.ReloadRequest? {
      var next := HandledReload(r, m, w);
      assert next.log[..|next.log| - 1] == r.log;
      SamePolicyAgrees(first, next, Published(next, w));
    } else {
      var next := Unpublished(r, m, w);
      UnpublishedSamePolicy(r, m, w);
      SamePolicyAgrees(first, r, next);
      SamePolicyAgrees(first, next, Published(next, w));
    }
  }

  lemma TakingAgrees(first: Option<string>, r: Recorder, m: Message, w: World)
    requires Agrees(first, r) && Routable(r.ops, m)
    ensures Agrees(first, Taken(r, m, w))
  {
    if StopsWorker(m) {
      SamePolicyAgrees(first, r, Ending(r, w));
    } else {
      HandlingAgrees(first, r, m, w);
    }
  }

  lemma RefusedSamePolicy(r: Recorder, m: Message, w: World)
    requires Refusable(m) && Routable(r.ops, m)
    ensures SamePolicy(r, Refused(r, m)) == true
  {
    if m.kind.ReloadRequest? {
      LoggedSamePolicy(r, ReloadWork(None));
    } else {
      UnpublishedSamePolicy(r, m, w);
    }
  }

  lemma StrickenSamePolicy(r: Recorder, w: World)
    ensures SamePolicy(r, Stricken(r, w)) == true
  {
    PublishedSamePolicy(r.(ops := Raised(r.ops, WorkerDead)), w);
  }

  lemma CrashAgrees(first: Option<string>, r: Recorder, m: Message, w: World)
    requires Agrees(first, r) && Refusable(m) && Routable(r.ops, m)
    ensures Agrees(first, Stricken(Refused(r, m), w)) == true
  {
    RefusedSamePolicy(r, m, w);
    SamePolicyAgrees(first, r, Refused(r, m));
    StrickenSamePolicy(Refused(r, m), w);
    SamePolicyAgrees(first, Refused(r, m), Stricken(Refused(r, m), w));
  }

  lemma WatchingAgrees(first: Option<string>, r: Recorder, o: M.Observation, now: int, w: World)
    requires Agrees(first, r)
    ensures Agrees(first, Watched(r, o, now, w))
  {
    SamePolicyAgrees(first, r, Watched(r, o, now, w));
  }

  lemma WorkAgrees(s: State, step: Step, t: State, first: Option<string>)
    requires Agrees(first, s.recorder) && Works(step) && Enabled(s, step) && t == AfterWork(s, step)
    ensures Agrees(first, t.recorder)
  {
    if step.HandleStep? {
      TakingAgrees(first, s.recorder, s.position.batch[0], Around(s, step.cooldown, step.healthy, step.reloaded));
    } else if step.CrashStep? {
      CrashAgrees(first, s.recorder, s.position.batch[0], Around(s, 0, step.healthy, None));
    } else if step.TickStep? {
      HandlingAgrees(first, s.recorder, s.position.timers[0], Around(s, step.cooldown, step.healthy, None));
    } else if step.PopStep? || step.RescueStep? {
      WatchingAgrees(first, s.recorder, s.queue[0], step.now, Around(s, 0, step.healthy, None));
    } else {
      SamePolicyAgrees(first, s.recorder, t.recorder);
    }
  }

  lemma {:induction false} RunAgrees(start: State, steps: seq<Step>)
    requires Fresh(start) && Runs(start, steps)
    ensures Agrees(start.recorder.ops.policy, End(start, steps).recorder)
    decreases |steps|
  {
    if steps != [] {
      var front, step, before := LastStep(start, steps);
      RunAgrees(start, front);
      if Works(step) {
        WorkAgrees(before, step, Next(before, step), start.recorder.ops.policy);
      }
    }
  }

  /** The processor's revision changes exactly with the effective reloads of the log. */
  lemma {:induction false} RevisionLogged(log: seq<Work>, config: M.Config, ops: seq<Processing.Op>)
    requires Serving(log, config, ops)
    ensures PolicyOf(Some(config.revision), log) == Some(R.After(config, ops).config.revision)
  {
    if log != [] {
      var n := |log| - 1;
      ServingFront(log, config, ops);
      RevisionLogged(log[..n], config, ops[..n]);
      assert R.After(config, ops).config == Processing.StepConfig(R.After(config, ops[..n]), ops[n]);
    }
  }

  /** At every moment of every run that starts with the processor's policy recorded, the worker's record
      names the revision the processor runs under, reloads that were refused or changed nothing included. */
  lemma PolicyRecorded(start: State, steps: seq<Step>, config: M.Config, ops: seq<Processing.Op>)
    requires Fresh(start) && Runs(start, steps) && Asks(End(start, steps), config, ops)
    requires start.recorder.ops.policy == Some(config.revision)
    ensures End(start, steps).recorder.ops.policy == Some(R.After(config, ops).config.revision)
  {
    RunAgrees(start, steps);
    RevisionLogged(End(start, steps).recorder.log, config, ops);
  }

  // ---------------------------------------------------------------- a reload that cannot be reported

  function FatalSteps(at: int): seq<Step> { [RequestStep(Kind.ReloadRequest, at), DrainStep, CrashStep(true)] }

  lemma ReloadAlone(s: State, at: int) returns (a: State, t: State)
    requires Fresh(s)
    ensures Enabled(s, RequestStep(Kind.ReloadRequest, at)) && a == Next(s, RequestStep(Kind.ReloadRequest, at))
    ensures a.capacity >= 1 && Enabled(a, DrainStep) && t == Next(a, DrainStep)
    ensures t == s.(position := Handling([Plain(Kind.ReloadRequest, at)], []))
  {
    var m := Plain(Kind.ReloadRequest, at);
    a := s.(lane := EMPTY_LANE.(reload := Some(m)));
    t := AfterDrain(a);
    assert Drained(a.lane) == [m];
  }

  lemma FatalRun(s: State, at: int, end: State)
    requires Fresh(s)
    requires end == s.(position := Dead([]),
      recorder := Stricken(Logged(s.recorder, ReloadWork(None)), Around(s, 0, true, None)))
    ensures Runs(s, FatalSteps(at)) && End(s, FatalSteps(at)) == end
  {
    var a, t := ReloadAlone(s, at);
    CrashIsNext(t, end);
    ThreeSteps(s, RequestStep(Kind.ReloadRequest, at), a, DrainStep, t, CrashStep(true), end);
  }

  lemma CrashIsNext(t: State, end: State)
    requires t.capacity >= 1 && t.position.Handling? && t.position.batch != []
      && t.position.batch[0].kind.ReloadRequest?
    requires end == t.(position := Dead(t.position.batch[1..]),
                       recorder := Stricken(Logged(t.recorder, ReloadWork(None)), Around(t, 0, true, None)))
    ensures Enabled(t, CrashStep(true)) && end == Next(t, CrashStep(true))
  {
  }

  lemma FatalCall(s: State, config: M.Config, detail: string, frame: nat, at: int)
    requires s.position.Dead? && s.recorder.log == [ReloadWork(None)]
    requires R.ValidRun(config, []) && |detail| >= 262144
    ensures Asks(s, config, [Processing.ReloadFailedOp(detail, frame, at)])
    ensures R.After(config, [Processing.ReloadFailedOp(detail, frame, at)]).nextSequence == 2
    ensures R.Trace(config, [Processing.ReloadFailedOp(detail, frame, at)]) == []
  {
    var op := Processing.ReloadFailedOp(detail, frame, at);
    E.LoadErrorFitsExactly(detail, frame);
    assert [op][..0] == [];
  }

  /** From every start, a reload whose error is too large for an evidence line ends the worker at
      once: the event took number 1 and was never written, and no envelope follows. */
  lemma FatalReload(s: State, config: M.Config, detail: string, frame: nat, at: int)
    requires Fresh(s) && R.ValidRun(config, []) && |detail| >= 262144
    ensures Runs(s, FatalSteps(at)) && End(s, FatalSteps(at)).position == Dead([])
    ensures WorkerDead in End(s, FatalSteps(at)).recorder.ops.causes
    ensures Asks(End(s, FatalSteps(at)), config, [Processing.ReloadFailedOp(detail, frame, at)])
    ensures R.After(config, [Processing.ReloadFailedOp(detail, frame, at)]).nextSequence == 2
    ensures R.Trace(config, [Processing.ReloadFailedOp(detail, frame, at)]) == []
  {
    var r := Stricken(Logged(s.recorder, ReloadWork(None)), Around(s, 0, true, None));
    var end := s.(position := Dead([]), recorder := r);
    FatalRun(s, at, end);
    FatalCall(end, config, detail, frame, at);
  }
}
