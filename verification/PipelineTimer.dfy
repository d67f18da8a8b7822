/** A timer never overtakes the observations that were queued when it was drained. */
module PipelineTimer {
  import opened Pipeline
  import opened PipelineLoss

  /** With timers waiting: enough pops are left to pass the drain's mark, and once the timers'
      turn comes the mark has been passed. */
  ghost predicate Timed(s: State) {
    match s.position
    case Handling(_, _) => s.mark <= |s.puts|
    case Observing(left, timers) => s.mark <= |s.puts| && (timers != [] ==> s.mark - |s.fates| <= left)
    case Ticking(timers) => timers != [] ==> s.mark <= |s.fates|
    case _ => true
  }

  lemma StepKeepsTimed(s: State, step: Step)
    requires Sources(s) && QueueMatches(s) && Timed(s) && Enabled(s, step)
    ensures Timed(Next(s, step)) == true
    ensures step.DrainStep? || Next(s, step).mark == s.mark
  {
    if Works(step) {
      WorkKeepsTimed(s, step);
    }
  }

  lemma WorkKeepsTimed(s: State, step: Step)
    requires QueueMatches(s) && Timed(s) && Works(step) && Enabled(s, step)
    ensures Timed(AfterWork(s, step)) == true
    ensures step.DrainStep? || AfterWork(s, step).mark == s.mark
  {
    assert |s.queue| == |s.puts| - |s.fates|;
  }

  /** Without timers a turn takes at most 64 observations. */
  predicate Batched(s: State) { s.position.Observing? && s.position.timers == [] ==> s.position.left <= 64 }

  lemma StepKeepsBatched(s: State, step: Step)
    requires s.capacity >= 1 && Batched(s) && Enabled(s, step)
    ensures Batched(Next(s, step))
    ensures step.PopStep? ==> Next(s, step).position.Observing? && Next(s, step).position.left == s.position.left - 1
  {
  }

  /** Over every run: while no timer waits the worker turns back to the control lane after at most 64
      observations, each of which it counts. */
  lemma {:induction false} BatchAtMost64(start: State, steps: seq<Step>)
    requires Fresh(start) && Runs(start, steps)
    ensures Batched(End(start, steps))
    ensures forall step :: Enabled(End(start, steps), step) && step.PopStep? ==>
      Next(End(start, steps), step).position.Observing?
      && Next(End(start, steps), step).position.left == End(start, steps).position.left - 1
    decreases |steps|
  {
    if steps != [] {
      var n := |steps| - 1;
      BatchAtMost64(start, steps[..n]);
      StepKeepsBatched(End(start, steps[..n]), steps[n]);
    }
    forall step | Enabled(End(start, steps), step) && step.PopStep?
      ensures Next(End(start, steps), step).position.Observing?
        && Next(End(start, steps), step).position.left == End(start, steps).position.left - 1 {
      StepKeepsBatched(End(start, steps), step);
    }
  }

  lemma {:induction false} RunKeepsTimed(s: State, steps: seq<Step>)
    requires Sources(s) && QueueMatches(s) && Timed(s) && Runs(s, steps)
    ensures Timed(End(s, steps)) == true
    ensures Sources(End(s, steps)) && QueueMatches(End(s, steps))
    ensures (forall step :: step in steps ==> !step.DrainStep?) ==> End(s, steps).mark == s.mark
    decreases |steps|
  {
    if steps != [] {
      var n := |steps| - 1;
      RunKeepsTimed(s, steps[..n]);
      StepKeepsTimed(End(s, steps[..n]), steps[n]);
      StepKeepsQueue(End(s, steps[..n]), steps[n]);
      StepKeepsSources(End(s, steps[..n]), steps[n]);
    }
  }

  /** Drain at any moment of any run, then let anything happen up to the point where the worker
      handles a timer it drained: every observation put before the drain has been handled or
      evicted by then. */
  lemma TimerNeverOvertakes(start: State, before: seq<Step>, between: seq<Step>, cooldown: int, healthy: bool)
    requires Fresh(start) && Runs(start, before) && Enabled(End(start, before), DrainStep)
    requires Runs(Next(End(start, before), DrainStep), between)
    requires forall step :: step in between ==> !step.DrainStep?
    requires Enabled(End(Next(End(start, before), DrainStep), between), TickStep(cooldown, healthy))
    ensures |End(start, before).puts| <= |End(Next(End(start, before), DrainStep), between).fates|
  {
    var at := End(start, before);
    RunKeeps(start, before);
    assert Timed(at);
    StepKeepsTimed(at, DrainStep);
    StepKeepsQueue(at, DrainStep);
    StepKeepsSources(at, DrainStep);
    RunKeepsTimed(Next(at, DrainStep), between);
  }
}
