/** At a quiet moment (lane empty, last batch handled) the worker's record of the sources is exact. */
module PipelineQuiet {
  import opened Basics
  import opened Control
  import opened OpsState
  import opened Worker
  import opened Pipeline
  import opened PipelineSources
  import opened PipelineSettles

  ghost predicate ProperAll(ms: seq<Message>, points: set<string>) {
    forall j :: 0 <= j < |ms| ==> Proper(ms[j], points)
  }

  /** At least one capture point, with distinct, non-empty names. */
  ghost predicate GoodNames(names: seq<string>) { names != [] && Distinct(names) && "" !in names }

  function SetOf(names: seq<string>): set<string> { set n | n in names }

  ghost predicate CalledBy(producers: seq<Producer>, names: seq<string>) {
    |producers| == |names| && forall i :: 0 <= i < |names| ==> producers[i].point == names[i]
  }

  /** Every message anywhere is about a configured point the worker keeps a record of. */
  ghost predicate Informed(s: State, names: seq<string>) {
    var points := SetOf(names);
    && Knows(s.recorder.ops, points) && Tidy(s.lane, points) && TimersOnly(s)
    && ProperAll(Batch(s.position), points)
    && CalledBy(s.producers, names)
  }

  /** What will be known of a point once everything that waits has been handled. */
  function Future(o: Ops, batch: seq<Message>, l: Lane, point: string): Known
    requires point in o.sources && point in o.lastKernel
  {
    Later(LearnAll(Of(o, point), batch, point), l, point)
  }

  predicate Ascends(o: Ops, batch: seq<Message>, l: Lane, point: string)
    requires point in o.sources && point in o.lastKernel
  {
    Rises(Of(o, point), batch, point) && Rises(LearnAll(Of(o, point), batch, point), Drained(l), point)
  }

  ghost predicate DropsForeseen(s: State, p: Producer)
    requires p.point in s.recorder.ops.sources && p.point in s.recorder.ops.lastKernel
  {
    && Future(s.recorder.ops, Batch(s.position), s.lane, p.point).drops == p.drops
    && Ascends(s.recorder.ops, Batch(s.position), s.lane, p.point)
  }

  ghost predicate LinkForeseen(s: State, p: Producer)
    requires p.point in s.recorder.ops.sources && p.point in s.recorder.ops.lastKernel
  {
    && Future(s.recorder.ops, Batch(s.position), s.lane, p.point).link == p.named
    && (p.phase.Reading? ==> p.named.Up?)
  }

  ghost predicate AllDropsForeseen(s: State, names: seq<string>)
    requires Informed(s, names)
  {
    forall i :: 0 <= i < |s.producers| ==> DropsForeseen(s, s.producers[i])
  }

  ghost predicate AllLinksForeseen(s: State, names: seq<string>)
    requires Informed(s, names)
  {
    forall i :: 0 <= i < |s.producers| ==> LinkForeseen(s, s.producers[i])
  }

  // ---------------------------------------------------------------- the worker's steps

  /** The future as the worker sees it, for one point. */
  predicate SameFuture(s: State, t: State, point: string)
    requires point in s.recorder.ops.sources && point in s.recorder.ops.lastKernel
    requires point in t.recorder.ops.sources && point in t.recorder.ops.lastKernel
  {
    && Future(t.recorder.ops, Batch(t.position), t.lane, point)
      == Future(s.recorder.ops, Batch(s.position), s.lane, point)
    && (Ascends(s.recorder.ops, Batch(s.position), s.lane, point)
      ==> Ascends(t.recorder.ops, Batch(t.position), t.lane, point))
  }

  ghost predicate KeepsFuture(s: State, t: State, names: seq<string>, point: string)
    requires Informed(s, names) && point in names
  {
    Informed(t, names) && SameFuture(s, t, point)
  }

  /** Handling the first message moves what it teaches from the future into the record. */
  lemma HeadLearned(k: Known, ms: seq<Message>, point: string)
    requires ms != []
    ensures LearnAll(Learn(k, ms[0], point), ms[1..], point) == LearnAll(k, ms, point)
    ensures Rises(k, ms, point) ==> Rises(Learn(k, ms[0], point), ms[1..], point)
  {
    assert ms == [ms[0]] + ms[1..];
    LearnAppend(k, [ms[0]], ms[1..], point);
    OneTeaches(k, ms[0], point);
  }

  lemma HandleKeepsFuture(s: State, w: World, t: State, names: seq<string>, point: string)
    requires Informed(s, names) && point in names
    requires s.position.Handling? && s.position.batch != [] && Routable(s.recorder.ops, s.position.batch[0])
    requires t == AfterHandle(s, w)
    ensures KeepsFuture(s, t, names, point)
  {
    var m := s.position.batch[0];
    assert Proper(Batch(s.position)[0], SetOf(names));
    TakingLearns(s.recorder, m, w, SetOf(names), point);
    HandledFuture(s, Taken(s.recorder, m, w), t, names, point);
  }

  lemma HandledFuture(s: State, r: Recorder, t: State, names: seq<string>, point: string)
    requires Informed(s, names) && point in names && Batch(s.position) != []
    requires Knows(r.ops, SetOf(names))
      && Of(r.ops, point) == Learn(Of(s.recorder.ops, point), Batch(s.position)[0], point)
    requires t.lane == s.lane && t.producers == s.producers && Batch(t.position) == Batch(s.position)[1..]
      && TimersOnly(t)
    requires t.recorder == r || (t.recorder == s.recorder && Silent(Batch(s.position)[0]))
    ensures KeepsFuture(s, t, names, point)
  {
    HeadLearned(Of(s.recorder.ops, point), Batch(s.position), point);
  }

  lemma CrashKeepsFuture(s: State, w: World, t: State, names: seq<string>, point: string)
    requires Informed(s, names) && point in names
    requires s.position.Handling? && s.position.batch != [] && Refusable(s.position.batch[0])
    requires Routable(s.recorder.ops, s.position.batch[0]) && t == AfterCrash(s, w)
    ensures KeepsFuture(s, t, names, point)
  {
    var m := s.position.batch[0];
    assert Proper(Batch(s.position)[0], SetOf(names));
    HandlingLearns(s.recorder, m, w, SetOf(names), point);
    RefusingLearns(s.recorder, m, w);
    HandledFuture(s, Stricken(Refused(s.recorder, m), w), t, names, point);
  }

  lemma DrainKeepsFuture(s: State, t: State, names: seq<string>, point: string)
    requires Informed(s, names) && point in names && s.position.Idle? && t == AfterDrain(s)
    ensures KeepsFuture(s, t, names, point)
  {
    var k := Of(s.recorder.ops, point);
    DrainedProper(s.lane, SetOf(names));
    EmptyLaneTeachesNothing(LearnAll(k, Drained(s.lane), point), point);
    assert Batch(s.position) == [] && LearnAll(k, [], point) == k;
    assert Of(t.recorder.ops, point) == k && Batch(t.position) == Drained(s.lane);
  }

  lemma EmptyLaneTeachesNothing(k: Known, point: string)
    ensures Later(k, EMPTY_LANE, point) == k && Rises(k, Drained(EMPTY_LANE), point)
  {
    assert Drained(EMPTY_LANE) == [];
  }

  lemma DrainedProper(l: Lane, points: set<string>)
    requires Tidy(l, points)
    ensures ProperAll(Drained(l), points)
  {
    forall m | m in Drained(l) ensures Proper(m, points) {
      if m in l.stats {
      } else if m in l.lifecycle {
      }
    }
  }

  /** A step that leaves messages and source records alone. */
  lemma MoveKeepsFuture(s: State, t: State, names: seq<string>, point: string)
    requires Informed(s, names) && point in names
    requires SameSources(s.recorder.ops, t.recorder.ops) && Batch(t.position) == Batch(s.position)
    requires t.lane == s.lane && CalledBy(t.producers, names) && TimersOnly(t)
    ensures KeepsFuture(s, t, names, point)
  {
  }

  lemma WorkKeepsFuture(s: State, step: Step, t: State, names: seq<string>, point: string)
    requires Informed(s, names) && point in names && Works(step) && Enabled(s, step) && t == AfterWork(s, step)
    ensures KeepsFuture(s, t, names, point)
  {
    if Turns(step) {
      TurnKeepsFuture(s, step, t, names, point);
    } else if step.DrainStep? {
      DrainKeepsFuture(s, t, names, point);
    } else if step.HandleStep? {
      HandleKeepsFuture(s, Around(s, step.cooldown, step.healthy, step.reloaded), t, names, point);
    } else if step.CrashStep? {
      CrashKeepsFuture(s, Around(s, 0, step.healthy, None), t, names, point);
    } else if step.TickStep? {
      TickKeepsFuture(s, Around(s, step.cooldown, step.healthy, None), t, names, point);
    } else {
      PopKeepsFuture(s, step.now, Around(s, 0, step.healthy, None), t, names, point);
    }
  }

  /** The worker's steps that only change its position. */
  predicate Turns(step: Step) {
    step.LimitStep? || step.TurnStep? || step.FinishStep? || step.QuitStep? || step.CloseStep?
  }

  lemma TurnKeepsFuture(s: State, step: Step, t: State, names: seq<string>, point: string)
    requires Informed(s, names) && point in names && Turns(step) && Enabled(s, step) && t == AfterWork(s, step)
    ensures KeepsFuture(s, t, names, point)
  {
    assert Batch(t.position) == Batch(s.position);
    if step.QuitStep? {
      EndingLearnsNothing(s.recorder, Around(s, 0, step.healthy, None));
    }
    assert SameSources(s.recorder.ops, t.recorder.ops);
    assert forall m :: m in Timers(t.position) ==> m in Timers(s.position);
    MoveKeepsFuture(s, t, names, point);
  }

  lemma TickKeepsFuture(s: State, w: World, t: State, names: seq<string>, point: string)
    requires Informed(s, names) && point in names
    requires s.position.Ticking? && s.position.timers != [] && Routable(s.recorder.ops, s.position.timers[0])
    requires t == AfterTick(s, w)
    ensures KeepsFuture(s, t, names, point)
  {
    assert s.position.timers[0] in Timers(s.position);
    QuietHandling(s.recorder, s.position.timers[0], w);
    assert forall m :: m in Timers(t.position) ==> m in Timers(s.position);
    MoveKeepsFuture(s, t, names, point);
  }

  lemma PopKeepsFuture(s: State, now: int, w: World, t: State, names: seq<string>, point: string)
    requires Informed(s, names) && point in names && s.queue != []
    requires Batch(t.position) == Batch(s.position) && Timers(t.position) == Timers(s.position)
    requires t == AfterPop(s, now, w, t.position)
    ensures KeepsFuture(s, t, names, point)
  {
    PublishingLearnsNothing(Logged(s.recorder, ObserveWork(s.queue[0], Or(s.queue[0].monotonicAt, now))), w);
    MoveKeepsFuture(s, t, names, point);
  }

  // ---------------------------------------------------------------- the sources' steps

  lemma SayIsProper(s: State, step: Step, names: seq<string>)
    requires GoodNames(names) && Informed(s, names) && Speaks(step) && Enabled(s, step)
    ensures Proper(Words(s.producers[step.i], step), SetOf(names))
    ensures Informed(AfterSay(s, step), names)
  {
    var p := s.producers[step.i];
    assert p.point == names[step.i];
    PlacedTidy(s.lane, Words(p, step), SetOf(names));
  }

  /** A message about another point changes nothing for this one. */
  lemma SayKeepsOthers(s: State, step: Step, t: State, names: seq<string>, point: string)
    requires GoodNames(names) && Informed(s, names) && point in names && Speaks(step) && Enabled(s, step)
    requires s.producers[step.i].point != point || step.ReportStep?
    requires t == AfterSay(s, step)
    ensures KeepsFuture(s, t, names, point)
  {
    SayIsProper(s, step, names);
    PlacedOther(LearnAll(Of(s.recorder.ops, point), Batch(s.position), point), s.lane,
                Words(s.producers[step.i], step), SetOf(names), point);
  }

  /** A source's own message, seen from what is known after the batch `k`. */
  lemma OwnMessage(k: Known, l: Lane, m: Message, points: set<string>, p: Producer, step: Step)
    requires Tidy(l, points) && Proper(m, points) && Speaks(step) && !step.ReportStep? && m == Words(p, step)
    requires Later(k, l, p.point).drops == p.drops && Rises(k, Drained(l), p.point)
    ensures Later(k, Placed(l, m), p.point).drops == Moved(p, step).drops
    ensures Rises(k, Drained(Placed(l, m)), p.point)
  {
    if step.StatsStep? {
      PlacedStats(k, l, m, points, p.point);
      RisingOnlyAdds(k, Drained(l), p.point);
    } else {
      PlacedLifecycle(k, l, m, points, p.point);
    }
  }

  lemma OwnLink(k: Known, l: Lane, m: Message, points: set<string>, p: Producer, step: Step)
    requires Tidy(l, points) && Proper(m, points) && Speaks(step) && !step.ReportStep? && m == Words(p, step)
    requires Later(k, l, p.point).link == p.named && (step.StatsStep? ==> p.named.Up?)
    ensures Later(k, Placed(l, m), p.point).link == Moved(p, step).named
  {
    if step.StatsStep? {
      PlacedStats(k, l, m, points, p.point);
    } else {
      PlacedLifecycle(k, l, m, points, p.point);
    }
  }

  /** The parts of the state after a source spoke. */
  lemma SayParts(s: State, step: Step, t: State)
    requires Speaks(step) && step.i < |s.producers| && t == AfterSay(s, step)
    ensures t.recorder == s.recorder && t.position == s.position
      && t.lane == Placed(s.lane, Words(s.producers[step.i], step))
    ensures |t.producers| == |s.producers| && t.producers[step.i] == Moved(s.producers[step.i], step)
    ensures t.producers[step.i].point == s.producers[step.i].point
  {
  }

  lemma SayKeepsOwnDrops(s: State, step: Step, t: State, names: seq<string>)
    requires GoodNames(names) && Informed(s, names) && Speaks(step) && Enabled(s, step) && t == AfterSay(s, step)
    requires s.producers[step.i].point in names && DropsForeseen(s, s.producers[step.i])
    ensures Informed(t, names) && DropsForeseen(t, t.producers[step.i])
  {
    var p := s.producers[step.i];
    SayIsProper(s, step, names);
    SayParts(s, step, t);
    if step.ReportStep? {
      SayKeepsOthers(s, step, t, names, p.point);
      ForeseenCarriesOver(s, t, names, p, t.producers[step.i]);
    } else {
      OwnMessage(LearnAll(Of(s.recorder.ops, p.point), Batch(s.position), p.point), s.lane, Words(p, step),
        SetOf(names), p, step);
    }
  }

  lemma MovedReads(p: Producer, step: Step)
    requires Speaks(step) && (p.phase.Reading? ==> p.named.Up?) && (step.SayStoppedStep? ==> !p.phase.Reading?)
    ensures Moved(p, step).phase.Reading? ==> Moved(p, step).named.Up?
  {
  }

  /** The link half of the invariant, from its parts. */
  lemma LinkFrom(s: State, q: Producer, l: Lane)
    requires q.point in s.recorder.ops.sources && q.point in s.recorder.ops.lastKernel && s.lane == l
    requires Later(LearnAll(Of(s.recorder.ops, q.point), Batch(s.position), q.point), l, q.point).link == q.named
    requires q.phase.Reading? ==> q.named.Up?
    ensures LinkForeseen(s, q)
  {
  }

  lemma SayKeepsOwnLink(s: State, step: Step, t: State, names: seq<string>)
    requires GoodNames(names) && Informed(s, names) && Speaks(step) && Enabled(s, step) && t == AfterSay(s, step)
    requires s.producers[step.i].point in names && LinkForeseen(s, s.producers[step.i]) && Orderly(s, step, step.i)
    ensures Informed(t, names) && LinkForeseen(t, t.producers[step.i])
  {
    var p := s.producers[step.i];
    SayIsProper(s, step, names);
    SayParts(s, step, t);
    if step.ReportStep? {
      SayKeepsOthers(s, step, t, names, p.point);
      ForeseenCarriesOver(s, t, names, p, t.producers[step.i]);
    } else {
      assert Later(LearnAll(Of(s.recorder.ops, p.point), Batch(s.position), p.point), s.lane, p.point).link == p.named;
      OwnLink(LearnAll(Of(s.recorder.ops, p.point), Batch(s.position), p.point), s.lane, Words(p, step), SetOf(names),
        p, step);
      MovedReads(p, step);
      LinkFrom(t, t.producers[step.i], Placed(s.lane, Words(p, step)));
    }
  }

  /** `stop` says "stopped" after waiting five seconds for the capture thread; for source `i` the step
      is orderly if its thread is not still in its read loop by then. */
  predicate Orderly(s: State, step: Step, i: nat)
    requires Enabled(s, step)
  {
    step.SayStoppedStep? && step.i == i ==> !s.producers[i].phase.Reading?
  }

  lemma RestKeepsFuture(s: State, step: Step, t: State, names: seq<string>, point: string)
    requires s.capacity >= 1 && Informed(s, names) && point in names && !Works(step) && !Speaks(step)
      && Enabled(s, step)
    requires t == AfterRest(s, step)
    ensures KeepsFuture(s, t, names, point)
  {
    if step.RequestStep? {
      var m := Plain(step.kind, step.at);
      PlacedTidy(s.lane, m, SetOf(names));
      PlacedOther(LearnAll(Of(s.recorder.ops, point), Batch(s.position), point), s.lane, m, SetOf(names), point);
    } else {
      MoveKeepsFuture(s, t, names, point);
    }
  }

  /** Any step that is not a source speaking about itself keeps its future. */
  lemma StepKeepsFuture(s: State, step: Step, t: State, names: seq<string>, i: nat)
    requires s.capacity >= 1 && GoodNames(names) && Informed(s, names) && i < |names| && Enabled(s, step)
    requires t == Next(s, step) && !(Speaks(step) && step.i == i)
    ensures KeepsFuture(s, t, names, names[i])
  {
    if Works(step) {
      WorkKeepsFuture(s, step, t, names, names[i]);
    } else if Speaks(step) {
      assert s.producers[step.i].point == names[step.i] != names[i];
      SayKeepsOthers(s, step, t, names, names[i]);
    } else {
      RestKeepsFuture(s, step, t, names, names[i]);
    }
  }

  /** What a step does to a source it does not speak for. */
  lemma StepKeepsProducer(s: State, step: Step, i: nat)
    requires s.capacity >= 1 && Enabled(s, step) && i < |s.producers| && !(Speaks(step) && step.i == i)
    ensures i < |Next(s, step).producers|
    ensures var p, q := s.producers[i], Next(s, step).producers[i];
      q.point == p.point && q.drops == p.drops && q.named == p.named && (q.phase.Reading? ==> p.phase.Reading?)
  {
  }

  lemma ForeseenCarriesOver(s: State, t: State, names: seq<string>, p: Producer, q: Producer)
    requires Informed(s, names) && p.point in names && KeepsFuture(s, t, names, p.point)
    requires q.point == p.point && q.drops == p.drops && q.named == p.named && (q.phase.Reading? ==> p.phase.Reading?)
    ensures DropsForeseen(s, p) ==> DropsForeseen(t, q)
    ensures LinkForeseen(s, p) ==> LinkForeseen(t, q)
  {
  }

  lemma StepKeepsDropsForeseen(s: State, step: Step, names: seq<string>, i: nat)
    requires s.capacity >= 1 && GoodNames(names) && Informed(s, names) && i < |names| && Enabled(s, step)
    requires DropsForeseen(s, s.producers[i])
    ensures Informed(Next(s, step), names)
    ensures DropsForeseen(Next(s, step), Next(s, step).producers[i]) == true
  {
    if Speaks(step) && step.i == i {
      SayIsNext(s, step);
      SayKeepsOwnDrops(s, step, Next(s, step), names);
    } else {
      OtherStepForeseen(s, step, Next(s, step), names, i);
    }
  }

  lemma OtherStepForeseen(s: State, step: Step, t: State, names: seq<string>, i: nat)
    requires s.capacity >= 1 && GoodNames(names) && Informed(s, names) && i < |names| && Enabled(s, step)
    requires t == Next(s, step) && !(Speaks(step) && step.i == i)
    ensures Informed(t, names)
    ensures DropsForeseen(s, s.producers[i]) ==> DropsForeseen(t, t.producers[i])
    ensures LinkForeseen(s, s.producers[i]) ==> LinkForeseen(t, t.producers[i])
  {
    assert s.producers[i].point == names[i];
    StepKeepsFuture(s, step, t, names, i);
    StepKeepsProducer(s, step, i);
    ForeseenCarriesOver(s, t, names, s.producers[i], t.producers[i]);
  }

  lemma StepKeepsLinkForeseen(s: State, step: Step, names: seq<string>, i: nat)
    requires s.capacity >= 1 && GoodNames(names) && Informed(s, names) && i < |names| && Enabled(s, step)
    requires Orderly(s, step, i) && LinkForeseen(s, s.producers[i])
    ensures Informed(Next(s, step), names)
    ensures LinkForeseen(Next(s, step), Next(s, step).producers[i]) == true
  {
    if Speaks(step) && step.i == i {
      SayIsNext(s, step);
      SayKeepsOwnLink(s, step, Next(s, step), names);
    } else {
      OtherStepForeseen(s, step, Next(s, step), names, i);
    }
  }
}
