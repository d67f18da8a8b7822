/** The one way the worker's record of a source goes wrong: statistics from a capture thread that
    outlived the wait in `stop`. */
module PipelineLate {
  import opened Basics
  import opened Control
  import opened OpsState
  import opened Worker
  import opened Pipeline
  import opened PipelineSources
  import opened PipelineRuns
  import opened PipelineSettles
  import opened PipelineResults

  predicate Announces(step: Step, i: nat) {
    (step.OpenStep? || step.FailStep? || step.RetryStep? || step.SayStoppedStep?) && step.i == i
  }

  /** Steps in which source `i` announces no lifecycle change. */
  predicate Muted(steps: seq<Step>, i: nat) {
    forall j :: 0 <= j < |steps| ==> !Announces(steps[j], i)
  }

  /** The record of source `i` is what its last lifecycle message names. */
  predicate Right(s: State, i: nat) {
    i < |s.producers| && s.producers[i].point in s.recorder.ops.sources
    && s.recorder.ops.sources[s.producers[i].point].link == s.producers[i].named
  }

  lemma {:induction false} MutedIsOrderly(s: State, steps: seq<Step>, i: nat)
    requires s.capacity >= 1 && Runs(s, steps) && Muted(steps, i)
    ensures OrderlyRun(s, steps, i)
    decreases |steps|
  {
    if steps != [] {
      MutedIsOrderly(s, steps[..|steps| - 1], i);
      assert !Announces(steps[|steps| - 1], i);
    }
  }

  lemma QuietLaneIsEmpty(l: Lane)
    requires Drained(l) == []
    ensures l == EMPTY_LANE
  {
  }

  function LateSteps(i: nat): seq<Step> {
    [StatsStep(i, 0, "", 0, 0), DrainStep, HandleStep(0, true, None)]
  }

  lemma LateIsMuted(i: nat)
    ensures Muted(LateSteps(i), i)
  {
  }

  lemma StatsAlone(s: State, i: nat) returns (m: Message, t: State)
    requires i < |s.producers| && s.producers[i].point != "" && s.lane == EMPTY_LANE
    ensures m == Words(s.producers[i], StatsStep(i, 0, "", 0, 0)) && IsStatsOf(m, s.producers[i].point)
    ensures t == AfterDrain(AfterSay(s, StatsStep(i, 0, "", 0, 0)))
    ensures t.position == Handling([m], []) && t.lane == EMPTY_LANE && t.recorder == s.recorder
    ensures |t.producers| == |s.producers|
    ensures t.producers[i].named == s.producers[i].named && t.producers[i].point == s.producers[i].point
  {
    m := Words(s.producers[i], StatsStep(i, 0, "", 0, 0));
    var a := AfterSay(s, StatsStep(i, 0, "", 0, 0));
    assert a.lane == EMPTY_LANE.(stats := [m]);
    assert Drained(a.lane) == [m];
    t := AfterDrain(a);
  }

  /** Source `i` still names what it named, and is recorded as established. */
  predicate Misread(s: State, t: State, i: nat) {
    && i < |s.producers| && i < |t.producers|
    && t.producers[i].point == s.producers[i].point && t.producers[i].named == s.producers[i].named
    && t.producers[i].point in t.recorder.ops.sources && t.recorder.ops.sources[t.producers[i].point].link.Up?
  }

  lemma HandledAlone(s: State, m: Message, i: nat, w: World)
    requires s.position == Handling([m], []) && s.lane == EMPTY_LANE
    requires i < |s.producers| && IsStatsOf(m, s.producers[i].point)
    requires s.producers[i].point in s.recorder.ops.sources && !s.producers[i].named.Up?
    ensures Quiet(AfterHandle(s, w)) && Misread(s, AfterHandle(s, w), i)
  {
    StatsHandling(s.recorder, m, w);
    assert Drained(EMPTY_LANE) == [];
    assert [m][1..] == [];
  }

  lemma DrainIsNext(s: State)
    requires s.capacity >= 1 && s.position.Idle?
    ensures Enabled(s, DrainStep) && AfterDrain(s) == Next(s, DrainStep)
  {
  }

  lemma HandleIsNext(s: State)
    requires s.capacity >= 1 && s.position.Handling? && s.position.batch != []
      && Routable(s.recorder.ops, s.position.batch[0])
    ensures Enabled(s, HandleStep(0, true, None))
    ensures AfterHandle(s, Around(s, 0, true, None)) == Next(s, HandleStep(0, true, None))
  {
  }

  lemma LateEnabled(s: State, i: nat, a: State, m: Message, t: State)
    requires s.capacity >= 1 && s.position.Idle? && Enabled(s, StatsStep(i, 0, "", 0, 0))
    requires a == AfterSay(s, StatsStep(i, 0, "", 0, 0)) && t == AfterDrain(a)
    requires t.position == Handling([m], []) && Routable(t.recorder.ops, m)
    ensures Runs(s, LateSteps(i)) && End(s, LateSteps(i)) == AfterHandle(t, Around(t, 0, true, None))
  {
    SayIsNext(s, StatsStep(i, 0, "", 0, 0));
    DrainIsNext(a);
    HandleIsNext(t);
    ThreeSteps(s, StatsStep(i, 0, "", 0, 0), a, DrainStep, t, HandleStep(0, true, None),
      AfterHandle(t, Around(t, 0, true, None)));
  }

  /** One statistic, drained and handled by itself, marks its source as established. */
  lemma LateStatsWin(s: State, i: nat)
    requires s.capacity >= 1 && i < |s.producers|
    requires s.producers[i].point != "" && s.producers[i].point in s.recorder.ops.sources
    requires s.lane == EMPTY_LANE && s.position.Idle?
    requires s.producers[i].evicted == 0 && s.producers[i].phase.Reading? && !s.producers[i].named.Up?
    ensures Runs(s, LateSteps(i)) && Quiet(End(s, LateSteps(i)))
    ensures Misread(s, End(s, LateSteps(i)), i)
  {
    var m, t := StatsAlone(s, i);
    HandledAlone(t, m, i, Around(t, 0, true, None));
    LateEnabled(s, i, AfterSay(s, StatsStep(i, 0, "", 0, 0)), m, t);
  }

  /** From a quiet moment at which the record of source `i` is right, it stays right at every later
      quiet moment without a new lifecycle message from `i`, iff its thread is not in its read loop
      after a message other than established or recovered. */
  lemma LateStatsExactly(start: State, before: seq<Step>, i: nat)
    requires Fresh(start) && i < |start.producers| && Runs(start, before)
    requires var s := End(start, before);
      Quiet(s) && s.position.Idle? && Right(s, i) && s.producers[i].evicted == 0
    ensures var s := End(start, before);
      (forall more :: Runs(s, more) && Muted(more, i) && Quiet(End(s, more)) ==> Right(End(s, more), i))
      <==>
      !(s.producers[i].phase.Reading? && !s.producers[i].named.Up?)
  {
    var s, names := End(start, before), NamesOf(start.producers);
    FreshIsExact(start);
    RunKeepsExact(start, before, names);
    if s.producers[i].phase.Reading? && !s.producers[i].named.Up? {
      QuietLaneIsEmpty(s.lane);
      assert s.producers[i].point == names[i];
      LateStatsWin(s, i);
      LateIsMuted(i);
    } else {
      assert names[i] == s.producers[i].point;
      forall more | Runs(s, more) && Muted(more, i) && Quiet(End(s, more)) ensures Right(End(s, more), i) {
        MutedIsOrderly(s, more, i);
        RunKeepsLink(s, more, names, i);
      }
    }
  }

  // ---------------------------------------------------------------- and it does happen

  lemma OpensFirst(start: State) returns (x: State, a: Message)
    requires Fresh(start) && start.producers != []
    ensures Enabled(start, OpenStep(0, 0, "")) && x == Next(start, OpenStep(0, 0, ""))
    ensures a.kind.Established? && a.point == Some(start.producers[0].point)
    ensures x == start.(lane := EMPTY_LANE.(lifecycle := [a]), producers := x.producers) && x.producers != []
    ensures x.producers[0] == start.producers[0].(phase := Reading, generation := 1, named := Up)
  {
    var open := OpenStep(0, 0, "");
    a := Words(start.producers[0], open);
    x := AfterSay(start, open);
    assert x.lane == EMPTY_LANE.(lifecycle := [a]);
    SayIsNext(start, open);
  }

  lemma ToldToStop(s: State) returns (t: State)
    requires s.capacity >= 1 && s.producers != []
    ensures Enabled(s, AskStopStep(0)) && t == Next(s, AskStopStep(0))
    ensures t == s.(producers := t.producers) && t.producers != []
    ensures t.producers[0] == s.producers[0].(stopping := true)
  {
    t := AfterRest(s, AskStopStep(0));
  }

  lemma SaysStopped(s: State, a: Message) returns (t: State, b: Message)
    requires s.capacity >= 1 && s.producers != [] && s.producers[0].stopping && s.producers[0].point != ""
    requires s.lane == EMPTY_LANE.(lifecycle := [a])
    ensures Enabled(s, SayStoppedStep(0, 0, None)) && t == Next(s, SayStoppedStep(0, 0, None))
    ensures b.kind.Stopped? && b.point == Some(s.producers[0].point)
    ensures t == s.(lane := EMPTY_LANE.(lifecycle := [a, b]), producers := t.producers) && t.producers != []
    ensures t.producers[0] == s.producers[0].(named := Halted)
  {
    var say := SayStoppedStep(0, 0, None);
    b := Words(s.producers[0], say);
    t := AfterSay(s, say);
    assert t.lane == EMPTY_LANE.(lifecycle := [a, b]);
    SayIsNext(s, say);
  }

  /** The source opens, is told to stop, and says "stopped" while its thread still reads. */
  lemma StoppedWhileReading(start: State) returns (steps: seq<Step>, s: State, a: Message, b: Message)
    requires Fresh(start) && start.producers != []
    ensures Runs(start, steps) && End(start, steps) == s
    ensures s.position.Idle? && s.queue == [] && s.recorder == start.recorder
    ensures s.lane == EMPTY_LANE.(lifecycle := [a, b]) && a.kind.Established? && b.kind.Stopped?
    ensures a.point == b.point == Some(start.producers[0].point)
    ensures s.producers != []
      && s.producers[0] == start.producers[0].(phase := Reading, stopping := true, generation := 1, named := Halted)
  {
    var x, y;
    x, a := OpensFirst(start);
    y := ToldToStop(x);
    s, b := SaysStopped(y, a);
    steps := [OpenStep(0, 0, ""), AskStopStep(0), SayStoppedStep(0, 0, None)];
    ThreeSteps(start, steps[0], x, steps[1], y, steps[2], s);
  }

  lemma LifecycleStep(s: State, m: Message, rest: seq<Message>, point: string) returns (t: State)
    requires s.capacity >= 1 && s.position == Handling([m] + rest, [])
    requires IsLifecycle(m.kind) && m.point == Some(point) && point in s.recorder.ops.sources
    ensures Enabled(s, HandleStep(0, true, None)) && t == Next(s, HandleStep(0, true, None))
    ensures t == s.(position := Handling(rest, []), recorder := t.recorder)
    ensures point in t.recorder.ops.sources && t.recorder.ops.sources[point].link == LinkOf(m.kind)
  {
    t := AfterHandle(s, Around(s, 0, true, None));
    LifecycleHandling(s.recorder, m, Around(s, 0, true, None));
    HandleIsNext(s);
    assert ([m] + rest)[1..] == rest;
  }

  /** The worker handles two lifecycle messages of one source and is idle again. */
  lemma WorkerCatchesUp(s: State, a: Message, b: Message, point: string) returns (steps: seq<Step>, t: State)
    requires s.capacity >= 1 && s.position.Idle? && s.queue == [] && s.lane == EMPTY_LANE.(lifecycle := [a, b])
    requires IsLifecycle(a.kind) && IsLifecycle(b.kind) && a.point == b.point == Some(point)
    requires point in s.recorder.ops.sources
    ensures Runs(s, steps) && End(s, steps) == t
    ensures t.position.Idle? && t.lane == EMPTY_LANE && t.producers == s.producers
    ensures point in t.recorder.ops.sources && t.recorder.ops.sources[point].link == LinkOf(b.kind)
  {
    var handle := HandleStep(0, true, None);
    var x := AfterDrain(s);
    assert x.position == Handling([a] + [b], []);
    DrainIsNext(s);
    var y := LifecycleStep(x, a, [b], point);
    assert [b] == [b] + [];
    var z := LifecycleStep(y, b, [], point);
    ThreeSteps(s, DrainStep, x, handle, y, handle, z);
    t := GoIdle(z);
    EndAppend(s, [DrainStep, handle, handle], [LimitStep, TurnStep, FinishStep], z);
    steps := [DrainStep, handle, handle] + [LimitStep, TurnStep, FinishStep];
  }

  lemma GoIdle(s: State) returns (t: State)
    requires s.capacity >= 1 && s.position == Handling([], []) && s.queue == []
    ensures Runs(s, [LimitStep, TurnStep, FinishStep]) && End(s, [LimitStep, TurnStep, FinishStep]) == t
    ensures t == s.(position := Idle)
  {
    var a := AfterLimit(s);
    var b := a.(position := Ticking([]));
    t := s.(position := Idle);
    ThreeSteps(s, LimitStep, a, TurnStep, b, FinishStep, t);
  }

  /** A run to an idle worker that has recorded the first source as stopped while it still reads. */
  lemma StoppedRecorded(start: State) returns (steps: seq<Step>, t: State)
    requires Fresh(start) && start.producers != []
    ensures Runs(start, steps) && End(start, steps) == t
    ensures t.capacity >= 1 && t.position.Idle? && t.lane == EMPTY_LANE && t.producers != []
    ensures t.producers[0] == start.producers[0].(phase := Reading, stopping := true, generation := 1, named := Halted)
    ensures t.producers[0].point in t.recorder.ops.sources
  {
    var before, s, a, b := StoppedWhileReading(start);
    var p := start.producers[0];
    assert p in start.producers;
    assert p.point in start.recorder.ops.sources;
    var more;
    more, t := WorkerCatchesUp(s, a, b, p.point);
    EndAppend(start, before, more, s);
    steps := before + more;
  }

  /** From every start there is a run after which the first source last said "stopped" and the worker,
      with nothing left to handle, records it as established. */
  lemma LateStatsHappen(start: State)
    requires Fresh(start) && start.producers != []
    ensures exists steps :: Runs(start, steps) && LateRecord(End(start, steps))
  {
    var steps, t := StoppedRecorded(start);
    LateStatsWin(t, 0);
    EndAppend(start, steps, LateSteps(0), t);
    assert LateRecord(End(start, steps + LateSteps(0)));
  }

  predicate LateRecord(s: State) {
    && Quiet(s) && s.producers != [] && s.producers[0].named.Halted?
    && s.producers[0].point in s.recorder.ops.sources && s.recorder.ops.sources[s.producers[0].point].link.Up?
  }
}
