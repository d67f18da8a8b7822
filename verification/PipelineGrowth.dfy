/** How long the control lane gets (pipeline.py): its size in every run, and that nothing bounds it. */
module PipelineGrowth {
  import opened Basics
  import opened Control
  import opened Pipeline
  import opened PipelineRuns

  // ---------------------------------------------------------------- the size law

  /** What was put since the lane was last drained: requests, the sources that sent statistics or
      reported drops, and the number of lifecycle messages. */
  datatype Load = Load(
    force: bool,
    shutdown: bool,
    reload: bool,
    timer: bool,
    stats: set<nat>,
    reports: set<nat>,
    lifecycle: nat
  )

  const NO_LOAD := Load(false, false, false, false, {}, {}, 0)

  /** A forced shutdown replaces a graceful one and keeps later ones out. */
  function Requested(l: Load, kind: Kind): Load {
    if kind.ForceShutdown? then l.(force := true, shutdown := false)
    else if kind.ShutdownRequest? then l.(shutdown := !l.force)
    else if kind.ReloadRequest? then l.(reload := true)
    else if kind.TimerTick? then l.(timer := true)
    else l
  }

  function Loaded(l: Load, step: Step): Load {
    match step
    case OpenStep(_, _, _) => l.(lifecycle := l.lifecycle + 1)
    case FailStep(_, _, _, _) => l.(lifecycle := l.lifecycle + 1)
    case RetryStep(_, _, _) => l.(lifecycle := l.lifecycle + 1)
    case SayStoppedStep(_, _, _) => l.(lifecycle := l.lifecycle + 1)
    case StatsStep(i, _, _, _, _) => l.(stats := l.stats + {i})
    case ReportStep(i, _) => l.(reports := l.reports + {i})
    case RequestStep(kind, _) => Requested(l, kind)
    case DrainStep => NO_LOAD
    case _ => l
  }

  function LoadOf(steps: seq<Step>): Load {
    if steps == [] then NO_LOAD else Loaded(LoadOf(steps[..|steps| - 1]), steps[|steps| - 1])
  }

  function One(b: bool): nat { if b then 1 else 0 }

  function Size(l: Load): nat {
    One(l.force) + One(l.shutdown) + One(l.reload) + One(l.timer) + |l.stats| + |l.reports| + l.lifecycle
  }

  ghost predicate Has(entries: seq<Message>, point: string) {
    exists j :: 0 <= j < |entries| && entries[j].point == Some(point)
  }

  /** One entry for each of the sources. */
  ghost predicate Keyed(entries: seq<Message>, sources: set<nat>, producers: seq<Producer>) {
    && |entries| == |sources|
    && (forall i :: i in sources ==> i < |producers|)
    && (forall i :: 0 <= i < |producers| ==> (i in sources <==> Has(entries, producers[i].point)))
  }

  ghost predicate Sticky(lane: Lane, l: Load) {
    && lane.force.Some? == l.force && lane.shutdown.Some? == l.shutdown
    && lane.reload.Some? == l.reload && lane.timer.Some? == l.timer
    && !(l.force && l.shutdown)
  }

  ghost predicate Tallies(lane: Lane, l: Load, producers: seq<Producer>) {
    && Sticky(lane, l) && |lane.lifecycle| == l.lifecycle && lane.items == []
    && Keyed(lane.stats, l.stats, producers) && Keyed(lane.dropped, l.reports, producers)
  }

  /** Sources keep their names, which are distinct and not empty. */
  ghost predicate NamedApart(producers: seq<Producer>) {
    && (forall i :: 0 <= i < |producers| ==> producers[i].point != "")
    && (forall i, j :: 0 <= i < j < |producers| ==> producers[i].point != producers[j].point)
  }

  ghost predicate SameNames(a: seq<Producer>, b: seq<Producer>) {
    |a| == |b| && forall i :: 0 <= i < |a| ==> a[i].point == b[i].point
  }

  lemma StoredHas(entries: seq<Message>, m: Message, point: string)
    requires m.point.Some?
    ensures Has(Store(entries, m), point) <==> Has(entries, point) || m.point.value == point
    ensures |Store(entries, m)| == |entries| + One(!Has(entries, m.point.value))
  {
    var i := Slot(entries, m.point);
    if i < |entries| {
      assert entries[i].point == Some(m.point.value);
      forall j | 0 <= j < |entries| ensures Store(entries, m)[j].point == entries[j].point {
      }
      if Has(entries, point) {
        var j :| 0 <= j < |entries| && entries[j].point == Some(point);
        assert Store(entries, m)[j].point == Some(point);
      }
    } else {
      if Has(entries, point) {
        var j :| 0 <= j < |entries| && entries[j].point == Some(point);
        assert Store(entries, m)[j].point == Some(point);
      }
      assert Store(entries, m)[|entries|] == m;
    }
  }

  lemma StoredKeyed(entries: seq<Message>, sources: set<nat>, producers: seq<Producer>, m: Message, i: nat)
    requires Keyed(entries, sources, producers) && NamedApart(producers)
    requires i < |producers| && m.point == Some(producers[i].point)
    ensures Keyed(Store(entries, m), sources + {i}, producers)
  {
    forall k | 0 <= k < |producers|
      ensures k in sources + {i} <==> Has(Store(entries, m), producers[k].point)
    {
      StoredHas(entries, m, producers[k].point);
    }
    StoredHas(entries, m, producers[i].point);
    if i in sources {
      assert sources + {i} == sources;
    }
  }

  lemma RenamedKeyed(entries: seq<Message>, sources: set<nat>, a: seq<Producer>, b: seq<Producer>)
    requires Keyed(entries, sources, a) && SameNames(a, b)
    ensures Keyed(entries, sources, b)
  {
  }

  lemma StatsTallies(lane: Lane, l: Load, producers: seq<Producer>, m: Message, i: nat)
    requires Tallies(lane, l, producers) && NamedApart(producers)
    requires i < |producers| && m.kind.Stats? && m.point == Some(producers[i].point)
    ensures Tallies(Placed(lane, m), l.(stats := l.stats + {i}), producers)
  {
    StoredKeyed(lane.stats, l.stats, producers, m, i);
  }

  lemma PlacedReport(lane: Lane, m: Message) returns (d: Message)
    requires m.kind.ObservationDropped? && Named(m)
    ensures d.point == m.point && Placed(lane, m) == lane.(dropped := Store(lane.dropped, d))
  {
    d := Summed(lane.dropped, m);
  }

  lemma ReportTallies(lane: Lane, l: Load, producers: seq<Producer>, d: Message, i: nat)
    requires Tallies(lane, l, producers) && NamedApart(producers)
    requires i < |producers| && d.point == Some(producers[i].point)
    ensures Tallies(lane.(dropped := Store(lane.dropped, d)), l.(reports := l.reports + {i}), producers)
  {
    StoredKeyed(lane.dropped, l.reports, producers, d, i);
  }

  lemma EventTallies(lane: Lane, l: Load, producers: seq<Producer>, m: Message)
    requires Tallies(lane, l, producers) && Named(m) && IsLifecycle(m.kind)
    ensures Tallies(Placed(lane, m), l.(lifecycle := l.lifecycle + 1), producers)
  {
  }

  /** Putting what a source says. */
  lemma SaidTallies(lane: Lane, l: Load, producers: seq<Producer>, step: Step, m: Message)
    requires Tallies(lane, l, producers) && NamedApart(producers)
    requires Speaks(step) && step.i < |producers| && m == Words(producers[step.i], step)
    ensures Tallies(Placed(lane, m), Loaded(l, step), producers)
  {
    if step.StatsStep? {
      StatsTallies(lane, l, producers, m, step.i);
    } else if step.ReportStep? {
      var d := PlacedReport(lane, m);
      ReportTallies(lane, l, producers, d, step.i);
    } else {
      EventTallies(lane, l, producers, m);
    }
  }

  lemma RequestTallies(lane: Lane, l: Load, producers: seq<Producer>, m: Message)
    requires Tallies(lane, l, producers)
    requires m.kind.TimerTick? || m.kind.ShutdownRequest? || m.kind.ForceShutdown? || m.kind.ReloadRequest?
    ensures Tallies(Placed(lane, m), Requested(l, m.kind), producers)
  {
  }

  /** The worker only ever empties the lane. */
  lemma WorkOnLane(s: State, step: Step)
    requires Works(step) && Enabled(s, step)
    ensures AfterWork(s, step).lane == (if step.DrainStep? then EMPTY_LANE else s.lane)
    ensures AfterWork(s, step).producers == s.producers
  {
  }

  lemma RestOnLane(s: State, step: Step)
    requires s.capacity >= 1 && Enabled(s, step) && !Works(step) && !Speaks(step)
    ensures SameNames(s.producers, AfterRest(s, step).producers)
    ensures AfterRest(s, step).lane
      == if step.RequestStep? then Placed(s.lane, Plain(step.kind, step.at)) else s.lane
  {
  }

  lemma StepKeepsTallies(s: State, step: Step, t: State, l: Load)
    requires s.capacity >= 1 && Enabled(s, step) && t == Next(s, step)
    requires Tallies(s.lane, l, s.producers) && NamedApart(s.producers)
    ensures Tallies(t.lane, Loaded(l, step), t.producers) && NamedApart(t.producers)
  {
    if Works(step) {
      WorkOnLane(s, step);
      WorkTallies(s.lane, l, s.producers, step, t.lane);
    } else if Speaks(step) {
      SaidTallies(s.lane, l, s.producers, step, Words(s.producers[step.i], step));
      SayIsNext(s, step);
      RenamedTallies(t.lane, Loaded(l, step), s.producers, t.producers);
    } else {
      RestOnLane(s, step);
      if step.RequestStep? {
        RequestTallies(s.lane, l, s.producers, Plain(step.kind, step.at));
      }
      RenamedTallies(t.lane, Loaded(l, step), s.producers, t.producers);
    }
  }

  lemma WorkTallies(lane: Lane, l: Load, producers: seq<Producer>, step: Step, after: Lane)
    requires Works(step) && after == (if step.DrainStep? then EMPTY_LANE else lane)
    requires Tallies(lane, l, producers)
    ensures Tallies(after, Loaded(l, step), producers)
  {
  }

  lemma RenamedTallies(lane: Lane, l: Load, a: seq<Producer>, b: seq<Producer>)
    requires Tallies(lane, l, a) && NamedApart(a) && SameNames(a, b)
    ensures Tallies(lane, l, b) && NamedApart(b)
  {
    RenamedKeyed(lane.stats, l.stats, a, b);
    RenamedKeyed(lane.dropped, l.reports, a, b);
  }

  lemma {:induction false} RunKeepsTallies(start: State, steps: seq<Step>)
    requires Fresh(start) && Runs(start, steps)
    ensures Tallies(End(start, steps).lane, LoadOf(steps), End(start, steps).producers)
    ensures NamedApart(End(start, steps).producers)
    decreases |steps|
  {
    if steps != [] {
      var front, step, before := LastStep(start, steps);
      RunKeepsTallies(start, front);
      assert LoadOf(steps) == Loaded(LoadOf(front), step) by { assert steps[..|steps| - 1] == front; }
      StepKeepsTallies(before, step, End(start, steps), LoadOf(front));
    }
  }

  /** Over every run the lane holds exactly what its load says: each pending request, one entry for
      each source with statistics, one for each source with drops, every lifecycle message. */
  lemma LaneSize(start: State, steps: seq<Step>)
    requires Fresh(start) && Runs(start, steps)
    ensures |Drained(End(start, steps).lane)| == Size(LoadOf(steps))
    ensures |End(start, steps).lane.lifecycle| == LoadOf(steps).lifecycle
  {
    RunKeepsTallies(start, steps);
  }

  /** At most three requests, two entries for each source, and the lifecycle messages. */
  lemma LaneBound(start: State, steps: seq<Step>)
    requires Fresh(start) && Runs(start, steps)
    ensures |Drained(End(start, steps).lane)| <= 3 + 2 * |start.producers| + LoadOf(steps).lifecycle
  {
    RunKeepsTallies(start, steps);
    RunKeepsCount(start, steps);
    var l, n := LoadOf(steps), |start.producers|;
    Below(l.stats, n);
    Below(l.reports, n);
  }

  lemma {:induction false} RunKeepsCount(start: State, steps: seq<Step>)
    requires start.capacity >= 1 && Runs(start, steps)
    ensures |End(start, steps).producers| == |start.producers|
    decreases |steps|
  {
    if steps != [] {
      var front, step, before := LastStep(start, steps);
      RunKeepsCount(start, front);
    }
  }

  /** A set of numbers below `n` has at most `n` elements. */
  lemma {:induction false} Below(s: set<nat>, n: nat)
    requires forall i :: i in s ==> i < n
    ensures |s| <= n
  {
    if n == 0 {
      assert s == {};
    } else {
      Below(s - {n - 1}, n - 1);
      assert s <= (s - {n - 1}) + {n - 1};
      if n - 1 !in s {
        assert s - {n - 1} == s;
      }
    }
  }

  // ---------------------------------------------------------------- when a bound holds

  /** The lane never holds more than `bound` messages on the way. */
  ghost predicate StaysWithin(start: State, steps: seq<Step>, bound: nat)
    requires start.capacity >= 1 && Runs(start, steps)
    decreases |steps|
  {
    && |Drained(End(start, steps).lane)| <= bound
    && (steps != [] ==> StaysWithin(start, steps[..|steps| - 1], bound))
  }

  /** No prefix of the steps loads more than `bound` messages between two drains. */
  predicate LoadsWithin(steps: seq<Step>, bound: nat) {
    Size(LoadOf(steps)) <= bound && (steps != [] ==> LoadsWithin(steps[..|steps| - 1], bound))
  }

  /** The lane keeps within a bound during a run iff what is sent between two drains does. */
  lemma {:induction false} WithinExactly(start: State, steps: seq<Step>, bound: nat)
    requires Fresh(start) && Runs(start, steps)
    ensures StaysWithin(start, steps, bound) <==> LoadsWithin(steps, bound)
    decreases |steps|
  {
    LaneSize(start, steps);
    if steps != [] {
      WithinExactly(start, steps[..|steps| - 1], bound);
    }
  }

  // ---------------------------------------------------------------- nothing bounds it

  /** A source that opens, fails and retries while the worker is busy. */
  predicate Flapping(s: State, i: nat) {
    s.capacity >= 1 && Ready(s, i, {Reading}) && !s.producers[i].stopping && s.producers[i].point != ""
  }

  lemma Speak(s: State, step: Step) returns (t: State)
    requires s.capacity >= 1 && Speaks(step) && Enabled(s, step) && step.i < |s.producers|
    requires s.producers[step.i].point != "" && IsLifecycle(Words(s.producers[step.i], step).kind)
    ensures t == Next(s, step) && t.capacity == s.capacity
    ensures |t.producers| == |s.producers| && t.producers[step.i] == Moved(s.producers[step.i], step)
    ensures |t.lane.lifecycle| == |s.lane.lifecycle| + 1
  {
    SayIsNext(s, step);
    t := AfterSay(s, step);
  }

  lemma Flap(s: State, i: nat) returns (steps: seq<Step>, t: State)
    requires Flapping(s, i)
    ensures Runs(s, steps) && End(s, steps) == t && Flapping(t, i)
    ensures |t.lane.lifecycle| == |s.lane.lifecycle| + 3
  {
    var fail, retry, open := FailStep(i, 0, None, ""), RetryStep(i, 0, ""), OpenStep(i, 0, "");
    var a := Speak(s, fail);
    var b := Speak(a, retry);
    t := Speak(b, open);
    ThreeSteps(s, fail, a, retry, b, open, t);
    steps := [fail, retry, open];
  }

  lemma {:induction false} FlapOften(s: State, i: nat, n: nat) returns (steps: seq<Step>, t: State)
    requires Flapping(s, i)
    ensures Runs(s, steps) && End(s, steps) == t && Flapping(t, i)
    ensures |t.lane.lifecycle| >= n
    decreases n
  {
    if n == 0 {
      steps, t := [], s;
    } else {
      var before, u := FlapOften(s, i, n - 1);
      var more;
      more, t := Flap(u, i);
      EndAppend(s, before, more, u);
      steps := before + more;
    }
  }

  /** From every start with a source, and for every bound, some run puts more into the lane. */
  lemma LaneUnbounded(start: State, bound: nat)
    requires Fresh(start) && start.producers != []
    ensures exists steps :: Runs(start, steps) && |Drained(End(start, steps).lane)| > bound
  {
    var open := OpenStep(0, 0, "");
    assert start.producers[0].point != "";
    var s := Speak(start, open);
    OneStep(start, open, s);
    var more, t := FlapOften(s, 0, bound + 1);
    EndAppend(start, [open], more, s);
    assert |Drained(t.lane)| >= |t.lane.lifecycle|;
    assert Runs(start, [open] + more);
  }
}
