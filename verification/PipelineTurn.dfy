/** The worker loop as it is written and the step system agree: an undisturbed turn of the loop, and a
    turn that ends in a shutdown, are runs of worker steps with the same outcome. */
module PipelineTurn {
  import opened Basics
  import opened Control
  import opened Worker
  import opened Pipeline
  import opened PipelineRuns
  import opened PipelineWorker

  /** The same step `n` times. */
  function Again(x: Step, n: nat): seq<Step> { seq(n, _ => x) }

  lemma OnceMore(s: State, x: Step, n: nat, a: State, b: State)
    requires s.capacity >= 1 && a.capacity >= 1 && Runs(s, Again(x, n)) && End(s, Again(x, n)) == a
    requires Enabled(a, x) && b == Next(a, x)
    ensures Runs(s, Again(x, n + 1)) && End(s, Again(x, n + 1)) == b
  {
    assert Again(x, n + 1) == Again(x, n) + [x];
    Extend(s, Again(x, n), x);
  }

  predicate Linked(x: Step, a: State, b: State) {
    (a.capacity >= 1 && Enabled(a, x) && b == Next(a, x)) == true
  }

  /** A chain of states, each one step `x` after the one before. */
  lemma {:induction false} Repeated(x: Step, states: seq<State>, n: nat)
    requires n < |states| && states[0].capacity >= 1
    requires forall k: nat :: k < n ==> Linked(x, states[k], states[k + 1])
    ensures Runs(states[0], Again(x, n)) && End(states[0], Again(x, n)) == states[n]
    decreases n
  {
    if n > 0 {
      Repeated(x, states, n - 1);
      assert Linked(x, states[n - 1], states[n - 1 + 1]);
      OnceMore(states[0], x, n - 1, states[n - 1], states[n]);
    }
  }

  // ---------------------------------------------------------------- the batch

  /** The batch after its first `k` messages. */
  function Midway(s: State, ms: seq<Message>, k: nat, w: World): State
    requires k <= |ms| && RoutableAll(s.recorder.ops, ms)
  {
    s.(position := Handling(ms[k..], TimersOf(ms[..k])), recorder := HandledAll(s.recorder, ms[..k], w))
  }

  lemma OneHandled(s: State, ms: seq<Message>, k: nat, w: World)
    requires k < |ms| && RoutableAll(s.recorder.ops, ms) && !StopsWorker(ms[k])
    ensures var t := Midway(s, ms, k, w);
      && Routable(t.recorder.ops, ms[k])
      && AfterHandle(t, w) == Midway(s, ms, k + 1, w)
  {
    assert ms[..k + 1][..k] == ms[..k] && ms[k..][1..] == ms[k + 1..];
    assert TimersOf(ms[..k]) + [] == TimersOf(ms[..k]);
  }

  lemma HandleLinked(s: State, ms: seq<Message>, k: nat, x: Step, w: World)
    requires s.capacity >= 1 && k < |ms| && RoutableAll(s.recorder.ops, ms) && !StopsWorker(ms[k])
    requires x.HandleStep? && w == Around(s, x.cooldown, x.healthy, x.reloaded)
    ensures Linked(x, Midway(s, ms, k, w), Midway(s, ms, k + 1, w))
  {
    OneHandled(s, ms, k, w);
  }

  lemma HandleRun(s: State, ms: seq<Message>, n: nat, x: Step)
    requires s.capacity >= 1 && s.position == Handling(ms, []) && n <= |ms| && RoutableAll(s.recorder.ops, ms)
    requires x.HandleStep? && forall j :: 0 <= j < n ==> !StopsWorker(ms[j])
    ensures var w := Around(s, x.cooldown, x.healthy, x.reloaded);
      Runs(s, Again(x, n)) && End(s, Again(x, n)) == Midway(s, ms, n, w)
  {
    var w := Around(s, x.cooldown, x.healthy, x.reloaded);
    var states := seq(n + 1, k requires 0 <= k <= n => Midway(s, ms, k, w));
    assert ms[0..] == ms && states[0] == s;
    forall k: nat | k < n ensures Linked(x, states[k], states[k + 1]) {
      HandleLinked(s, ms, k, x, w);
    }
    Repeated(x, states, n);
  }

  // ---------------------------------------------------------------- the observations

  /** After `k` observations, with `left` of the quota still open. */
  function Watching(s: State, k: nat, now: int, healthy: bool, position: Position): State
    requires k <= |s.queue|
  {
    s.(queue := s.queue[k..], fates := s.fates + seq(k, _ => true), position := position,
       recorder := WatchedAll(s.recorder, s.queue[..k], now, healthy))
  }

  lemma OneWatched(s: State, k: nat, now: int, w: World, before: Position, after: Position)
    requires k < |s.queue|
    ensures AfterPop(Watching(s, k, now, w.healthy, before), now, w, after) == Watching(s, k + 1, now, w.healthy, after)
  {
    assert s.queue[..k + 1][..k] == s.queue[..k] && s.queue[k..][1..] == s.queue[k + 1..];
    assert seq(k + 1, _ => true) == seq(k, _ => true) + [true];
    assert s.fates + (seq(k, _ => true) + [true]) == s.fates + seq(k, _ => true) + [true];
  }

  lemma NoneWatched(s: State, now: int, healthy: bool)
    ensures Watching(s, 0, now, healthy, s.position) == s
  {
    assert s.queue[0..] == s.queue && s.fates + seq(0, _ => true) == s.fates;
  }

  lemma PopLinked(s: State, k: nat, x: Step, before: Position, after: Position)
    requires s.capacity >= 1 && x.PopStep? && k < |s.queue| && before.Observing? && before.left > 0
    requires after == Observing(before.left - 1, before.timers)
    ensures Linked(x, Watching(s, k, x.now, x.healthy, before), Watching(s, k + 1, x.now, x.healthy, after))
  {
    var a := Watching(s, k, x.now, x.healthy, before);
    OneWatched(s, k, x.now, Around(a, 0, x.healthy, None), before, after);
  }

  function Popped(s: State, k: nat, x: Step): State
    requires x.PopStep? && s.position.Observing? && k <= |s.queue| && k <= s.position.left
  {
    Watching(s, k, x.now, x.healthy, Observing(s.position.left - k, s.position.timers))
  }

  lemma PoppedLinked(s: State, k: nat, x: Step)
    requires s.capacity >= 1 && x.PopStep? && s.position.Observing? && k < |s.queue| && k < s.position.left
    ensures Linked(x, Popped(s, k, x), Popped(s, k + 1, x))
  {
    var left, timers := s.position.left, s.position.timers;
    PopLinked(s, k, x, Observing(left - k, timers), Observing(left - (k + 1), timers));
  }

  lemma PopRun(s: State, n: nat, x: Step) returns (t: State)
    requires s.capacity >= 1 && s.position.Observing? && n <= |s.queue| && n <= s.position.left && x.PopStep?
    ensures Runs(s, Again(x, n)) && End(s, Again(x, n)) == t && t == Popped(s, n, x)
  {
    var states := seq(n + 1, k requires 0 <= k <= n => Popped(s, k, x));
    NoneWatched(s, x.now, x.healthy);
    assert states[0] == s;
    forall k: nat | k < n ensures Linked(x, states[k], states[k + 1]) {
      PoppedLinked(s, k, x);
    }
    Repeated(x, states, n);
    t := states[n];
  }

  lemma RescueLinked(s: State, k: nat, x: Step)
    requires s.capacity >= 1 && x.RescueStep? && k < |s.queue| && s.position.Closing?
    ensures Linked(x, Watching(s, k, x.now, x.healthy, s.position), Watching(s, k + 1, x.now, x.healthy, s.position))
  {
    var a := Watching(s, k, x.now, x.healthy, s.position);
    OneWatched(s, k, x.now, Around(a, 0, x.healthy, None), s.position, s.position);
  }

  lemma RescueRun(s: State, n: nat, x: Step) returns (t: State)
    requires s.capacity >= 1 && s.position.Closing? && n <= |s.queue| && x.RescueStep?
    ensures Runs(s, Again(x, n)) && End(s, Again(x, n)) == t
    ensures t == Watching(s, n, x.now, x.healthy, s.position)
  {
    var states := seq(n + 1, k requires 0 <= k <= n => Watching(s, k, x.now, x.healthy, s.position));
    NoneWatched(s, x.now, x.healthy);
    assert states[0] == s;
    forall k: nat | k < n ensures Linked(x, states[k], states[k + 1]) {
      RescueLinked(s, k, x);
    }
    Repeated(x, states, n);
    t := states[n];
  }

  // ---------------------------------------------------------------- the timers

  /** After the first `k` timers. */
  function Timed(s: State, timers: seq<Message>, k: nat, w: World): State
    requires k <= |timers| && forall m :: m in timers ==> m.kind.TimerTick?
  {
    s.(position := Ticking(timers[k..]), recorder := TickedAll(s.recorder, timers[..k], w))
  }

  lemma TickLinked(s: State, timers: seq<Message>, k: nat, x: Step, w: World)
    requires s.capacity >= 1 && k < |timers| && x.TickStep? && w == Around(s, x.cooldown, x.healthy, None)
    requires forall m :: m in timers ==> m.kind.TimerTick?
    ensures Linked(x, Timed(s, timers, k, w), Timed(s, timers, k + 1, w))
  {
    assert timers[..k + 1][..k] == timers[..k] && timers[k..][1..] == timers[k + 1..];
    assert timers[k] in timers;
  }

  lemma TickRun(s: State, timers: seq<Message>, x: Step) returns (t: State)
    requires s.capacity >= 1 && s.position == Ticking(timers) && x.TickStep?
    requires forall m :: m in timers ==> m.kind.TimerTick?
    ensures Runs(s, Again(x, |timers|)) && End(s, Again(x, |timers|)) == t
    ensures t == Timed(s, timers, |timers|, Around(s, x.cooldown, x.healthy, None))
  {
    var n, w := |timers|, Around(s, x.cooldown, x.healthy, None);
    var states := seq(n + 1, k requires 0 <= k <= n => Timed(s, timers, k, w));
    assert timers[0..] == timers && states[0] == s;
    forall k: nat | k < n ensures Linked(x, states[k], states[k + 1]) {
      TickLinked(s, timers, k, x, w);
    }
    Repeated(x, states, n);
    t := states[n];
  }

  // ---------------------------------------------------------------- a whole turn

  /** What one undisturbed turn leaves, in the terms of the loop's contract. */
  function TurnOutcome(s: State, now: int, x: Step): State
    requires x.HandleStep? && RoutableAll(s.recorder.ops, Drained(s.lane))
  {
    var ms := Drained(s.lane);
    var n := Quota(ms, |s.queue|);
    TimersOfTick(ms);
    var handled := HandledAll(s.recorder, ms, Around(s, x.cooldown, x.healthy, x.reloaded));
    var watched := WatchedAll(handled, s.queue[..n], now, x.healthy);
    s.(lane := EMPTY_LANE, queue := s.queue[n..], fates := s.fates + seq(n, _ => true), mark := |s.puts|,
       recorder := TickedAll(watched, TimersOf(ms), World(|s.queue| - n, s.capacity, x.cooldown, x.healthy, None)))
  }

  /** The steps of a turn: drain, handle every message, read the limit, take the observations, run the
      timers. */
  function TurnSteps(s: State, now: int, x: Step): seq<Step>
    requires x.HandleStep?
  {
    var ms := Drained(s.lane);
    TurnStart(ms, x) + TurnEnd(ms, Quota(ms, |s.queue|), now, x)
  }

  function TurnStart(ms: seq<Message>, x: Step): seq<Step> { [DrainStep] + (Again(x, |ms|) + [LimitStep]) }

  function TurnEnd(ms: seq<Message>, n: nat, now: int, x: Step): seq<Step>
    requires x.HandleStep?
  {
    (Again(PopStep(now, x.healthy), n) + [TurnStep])
    + (Again(TickStep(x.cooldown, x.healthy), |TimersOf(ms)|) + [FinishStep])
  }

  lemma Then(s: State, a: seq<Step>, t: State, x: Step, u: State)
    requires s.capacity >= 1 && t.capacity >= 1 && Runs(s, a) && End(s, a) == t && Enabled(t, x) && u == Next(t, x)
    ensures Runs(s, a + [x]) && End(s, a + [x]) == u
  {
    Extend(s, a, x);
  }

  lemma BatchPart(s: State, x: Step) returns (t: State)
    requires s.capacity >= 1 && s.position.Idle? && x.HandleStep?
    requires RoutableAll(s.recorder.ops, Drained(s.lane)) && !Stops(Drained(s.lane))
    ensures var ms := Drained(s.lane);
      && Runs(s, TurnStart(ms, x)) && End(s, TurnStart(ms, x)) == t
      && t == s.(lane := EMPTY_LANE, mark := |s.puts|,
                 position := Observing(if TimersOf(ms) != [] then |s.queue| else OBSERVATION_BATCH, TimersOf(ms)),
                 recorder := HandledAll(s.recorder, ms, Around(s, x.cooldown, x.healthy, x.reloaded)))
  {
    var ms := Drained(s.lane);
    var a := AfterDrain(s);
    OneStep(s, DrainStep, a);
    HandleRun(a, ms, |ms|, x);
    assert ms[..|ms|] == ms;
    var b := Midway(a, ms, |ms|, Around(s, x.cooldown, x.healthy, x.reloaded));
    t := AfterLimit(b);
    Then(a, Again(x, |ms|), b, LimitStep, t);
    EndAppend(s, [DrainStep], Again(x, |ms|) + [LimitStep], a);
  }

  lemma WatchPart(s: State, n: nat, now: int, healthy: bool) returns (t: State)
    requires s.capacity >= 1 && s.position.Observing? && n == Min(s.position.left, |s.queue|)
    ensures Runs(s, Again(PopStep(now, healthy), n) + [TurnStep])
    ensures End(s, Again(PopStep(now, healthy), n) + [TurnStep]) == t
    ensures t == Watching(s, n, now, healthy, Ticking(s.position.timers))
  {
    var a := PopRun(s, n, PopStep(now, healthy));
    t := Watching(s, n, now, healthy, Ticking(s.position.timers));
    Then(s, Again(PopStep(now, healthy), n), a, TurnStep, t);
  }

  lemma TickPart(s: State, x: Step) returns (t: State)
    requires s.capacity >= 1 && s.position.Ticking? && x.TickStep?
    requires forall m :: m in s.position.timers ==> m.kind.TimerTick?
    ensures var timers := s.position.timers;
      && Runs(s, Again(x, |timers|) + [FinishStep]) && End(s, Again(x, |timers|) + [FinishStep]) == t
      && t == s.(position := Idle, recorder := TickedAll(s.recorder, timers, Around(s, x.cooldown, x.healthy, None)))
  {
    var timers, w := s.position.timers, Around(s, x.cooldown, x.healthy, None);
    var a := TickRun(s, timers, x);
    assert timers[..|timers|] == timers && timers[|timers|..] == [];
    t := a.(position := Idle);
    Then(s, Again(x, |timers|), a, FinishStep, t);
  }

  /** The loop's turn, whose contract `PipelineWorker.Turn` meets, is a run of the step system. */
  lemma TurnIsRun(s: State, now: int, x: Step)
    requires s.capacity >= 1 && s.position.Idle? && x.HandleStep?
    requires RoutableAll(s.recorder.ops, Drained(s.lane)) && !Stops(Drained(s.lane))
    ensures Runs(s, TurnSteps(s, now, x)) && End(s, TurnSteps(s, now, x)) == TurnOutcome(s, now, x)
  {
    var ms := Drained(s.lane);
    var n := Quota(ms, |s.queue|);
    TimersOfTick(ms);
    var a := BatchPart(s, x);
    var b := WatchPart(a, n, now, x.healthy);
    var c := TickPart(b, TickStep(x.cooldown, x.healthy));
    EndAppend(a, Again(PopStep(now, x.healthy), n) + [TurnStep],
              Again(TickStep(x.cooldown, x.healthy), |TimersOf(ms)|) + [FinishStep], b);
    EndAppend(s, TurnStart(ms, x), TurnEnd(ms, n, now, x), a);
  }

  // ---------------------------------------------------------------- a turn that ends in a shutdown

  /** Drain, handle up to the message that stops the worker, take `n` more observations, close. */
  function ShutdownSteps(k: nat, n: nat, now: int, x: Step): seq<Step>
    requires x.HandleStep?
  {
    ([DrainStep] + Again(x, k + 1)) + (Again(RescueStep(now, x.healthy), n) + [CloseStep(now)])
  }

  lemma StopHandled(s: State, ms: seq<Message>, k: nat, w: World)
    requires k < |ms| && RoutableAll(s.recorder.ops, ms) && StopsWorker(ms[k])
    ensures var t := Midway(s, ms, k, w);
      && Routable(t.recorder.ops, ms[k])
      && AfterHandle(t, w) == s.(position := Closing(ms[k + 1..]),
        recorder := Ending(HandledAll(s.recorder, ms[..k], w), w))
  {
    assert ms[k..][1..] == ms[k + 1..];
  }

  /** The part up to and including the message that stops the worker. */
  lemma StopPart(s: State, k: nat, x: Step) returns (t: State)
    requires s.capacity >= 1 && s.position.Idle? && x.HandleStep?
    requires var ms := Drained(s.lane);
      && RoutableAll(s.recorder.ops, ms) && k < |ms| && StopsWorker(ms[k])
      && forall j :: 0 <= j < k ==> !StopsWorker(ms[j])
    ensures Runs(s, [DrainStep] + Again(x, k + 1)) && End(s, [DrainStep] + Again(x, k + 1)) == t
    ensures var ms, w := Drained(s.lane), Around(s, x.cooldown, x.healthy, x.reloaded);
      t == s.(lane := EMPTY_LANE, mark := |s.puts|, position := Closing(ms[k + 1..]),
              recorder := Ending(HandledAll(s.recorder, ms[..k], w), w))
  {
    var ms, w := Drained(s.lane), Around(s, x.cooldown, x.healthy, x.reloaded);
    var a := AfterDrain(s);
    OneStep(s, DrainStep, a);
    HandleRun(a, ms, k, x);
    StopHandled(a, ms, k, w);
    t := AfterHandle(Midway(a, ms, k, w), w);
    OnceMore(a, x, k, Midway(a, ms, k, w), t);
    EndAppend(s, [DrainStep], Again(x, k + 1), a);
  }

  lemma ClosePart(s: State, n: nat, now: int, healthy: bool) returns (t: State)
    requires s.capacity >= 1 && s.position.Closing? && n <= |s.queue|
    ensures var steps := Again(RescueStep(now, healthy), n) + [CloseStep(now)];
      Runs(s, steps) && End(s, steps) == t
    ensures t == s.(queue := s.queue[n..], fates := s.fates + seq(n, _ => true), position := Closed(s.position.batch),
                    recorder := Logged(WatchedAll(s.recorder, s.queue[..n], now, healthy), CloseWork(now)))
  {
    var a := RescueRun(s, n, RescueStep(now, healthy));
    t := a.(recorder := Logged(a.recorder, CloseWork(now)), position := Closed(s.position.batch));
    Then(s, Again(RescueStep(now, healthy), n), a, CloseStep(now), t);
  }

  /** A message that stops the worker does nothing by itself. */
  lemma StopDoesNothing(r: Recorder, m: Message, w: World)
    requires StopsWorker(m) && Routable(r.ops, m)
    ensures Handled(r, m, w) == r
  {
  }

  lemma HandledSnoc(r: Recorder, front: seq<Message>, m: Message, all: seq<Message>, w: World)
    requires RoutableAll(r.ops, all) && all == front + [m] && StopsWorker(m)
    ensures RoutableAll(r.ops, front) && HandledAll(r, all, w) == HandledAll(r, front, w)
  {
    assert all[..|all| - 1] == front && all[|all| - 1] == m;
    assert forall j :: 0 <= j < |front| ==> front[j] == all[j];
    StopDoesNothing(HandledAll(r, front, w), m, w);
  }

  lemma UpToStopHandled(r: Recorder, ms: seq<Message>, k: nat, w: World)
    requires RoutableAll(r.ops, ms) && k < |ms| && StopsWorker(ms[k])
    requires forall j :: 0 <= j < k ==> !StopsWorker(ms[j])
    ensures UpToStop(ms) == ms[..k + 1]
    ensures HandledAll(r, UpToStop(ms), w) == HandledAll(r, ms[..k], w)
  {
    StopsHere(ms, k);
    HandledSnoc(r, ms[..k], ms[k], ms[..k + 1], w);
  }

  /** A turn that meets a stop message at position `k`, followed by the shutdown: forced when `n` is 0,
      else taking the `n` oldest observations before it closes every episode. */
  lemma ShutdownIsRun(s: State, k: nat, n: nat, now: int, x: Step) returns (t: State)
    requires s.capacity >= 1 && s.position.Idle? && x.HandleStep? && n <= |s.queue|
    requires var ms := Drained(s.lane);
      && RoutableAll(s.recorder.ops, ms) && k < |ms| && StopsWorker(ms[k])
      && forall j :: 0 <= j < k ==> !StopsWorker(ms[j])
    ensures Runs(s, ShutdownSteps(k, n, now, x)) && End(s, ShutdownSteps(k, n, now, x)) == t
    ensures var ms, w := Drained(s.lane), Around(s, x.cooldown, x.healthy, x.reloaded);
      t.recorder == Logged(WatchedAll(Ending(HandledAll(s.recorder, UpToStop(ms), w), w), s.queue[..n], now, x.healthy),
                           CloseWork(now))
    ensures t.position == Closed(Drained(s.lane)[k + 1..]) && t.queue == s.queue[n..] && t.lane == EMPTY_LANE
  {
    UpToStopHandled(s.recorder, Drained(s.lane), k, Around(s, x.cooldown, x.healthy, x.reloaded));
    var a := StopPart(s, k, x);
    t := ClosePart(a, n, now, x.healthy);
    EndAppend(s, [DrainStep] + Again(x, k + 1), Again(RescueStep(now, x.healthy), n) + [CloseStep(now)], a);
  }
}
