/** When drop incidents are announced and closed, in terms of the messages the worker handles: exactly
    at a timer that comes the cooldown after the last drop, with the interval since the first one. */
module IncidentTiming {
  import opened Basics
  import opened Control
  import opened OpsState
  import opened Worker
  import opened Pipeline
  import opened PipelineRuns
  import opened PipelineIncidents

  // ---------------------------------------------------------------- what happened

  /** One step as far as incidents go: the message handled, if one was, in which surroundings, and what
      was logged for it. */
  datatype Beat = Beat(message: Option<Message>, world: World, logged: seq<Work>)

  /** The total of the last statistics handled for a point, zero before the first. */
  function LastTotal(bs: seq<Beat>, point: string): nat {
    if bs == [] then 0 else
      var m := bs[|bs| - 1].message;
      if m.Some? && m.value.kind.Stats? && m.value.stats.Some? && m.value.stats.value.point == point
      then m.value.stats.value.drops else LastTotal(bs[..|bs| - 1], point)
  }

  /** The message reports drops not reported before `bs`: evictions, or a counter that has grown. */
  predicate Adds(bs: seq<Beat>, message: Option<Message>, cause: Cause) {
    message.Some? &&
    if cause == AppQueueDrops then message.value.kind.ObservationDropped? && message.value.drops > 0
    else message.value.kind.Stats? && message.value.stats.Some?
         && message.value.stats.value.drops > LastTotal(bs, message.value.stats.value.point)
  }

  predicate IsGap(work: Work, cause: Cause) {
    work.NoticeWork? && work.notice.GapNotice? && work.notice.cause == cause
  }

  /** A coverage gap of the cause was logged. */
  predicate GapIn(logged: seq<Work>, cause: Cause) {
    logged != [] && (GapIn(logged[..|logged| - 1], cause) || IsGap(logged[|logged| - 1], cause))
  }

  predicate IsKernel(work: Work) { work.NoticeWork? && work.notice.KernelNotice? }

  predicate KernelIn(logged: seq<Work>) {
    logged != [] && (KernelIn(logged[..|logged| - 1]) || IsKernel(logged[|logged| - 1]))
  }

  /** The time of the first message that added drops since the cause's last gap: its open incident. */
  function OpenedAt(bs: seq<Beat>, cause: Cause): Option<int> {
    if bs == [] then None else
      var front, last := bs[..|bs| - 1], bs[|bs| - 1];
      var before := OpenedAt(front, cause);
      if GapIn(last.logged, cause) then None
      else if Adds(front, last.message, cause) && before.None? then Some(last.message.value.at)
      else before
  }

  /** The time of the last message that added drops. */
  function AddedAt(bs: seq<Beat>, cause: Cause): Option<int> {
    if bs == [] then None else
      var front, last := bs[..|bs| - 1], bs[|bs| - 1];
      if Adds(front, last.message, cause) then Some(last.message.value.at) else AddedAt(front, cause)
  }

  /** How many drops the message adds. */
  function Added(bs: seq<Beat>, message: Option<Message>, cause: Cause): nat {
    if !Adds(bs, message, cause) then 0
    else if cause == AppQueueDrops then message.value.drops
    else message.value.stats.value.drops - LastTotal(bs, message.value.stats.value.point)
  }

  /** All drops added so far. */
  function Total(bs: seq<Beat>, cause: Cause): nat {
    if bs == [] then 0 else
      Total(bs[..|bs| - 1], cause) + Added(bs[..|bs| - 1], bs[|bs| - 1].message, cause)
  }

  /** A timer that closes the open incident: the last drop lies at least the cooldown before it, and for
      the queue less than half of it is filled. */
  predicate Due(bs: seq<Beat>, message: Option<Message>, w: World, cause: Cause) {
    && message.Some? && message.value.kind.TimerTick?
    && OpenedAt(bs, cause).Some? && AddedAt(bs, cause).Some?
    && message.value.at - AddedAt(bs, cause).value >= w.cooldown
    && (cause == AppQueueDrops ==> 2 * w.depth < w.capacity)
  }

  /** The notice gives all drops so far and the interval from the incident's first one to the timer. */
  ghost predicate GapsRight(bs: seq<Beat>, b: Beat, cause: Cause) {
    forall i :: 0 <= i < |b.logged| && IsGap(b.logged[i], cause) ==>
      && b.message.Some? && b.logged[i].notice.end == b.message.value.at
      && b.logged[i].notice.start.Some? && b.logged[i].notice.start == OpenedAt(bs, cause)
      && b.logged[i].notice.drops == Total(bs, cause)
  }

  /** A kernel notice repeats the statistics: the point, its generation, what they add, and their total. */
  ghost predicate KernelsRight(bs: seq<Beat>, b: Beat) {
    forall i :: 0 <= i < |b.logged| && IsKernel(b.logged[i]) ==>
      && b.message.Some? && b.message.value.kind.Stats? && b.message.value.stats.Some?
      && var s := b.message.value.stats.value;
         b.logged[i].notice == KernelNotice(s.point, s.generation, Added(bs, b.message, KernelDrops), s.drops)
  }

  /** What the beat logs is what was due. */
  ghost predicate Right(bs: seq<Beat>, b: Beat) {
    && (GapIn(b.logged, AppQueueDrops) <==> Due(bs, b.message, b.world, AppQueueDrops))
    && (GapIn(b.logged, KernelDrops) <==> Due(bs, b.message, b.world, KernelDrops))
    && (KernelIn(b.logged) <==> Adds(bs, b.message, KernelDrops) && OpenedAt(bs, KernelDrops).None?)
    && GapsRight(bs, b, AppQueueDrops) && GapsRight(bs, b, KernelDrops) && KernelsRight(bs, b)
  }

  // ---------------------------------------------------------------- what the worker remembers

  /** The worker's incident variables are what the beats say. */
  ghost predicate Timed(r: Recorder, bs: seq<Beat>) {
    && r.appStart == OpenedAt(bs, AppQueueDrops) && r.kernelStart == OpenedAt(bs, KernelDrops)
    && (AddedAt(bs, AppQueueDrops).Some? ==> r.lastApp == AddedAt(bs, AppQueueDrops).value)
    && (AddedAt(bs, KernelDrops).Some? ==> r.lastKernel == AddedAt(bs, KernelDrops).value)
    && (r.appStart.Some? ==> AddedAt(bs, AppQueueDrops).Some?)
    && (r.kernelStart.Some? ==> AddedAt(bs, KernelDrops).Some?)
    && (forall p :: p in r.ops.lastKernel ==> r.ops.lastKernel[p] == LastTotal(bs, p))
    && (forall p :: p !in r.ops.lastKernel ==> LastTotal(bs, p) == 0)
    && r.ops.appDrops == Total(bs, AppQueueDrops) && r.ops.kernelDrops == Total(bs, KernelDrops)
  }

  function LogMore(old_: seq<Work>, now: seq<Work>): seq<Work> { if |old_| <= |now| then now[|old_|..] else [] }

  lemma Snoc(bs: seq<Beat>, b: Beat)
    ensures (bs + [b])[..|bs + [b]| - 1] == bs && (bs + [b])[|bs + [b]| - 1] == b
  {
  }

  lemma NoneLogged()
    ensures forall cause :: !GapIn([], cause)
    ensures !KernelIn([])
  {
  }

  lemma OneLogged(work: Work)
    ensures forall cause :: GapIn([work], cause) <==> IsGap(work, cause)
    ensures KernelIn([work]) <==> IsKernel(work)
  {
    assert [work][..0] == [];
  }

  lemma MoreLogged(logged: seq<Work>, work: Work)
    ensures forall cause :: GapIn(logged + [work], cause) <==> GapIn(logged, cause) || IsGap(work, cause)
    ensures KernelIn(logged + [work]) <==> KernelIn(logged) || IsKernel(work)
  {
    assert (logged + [work])[..|logged + [work]| - 1] == logged;
  }

  // ---------------------------------------------------------------- steps that are not about drops

  /** The incident variables are untouched. */
  predicate SameTimes(r: Recorder, s: Recorder) {
    && s.appStart == r.appStart && s.kernelStart == r.kernelStart && s.lastApp == r.lastApp
    && s.lastKernel == r.lastKernel && s.ops.lastKernel == r.ops.lastKernel
    && s.ops.appDrops == r.ops.appDrops && s.ops.kernelDrops == r.ops.kernelDrops
  }

  lemma QuietBeat(r: Recorder, s: Recorder, bs: seq<Beat>, b: Beat)
    requires Timed(r, bs) && SameTimes(r, s)
    requires forall cause :: !GapIn(b.logged, cause)
    requires !KernelIn(b.logged)
    requires b.message.Some? ==> !b.message.value.kind.TimerTick? && !b.message.value.kind.ObservationDropped?
                                 && !b.message.value.kind.Stats?
    ensures Timed(s, bs + [b]) && Right(bs, b)
  {
    Snoc(bs, b);
    NoGaps(b.logged, AppQueueDrops);
    NoGaps(b.logged, KernelDrops);
    NoKernels(b.logged);
  }

  lemma {:induction false} NoKernels(logged: seq<Work>)
    requires !KernelIn(logged)
    ensures forall i :: 0 <= i < |logged| ==> !IsKernel(logged[i])
  {
    if logged != [] {
      NoKernels(logged[..|logged| - 1]);
    }
  }

  lemma {:induction false} NoGaps(logged: seq<Work>, cause: Cause)
    requires !GapIn(logged, cause)
    ensures forall i :: 0 <= i < |logged| ==> !IsGap(logged[i], cause)
  {
    if logged != [] {
      NoGaps(logged[..|logged| - 1], cause);
    }
  }

  // ---------------------------------------------------------------- drop reports

  lemma DropBeat(r: Recorder, m: Message, w: World, bs: seq<Beat>, b: Beat)
    requires Timed(r, bs) && m.kind.ObservationDropped? && m.drops > 0 && b == Beat(Some(m), w, [])
    ensures Timed(Published(HandledDrops(r, m), w), bs + [b]) && Right(bs, b)
  {
    Snoc(bs, b);
    NoneLogged();
  }

  /** What statistics log. */
  function StatsLog(r: Recorder, m: Message): seq<Work>
    requires m.stats.Some?
  {
    var s := m.stats.value;
    var delta := KernelDelta(r.ops, s.point, s.drops);
    if delta > 0 && r.kernelStart.None? then [NoticeWork(KernelNotice(s.point, s.generation, delta, s.drops))] else []
  }

  lemma StatsLogged(r: Recorder, m: Message, w: World)
    requires m.stats.Some? && m.stats.value.point in r.ops.sources
    ensures var s, t := m.stats.value, Published(HandledStats(r, m), w);
      var grown := KernelDelta(r.ops, s.point, s.drops) > 0;
      && t.log == r.log + StatsLog(r, m)
      && t.appStart == r.appStart && t.lastApp == r.lastApp
      && t.kernelStart == (if grown && r.kernelStart.None? then Some(m.at) else r.kernelStart)
      && t.lastKernel == (if grown then m.at else r.lastKernel)
      && t.ops.lastKernel == r.ops.lastKernel[s.point := s.drops]
      && t.ops.appDrops == r.ops.appDrops
        && t.ops.kernelDrops == r.ops.kernelDrops + KernelDelta(r.ops, s.point, s.drops)
  {
    NothingAfter(r.log);
  }

  lemma StatsBeat(r: Recorder, m: Message, w: World, bs: seq<Beat>, b: Beat)
    requires Timed(r, bs) && m.kind.Stats? && m.stats.Some? && m.stats.value.point in r.ops.sources
    requires b == Beat(Some(m), w, StatsLog(r, m))
    ensures Timed(Published(HandledStats(r, m), w), bs + [b]) && Right(bs, b)
  {
    Snoc(bs, b);
    StatsLogged(r, m, w);
    var s := m.stats.value;
    var delta := KernelDelta(r.ops, s.point, s.drops);
    NoneLogged();
    OneLogged(NoticeWork(KernelNotice(s.point, s.generation, delta, s.drops)));
    assert delta > 0 <==> s.drops > LastTotal(bs, s.point);
  }

  // ---------------------------------------------------------------- timers

  /** What a timer logs. */
  function TimerLog(r: Recorder, m: Message, w: World): seq<Work> {
    [TickWork(m.at)]
    + (if AppClears(r, m.at, w)
       then [NoticeWork(GapNotice(AppQueueDrops, r.ops.appDrops, r.appStart, m.at))] else [])
    + (if KernelDrops in r.ops.causes && m.at - r.lastKernel >= w.cooldown
       then [NoticeWork(GapNotice(KernelDrops, r.ops.kernelDrops, r.kernelStart, m.at))] else [])
  }

  lemma TimerLogged(r: Recorder, m: Message, w: World)
    requires m.kind.TimerTick?
    ensures var s := Published(HandledTimer(r, m, w), w);
      && s.log == r.log + TimerLog(r, m, w)
      && s.appStart == (if AppClears(r, m.at, w) then None else r.appStart)
      && s.kernelStart == (if KernelDrops in r.ops.causes && m.at - r.lastKernel >= w.cooldown then None
                           else r.kernelStart)
      && s.lastApp == r.lastApp && s.lastKernel == r.lastKernel && s.ops.lastKernel == r.ops.lastKernel
      && s.ops.appDrops == r.ops.appDrops && s.ops.kernelDrops == r.ops.kernelDrops
  {
    var a := Logged(r, TickWork(m.at));
    var b := AppCleared(a, m.at, w);
    var c := KernelCleared(b, a.ops.causes, m.at, w);
    assert HandledTimer(r, m, w) == c;
    assert b.log == r.log + [TickWork(m.at)]
      + (if AppClears(r, m.at, w)
         then [NoticeWork(GapNotice(AppQueueDrops, r.ops.appDrops, r.appStart, m.at))] else []);
    assert c.log == b.log
      + (if KernelDrops in r.ops.causes && m.at - r.lastKernel >= w.cooldown
         then [NoticeWork(GapNotice(KernelDrops, r.ops.kernelDrops, r.kernelStart, m.at))] else []);
  }

  lemma TimerGaps(r: Recorder, m: Message, w: World)
    ensures var logged := TimerLog(r, m, w);
      && (GapIn(logged, AppQueueDrops) <==> AppClears(r, m.at, w))
      && (GapIn(logged, KernelDrops) <==> KernelDrops in r.ops.causes && m.at - r.lastKernel >= w.cooldown)
      && !KernelIn(logged)
      && (forall i :: 0 <= i < |logged| && IsGap(logged[i], AppQueueDrops) ==>
            logged[i].notice.start == r.appStart && logged[i].notice.end == m.at
            && logged[i].notice.drops == r.ops.appDrops)
      && (forall i :: 0 <= i < |logged| && IsGap(logged[i], KernelDrops) ==>
            logged[i].notice.start == r.kernelStart && logged[i].notice.end == m.at
            && logged[i].notice.drops == r.ops.kernelDrops)
  {
    var app := NoticeWork(GapNotice(AppQueueDrops, r.ops.appDrops, r.appStart, m.at));
    var kernel := NoticeWork(GapNotice(KernelDrops, r.ops.kernelDrops, r.kernelStart, m.at));
    OneLogged(TickWork(m.at));
    MoreLogged([TickWork(m.at)], app);
    MoreLogged([TickWork(m.at)], kernel);
    MoreLogged([TickWork(m.at)] + [app], kernel);
    NothingAfter([TickWork(m.at)]);
    NothingAfter([TickWork(m.at)] + [app]);
  }

  lemma TimerBeat(r: Recorder, m: Message, w: World, bs: seq<Beat>, b: Beat)
    requires Timed(r, bs) && Tracked(r) && m.kind.TimerTick?
    requires b == Beat(Some(m), w, TimerLog(r, m, w))
    ensures Timed(Published(HandledTimer(r, m, w), w), bs + [b]) && Right(bs, b)
  {
    TimerGaps(r, m, w);
    TimerRight(r, m, w, bs, b);
    TimerTimed(r, m, w, bs, b);
  }

  lemma TimerRight(r: Recorder, m: Message, w: World, bs: seq<Beat>, b: Beat)
    requires Timed(r, bs) && Tracked(r) && m.kind.TimerTick?
    requires b == Beat(Some(m), w, TimerLog(r, m, w))
    ensures Right(bs, b)
  {
    TimerGaps(r, m, w);
    NoKernels(b.logged);
  }

  lemma TimerTimed(r: Recorder, m: Message, w: World, bs: seq<Beat>, b: Beat)
    requires Timed(r, bs) && Tracked(r) && m.kind.TimerTick?
    requires b.message == Some(m)
    requires GapIn(b.logged, AppQueueDrops) <==> AppClears(r, m.at, w)
    requires GapIn(b.logged, KernelDrops) <==> KernelDrops in r.ops.causes && m.at - r.lastKernel >= w.cooldown
    ensures Timed(Published(HandledTimer(r, m, w), w), bs + [b])
  {
    Snoc(bs, b);
    TimerLogged(r, m, w);
  }

  // ---------------------------------------------------------------- any message

  lemma LogTail(a: seq<Work>, b: seq<Work>)
    ensures LogMore(a, a + b) == b
    ensures LogMore(a, a) == []
  {
  }

  /** One entry that is not about drops. */
  lemma OneLog(r: Recorder, s: Recorder, bs: seq<Beat>, b: Beat, work: Work)
    requires Timed(r, bs) && SameTimes(r, s) && s.log == r.log + [work] && b.logged == LogMore(r.log, s.log)
    requires work.NoticeWork? ==> work.notice.SourceNotice?
    requires b.message.Some? ==> !b.message.value.kind.TimerTick? && !b.message.value.kind.ObservationDropped?
                                 && !b.message.value.kind.Stats?
    ensures Timed(s, bs + [b]) && Right(bs, b)
  {
    LogTail(r.log, [work]);
    OneLogged(work);
    QuietBeat(r, s, bs, b);
  }

  lemma MessageBeat(r: Recorder, m: Message, w: World, bs: seq<Beat>, b: Beat)
    requires Timed(r, bs) && Tracked(r) && Routable(r.ops, m) && Weighs(m)
    requires b == Beat(Some(m), w, LogMore(r.log, Handled(r, m, w).log))
    ensures Timed(Handled(r, m, w), bs + [b]) && Right(bs, b)
  {
    if m.kind.TimerTick? {
      TimerLogged(r, m, w);
      LogTail(r.log, TimerLog(r, m, w));
      TimerBeat(r, m, w, bs, b);
    } else if m.kind.Stats? && m.stats.Some? {
      StatsLogged(r, m, w);
      LogTail(r.log, StatsLog(r, m));
      StatsBeat(r, m, w, bs, b);
    } else {
      PlainBeat(r, m, w, bs, b);
    }
  }

  lemma PlainBeat(r: Recorder, m: Message, w: World, bs: seq<Beat>, b: Beat)
    requires Timed(r, bs) && Routable(r.ops, m) && Weighs(m) && !m.kind.TimerTick? && (m.kind.Stats? ==> m.stats.None?)
    requires b == Beat(Some(m), w, LogMore(r.log, Handled(r, m, w).log))
    ensures Timed(Handled(r, m, w), bs + [b]) && Right(bs, b)
  {
    if m.kind.ReloadRequest? || IsLifecycle(m.kind) {
      var work := PlainLog(r, m, w);
      OneLog(r, Handled(r, m, w), bs, b, work);
    } else {
      LogTail(r.log, []);
      if m.kind.ObservationDropped? {
        DropBeat(r, m, w, bs, b);
      } else {
        EmptyBeat(r, bs, b);
      }
    }
  }

  lemma PlainLog(r: Recorder, m: Message, w: World) returns (work: Work)
    requires Routable(r.ops, m) && (m.kind.ReloadRequest? || IsLifecycle(m.kind))
    ensures SameTimes(r, Handled(r, m, w)) && Handled(r, m, w).log == r.log + [work]
    ensures work.NoticeWork? ==> work.notice.SourceNotice?
  {
    work := if m.kind.ReloadRequest? then ReloadWork(w.reloaded)
            else NoticeWork(SourceNotice(m.kind, m.point.value, m.generation, m.detail));
  }

  lemma EmptyBeat(r: Recorder, bs: seq<Beat>, b: Beat)
    requires Timed(r, bs) && b.logged == []
    requires b.message.Some? ==> !b.message.value.kind.TimerTick? && !b.message.value.kind.ObservationDropped?
                                 && (b.message.value.kind.Stats? ==> b.message.value.stats.None?)
    ensures Timed(r, bs + [b]) && Right(bs, b)
  {
    Snoc(bs, b);
    NoneLogged();
  }

  // ---------------------------------------------------------------- whole runs

  /** The message a step handles, if it handles one. */
  function MessageOf(s: State, step: Step): Option<Message>
    requires Enabled(s, step)
  {
    if step.TickStep? then Some(s.position.timers[0])
    else if step.HandleStep? && !s.position.batch[0].kind.TimerTick? && !StopsWorker(s.position.batch[0])
    then Some(s.position.batch[0]) else None
  }

  function WorldOf(s: State, step: Step): World {
    if step.TickStep? then Around(s, step.cooldown, step.healthy, None)
    else if step.HandleStep? then Around(s, step.cooldown, step.healthy, step.reloaded)
    else Around(s, 0, true, None)
  }

  function BeatOf(s: State, step: Step): Beat
    requires s.capacity >= 1 && Enabled(s, step)
  {
    Beat(MessageOf(s, step), WorldOf(s, step), LogMore(s.recorder.log, Next(s, step).recorder.log))
  }

  function Beats(start: State, steps: seq<Step>): (bs: seq<Beat>)
    requires start.capacity >= 1 && Runs(start, steps)
    ensures |bs| == |steps|
    decreases |steps|
  {
    if steps == [] then [] else
      var front := steps[..|steps| - 1];
      Beats(start, front) + [BeatOf(End(start, front), steps[|steps| - 1])]
  }

  lemma StepBeat(s: State, step: Step, bs: seq<Beat>)
    requires s.capacity >= 1 && Enabled(s, step) && Timed(s.recorder, bs) && Tame(s)
    ensures Timed(Next(s, step).recorder, bs + [BeatOf(s, step)]) && Right(bs, BeatOf(s, step))
  {
    var b := BeatOf(s, step);
    if b.message.Some? {
      HandledBeat(s, step, b.message.value);
      MessageBeat(s.recorder, b.message.value, b.world, bs, b);
    } else if step.CrashStep? || step.PopStep? || step.RescueStep? || step.CloseStep? {
      var work := SingleLog(s, step);
      OneLog(s.recorder, Next(s, step).recorder, bs, b, work);
    } else {
      SilentStep(s, step);
      QuietBeat(s.recorder, Next(s, step).recorder, bs, b);
    }
  }

  lemma HandledBeat(s: State, step: Step, m: Message)
    requires s.capacity >= 1 && Enabled(s, step) && MessageOf(s, step) == Some(m) && Tame(s)
    ensures Routable(s.recorder.ops, m) && Weighs(m)
    ensures Next(s, step).recorder == Handled(s.recorder, m, WorldOf(s, step))
  {
    if step.TickStep? {
      assert m in Timers(s.position);
    } else {
      assert m in Batch(s.position);
    }
  }

  lemma SingleLog(s: State, step: Step) returns (work: Work)
    requires s.capacity >= 1 && Enabled(s, step)
    requires step.CrashStep? || step.PopStep? || step.RescueStep? || step.CloseStep?
    ensures SameTimes(s.recorder, Next(s, step).recorder) && Next(s, step).recorder.log == s.recorder.log + [work]
    ensures work.NoticeWork? ==> work.notice.SourceNotice?
  {
    if step.CrashStep? {
      var m := s.position.batch[0];
      work := if m.kind.ReloadRequest? then ReloadWork(None)
              else NoticeWork(SourceNotice(m.kind, m.point.value, m.generation, m.detail));
    } else if step.CloseStep? {
      work := CloseWork(step.now);
    } else {
      work := ObserveWork(s.queue[0], Or(s.queue[0].monotonicAt, step.now));
    }
  }

  lemma SilentStep(s: State, step: Step)
    requires s.capacity >= 1 && Enabled(s, step) && MessageOf(s, step).None?
    requires !step.CrashStep? && !step.PopStep? && !step.RescueStep? && !step.CloseStep?
    ensures SameTimes(s.recorder, Next(s, step).recorder)
    ensures BeatOf(s, step).logged == []
  {
    LogTail(s.recorder.log, []);
  }

  ghost predicate AllRight(bs: seq<Beat>) {
    (forall k :: 0 <= k < |bs| ==> Right(bs[..k], bs[k])) == true
  }

  lemma MoreRight(front: seq<Beat>, b: Beat, bs: seq<Beat>)
    requires bs == front + [b] && Right(front, b) && AllRight(front)
    ensures AllRight(bs)
  {
    forall k | 0 <= k < |bs| ensures Right(bs[..k], bs[k]) {
      assert bs[..k] == if k < |front| then front[..k] else front;
    }
  }

  lemma {:induction false} RunTimed(start: State, steps: seq<Step>)
    requires Fresh(start) && Runs(start, steps)
    ensures Timed(End(start, steps).recorder, Beats(start, steps))
    ensures AllRight(Beats(start, steps))
    decreases |steps|
  {
    if steps != [] {
      var front, step, before := LastStep(start, steps);
      RunTimed(start, front);
      RunKeepsTame(start, front);
      StepBeat(before, step, Beats(start, front));
      MoreRight(Beats(start, front), BeatOf(before, step), Beats(start, steps));
    }
  }

  /** Over every run, at every step: a coverage gap of a cause is announced exactly when a timer is handled
      while an incident of the cause is open and the last message that added drops lies at least the
      cooldown before the timer (and, for the queue, less than half of it is filled); it names the
      interval from the incident's first message to the timer.  A kernel incident is announced exactly
      by the first statistics that add drops. */
  lemma IncidentsTimed(start: State, steps: seq<Step>, k: nat)
    requires Fresh(start) && Runs(start, steps) && k < |steps|
    ensures var bs := Beats(start, steps);
      && (GapIn(bs[k].logged, AppQueueDrops) <==> Due(bs[..k], bs[k].message, bs[k].world, AppQueueDrops))
      && (GapIn(bs[k].logged, KernelDrops) <==> Due(bs[..k], bs[k].message, bs[k].world, KernelDrops))
      && (KernelIn(bs[k].logged) <==>
            Adds(bs[..k], bs[k].message, KernelDrops) && OpenedAt(bs[..k], KernelDrops).None?)
      && GapsRight(bs[..k], bs[k], AppQueueDrops) && GapsRight(bs[..k], bs[k], KernelDrops)
      && KernelsRight(bs[..k], bs[k])
  {
    RunTimed(start, steps);
  }
}
