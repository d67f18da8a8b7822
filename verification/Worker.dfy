/** The pipeline worker's own state (pipeline.py): handling one observation or one control message,
    and the drop incidents it opens and closes. */
module Worker {
  import opened Basics
  import M = Models
  import opened Control
  import opened OpsState

  /** The system events the worker commits. */
  datatype Notice =
    | KernelNotice(point: string, generation: string, delta: nat, total: nat)
    | GapNotice(cause: Cause, drops: nat, start: Option<int>, end: int)
    | SourceNotice(kind: Kind, point: string, sourceGeneration: Option<string>, detail: Option<string>)

  /** What the worker hands to the episode processor, in order; a reload with the policy revision it
      switched to, if it did.  (A reload reads the clock itself.) */
  datatype Work =
    | ObserveWork(observation: M.Observation, lifecycle: int)
    | TickWork(time: int)
    | ReloadWork(reloaded: Option<string>)
    | NoticeWork(notice: Notice)
    | CloseWork(time: int)

  datatype Recorder = Recorder(
    ops: Ops,
    appStart: Option<int>,
    kernelStart: Option<int>,
    lastApp: int,
    lastKernel: int,
    log: seq<Work>
  )

  /** What handling a message reads from outside: the queue's depth and capacity, the recovery
      cooldown, the journal's health, and the policy revision a reload switched to. */
  datatype World = World(depth: nat, capacity: nat, cooldown: int, healthy: bool, reloaded: Option<string>)

  function Logged(r: Recorder, work: Work): Recorder { r.(log := r.log + [work]) }

  function Noted(r: Recorder, notice: Notice): Recorder { Logged(r, NoticeWork(notice)) }

  function Published(r: Recorder, w: World): Recorder { r.(ops := WithJournal(r.ops, w.healthy)) }

  /** An observation is processed at its own monotonic time, or now when it has none. */
  function Watched(r: Recorder, o: M.Observation, now: int, w: World): Recorder {
    Published(Logged(r, ObserveWork(o, Or(o.monotonicAt, now))), w)
  }

  function LinkOf(kind: Kind): Link
    requires IsLifecycle(kind)
  {
    match kind
    case Established => Up
    case Recovered => Up
    case Failed => Down
    case Retrying => Retry
    case Stopped => Halted
  }

  predicate AppClears(r: Recorder, now: int, w: World) {
    AppQueueDrops in r.ops.causes && 2 * w.depth < w.capacity && now - r.lastApp >= w.cooldown
  }

  function AppCleared(r: Recorder, now: int, w: World): Recorder {
    if !AppClears(r, now, w) then r else
      var o := Cleared(r.ops, AppQueueDrops);
      Noted(r.(ops := o, appStart := None), GapNotice(AppQueueDrops, o.appDrops, r.appStart, now))
  }

  /** `causes` is the snapshot taken before either incident was cleared. */
  function KernelCleared(r: Recorder, causes: set<Cause>, now: int, w: World): Recorder {
    if KernelDrops !in causes || now - r.lastKernel < w.cooldown then r else
      var o := Cleared(r.ops, KernelDrops);
      Noted(r.(ops := o, kernelStart := None), GapNotice(KernelDrops, o.kernelDrops, r.kernelStart, now))
  }

  function Recovered(r: Recorder, now: int, w: World): Recorder {
    KernelCleared(AppCleared(r, now, w), r.ops.causes, now, w)
  }

  function StatsCounted(r: Recorder, m: Message): Recorder
    requires m.stats.Some?
  {
    var s := m.stats.value;
    var delta := KernelDelta(r.ops, s.point, s.drops);
    var next := r.(ops := WithKernelDrops(r.ops, s.point, s.drops));
    if delta == 0 then next else
      var timed := next.(lastKernel := m.at);
      if r.kernelStart.Some? then timed else
        Noted(timed.(kernelStart := Some(m.at)), KernelNotice(s.point, s.generation, delta, s.drops))
  }

  function StatsUpdate(s: SourceStats): Update {
    Update(Up, Some(s.generation), None, Some(s.packets), Some(s.drops))
  }

  /** Source messages name a configured capture point; anything else is a lookup error. */
  predicate Routable(o: Ops, m: Message) {
    && (m.kind.Stats? && m.stats.Some? ==> m.stats.value.point in o.sources)
    && (IsLifecycle(m.kind) ==> m.point.Some? && m.point.value in o.sources)
  }

  function HandledTimer(r: Recorder, m: Message, w: World): Recorder {
    Recovered(Logged(r, TickWork(m.at)), m.at, w)
  }

  function HandledReload(r: Recorder, m: Message, w: World): Recorder {
    var next := Logged(r, ReloadWork(w.reloaded));
    if w.reloaded.None? then next else next.(ops := WithPolicy(next.ops, w.reloaded))
  }

  function HandledDrops(r: Recorder, m: Message): Recorder {
    r.(ops := WithAppDrops(r.ops, m.drops), lastApp := m.at,
       appStart := if r.appStart.None? then Some(m.at) else r.appStart)
  }

  function HandledStats(r: Recorder, m: Message): Recorder
    requires m.stats.Some? && m.stats.value.point in r.ops.sources
  {
    var next := StatsCounted(r, m);
    next.(ops := WithSource(next.ops, m.stats.value.point, StatsUpdate(m.stats.value)))
  }

  function HandledLifecycle(r: Recorder, m: Message): Recorder
    requires IsLifecycle(m.kind) && m.point.Some? && m.point.value in r.ops.sources
  {
    var update := Update(LinkOf(m.kind), m.generation, m.detail, None, None);
    Noted(r.(ops := WithSource(r.ops, m.point.value, update)),
      SourceNotice(m.kind, m.point.value, m.generation, m.detail))
  }

  function Handled(r: Recorder, m: Message, w: World): Recorder
    requires Routable(r.ops, m)
  {
    if m.kind.TimerTick? then Published(HandledTimer(r, m, w), w)
    else if m.kind.ReloadRequest? then Published(HandledReload(r, m, w), w)
    else if m.kind.ObservationDropped? then Published(HandledDrops(r, m), w)
    else if m.kind.Stats? && m.stats.Some? then Published(HandledStats(r, m), w)
    else if IsLifecycle(m.kind) then Published(HandledLifecycle(r, m), w)
    else r
  }

  /** Messages whose system event repeats a text from outside and so may be too large to commit. */
  predicate Refusable(m: Message) { m.kind.ReloadRequest? || IsLifecycle(m.kind) }

  /** What was done by the time the event is refused. */
  function Refused(r: Recorder, m: Message): Recorder
    requires Refusable(m) && Routable(r.ops, m)
  {
    if m.kind.ReloadRequest? then Logged(r, ReloadWork(None)) else HandledLifecycle(r, m)
  }

  /** The exception ends the worker: the reason is raised and the state published. */
  function Stricken(r: Recorder, w: World): Recorder {
    Published(r.(ops := Raised(r.ops, WorkerDead)), w)
  }

  predicate StopsWorker(m: Message) { m.kind.ForceShutdown? || m.kind.ShutdownRequest? }

  /** The start of a shutdown. */
  function Ending(r: Recorder, w: World): Recorder {
    Published(r.(ops := Raised(r.ops, ShuttingDown)), w)
  }

  /** A message of a batch taken by the worker: handled, or the start of a shutdown (for which there
      is nothing to handle). */
  function Taken(r: Recorder, m: Message, w: World): Recorder
    requires Routable(r.ops, m)
  {
    if StopsWorker(m) then Ending(r, w) else Handled(r, m, w)
  }

  // ---------------------------------------------------------------- incidents

  /** Whether the last kernel notice in the log opened an incident. */
  predicate KernelOpen(log: seq<Work>) {
    log != [] &&
    var last := log[|log| - 1];
    if last.NoticeWork? && last.notice.KernelNotice? then true
    else if last.NoticeWork? && last.notice.GapNotice? && last.notice.cause == KernelDrops then false
    else KernelOpen(log[..|log| - 1])
  }

  /** Kernel incidents are announced once, and only an open incident is closed; every gap says when
      it began. */
  predicate Incidents(log: seq<Work>) {
    log == [] ||
    var rest, last := log[..|log| - 1], log[|log| - 1];
    && Incidents(rest)
    && (last.NoticeWork? ==>
          match last.notice
          case KernelNotice(_, _, delta, _) => !KernelOpen(rest) && delta > 0
          case GapNotice(cause, _, start, _) => start.Some? && (cause == KernelDrops ==> KernelOpen(rest))
          case SourceNotice(_, _, _, _) => true)
  }

  ghost predicate Tracked(r: Recorder) {
    && Incidents(r.log)
    && (KernelOpen(r.log) <==> r.kernelStart.Some?)
    && (KernelDrops in r.ops.causes <==> r.kernelStart.Some?)
    && (AppQueueDrops in r.ops.causes <==> r.appStart.Some?)
  }

  lemma LogGrows(log: seq<Work>, work: Work)
    ensures (log + [work])[..|log + [work]| - 1] == log
  {
  }

  lemma ClearingKeepsTracked(r: Recorder, now: int, w: World)
    requires Tracked(r)
    ensures Tracked(Recovered(r, now, w))
  {
    var o := Cleared(r.ops, AppQueueDrops);
    LogGrows(r.log, NoticeWork(GapNotice(AppQueueDrops, o.appDrops, r.appStart, now)));
    var a := AppCleared(r, now, w);
    assert Tracked(a);
    assert KernelDrops in r.ops.causes <==> KernelDrops in a.ops.causes;
    var k := Cleared(a.ops, KernelDrops);
    LogGrows(a.log, NoticeWork(GapNotice(KernelDrops, k.kernelDrops, a.kernelStart, now)));
  }

  /** Nothing about incidents changed, and at most an unrelated entry was logged. */
  predicate Apart(r: Recorder, s: Recorder) {
    && s.appStart == r.appStart && s.kernelStart == r.kernelStart
    && (KernelDrops in s.ops.causes <==> KernelDrops in r.ops.causes)
    && (AppQueueDrops in s.ops.causes <==> AppQueueDrops in r.ops.causes)
    && (s.log == r.log
        || (|s.log| == |r.log| + 1 && s.log == r.log + [s.log[|r.log|]] && Unrelated(s.log[|r.log|])))
  }

  predicate Unrelated(work: Work) { work.NoticeWork? ==> work.notice.SourceNotice? }

  lemma ApartKeepsTracked(r: Recorder, s: Recorder)
    requires Tracked(r) && Apart(r, s)
    ensures Tracked(s)
  {
    if s.log != r.log {
      LogGrows(r.log, s.log[|r.log|]);
    }
  }

  lemma PublishingKeepsTracked(r: Recorder, w: World)
    requires Tracked(r)
    ensures Tracked(Published(r, w))
  {
    ApartKeepsTracked(r, Published(r, w));
  }

  lemma StatsKeepTracked(r: Recorder, m: Message)
    requires Tracked(r) && m.stats.Some?
    ensures Tracked(StatsCounted(r, m))
  {
    var s := m.stats.value;
    LogGrows(r.log, NoticeWork(KernelNotice(s.point, s.generation, KernelDelta(r.ops, s.point, s.drops), s.drops)));
  }

  lemma StatsHandledTracked(r: Recorder, m: Message)
    requires Tracked(r) && m.stats.Some? && m.stats.value.point in r.ops.sources
    ensures Tracked(HandledStats(r, m)) == true
  {
    StatsKeepTracked(r, m);
    ApartKeepsTracked(StatsCounted(r, m), HandledStats(r, m));
  }

  lemma LifecycleHandledTracked(r: Recorder, m: Message)
    requires Tracked(r) && IsLifecycle(m.kind) && m.point.Some? && m.point.value in r.ops.sources
    ensures Tracked(HandledLifecycle(r, m)) == true
  {
    ApartKeepsTracked(r, HandledLifecycle(r, m));
  }

  lemma QuietHandledTracked(r: Recorder, m: Message, w: World)
    requires Tracked(r)
    ensures Tracked(HandledTimer(r, m, w)) == true
    ensures Tracked(HandledReload(r, m, w)) == true
  {
    ApartKeepsTracked(r, Logged(r, TickWork(m.at)));
    ClearingKeepsTracked(Logged(r, TickWork(m.at)), m.at, w);
    ApartKeepsTracked(r, HandledReload(r, m, w));
  }

  /** Reasons, incident starts and notices agree after every message, as long as drop reports carry
      at least one drop. */
  lemma HandlingKeepsTracked(r: Recorder, m: Message, w: World)
    requires Tracked(r) && Routable(r.ops, m)
    requires m.kind.ObservationDropped? ==> m.drops > 0
    ensures Tracked(Handled(r, m, w)) == true
  {
    if m.kind.TimerTick? {
      QuietHandledTracked(r, m, w);
      PublishingKeepsTracked(HandledTimer(r, m, w), w);
    } else if m.kind.ReloadRequest? {
      QuietHandledTracked(r, m, w);
      PublishingKeepsTracked(HandledReload(r, m, w), w);
    } else if m.kind.ObservationDropped? {
      PublishingKeepsTracked(HandledDrops(r, m), w);
    } else if m.kind.Stats? && m.stats.Some? {
      StatsHandledTracked(r, m);
      PublishingKeepsTracked(HandledStats(r, m), w);
    } else if IsLifecycle(m.kind) {
      LifecycleHandledTracked(r, m);
      PublishingKeepsTracked(HandledLifecycle(r, m), w);
    }
  }

  lemma EndingKeepsTracked(r: Recorder, w: World)
    requires Tracked(r)
    ensures Tracked(Ending(r, w))
  {
    ApartKeepsTracked(r, Ending(r, w));
  }

  lemma TakingKeepsTracked(r: Recorder, m: Message, w: World)
    requires Tracked(r) && Routable(r.ops, m)
    requires m.kind.ObservationDropped? ==> m.drops > 0
    ensures Tracked(Taken(r, m, w)) == true
  {
    if StopsWorker(m) {
      EndingKeepsTracked(r, w);
    } else {
      HandlingKeepsTracked(r, m, w);
    }
  }

  lemma StrikingKeepsTracked(r: Recorder, m: Message, w: World)
    requires Tracked(r) && Refusable(m) && Routable(r.ops, m)
    ensures Tracked(Stricken(Refused(r, m), w)) == true
  {
    ApartKeepsTracked(r, Refused(r, m));
    ApartKeepsTracked(Refused(r, m), Stricken(Refused(r, m), w));
  }

  lemma WatchingKeepsTracked(r: Recorder, o: M.Observation, now: int, w: World)
    requires Tracked(r)
    ensures Tracked(Watched(r, o, now, w))
  {
    ApartKeepsTracked(r, Watched(r, o, now, w));
  }
}
