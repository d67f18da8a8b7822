/** The live pipeline (pipeline.py, capture.py) as a step system: capture threads, the timer thread,
    requests from outside, and one worker.  A step is one lock-protected call together with the
    thread-local work before the next one; steps interleave freely. */
module Pipeline {
  import opened Basics
  import M = Models
  import opened Control
  import opened OpsState
  import opened Worker

  const OBSERVATION_BATCH: nat := 64

  /** Where a capture thread is: about to open its adapter, reading, failed, or gone. */
  datatype Phase = Opening | Reading | Broken | Gone

  /** A source: its thread, cumulative kernel counters, evictions its last put caused and has not
      yet reported, and (history) the state its last lifecycle message names. */
  datatype Producer = Producer(
    point: string,
    phase: Phase,
    stopping: bool,
    generation: nat,
    packets: nat,
    drops: nat,
    evicted: nat,
    named: Link
  )

  datatype Position =
    | Idle
    | Handling(batch: seq<Message>, timers: seq<Message>)
    | Observing(left: nat, timers: seq<Message>)
    | Ticking(timers: seq<Message>)
    | Closing(batch: seq<Message>)
    | Closed(batch: seq<Message>)
    | Dead(batch: seq<Message>)

  /** `puts`, `fates` and `mark` are history: every observation ever put; for each that left the
      queue, whether it was handled (or evicted); and how many had been put at the last drain. */
  datatype State = State(
    capacity: nat,
    queue: seq<M.Observation>,
    lane: Lane,
    position: Position,
    recorder: Recorder,
    producers: seq<Producer>,
    puts: seq<M.Observation>,
    fates: seq<bool>,
    mark: nat
  )

  datatype Step =
    | OpenStep(i: nat, at: int, session: string)
    | FailStep(i: nat, at: int, generation: Option<string>, detail: string)
    | RetryStep(i: nat, at: int, detail: string)
    | ExitStep(i: nat)
    | AskStopStep(i: nat)
    | SayStoppedStep(i: nat, at: int, generation: Option<string>)
    | PutStep(i: nat, observation: M.Observation)
    | ReportStep(i: nat, at: int)
    | StatsStep(i: nat, at: int, session: string, packets: nat, drops: nat)
    | RequestStep(kind: Kind, at: int)
    | DrainStep
    | HandleStep(cooldown: int, healthy: bool, reloaded: Option<string>)
    | CrashStep(healthy: bool)
    | LimitStep
    | PopStep(now: int, healthy: bool)
    | TurnStep
    | TickStep(cooldown: int, healthy: bool)
    | FinishStep
    | QuitStep(healthy: bool)
    | RescueStep(now: int, healthy: bool)
    | CloseStep(now: int)

  /** A capture thread that caused evictions reports them before it does anything else. */
  predicate Ready(s: State, i: nat, phases: set<Phase>) {
    i < |s.producers| && s.producers[i].evicted == 0 && s.producers[i].phase in phases
  }

  predicate Enabled(s: State, step: Step) {
    match step
    case OpenStep(i, _, _) => Ready(s, i, {Opening})
    case FailStep(i, _, _, _) => Ready(s, i, {Opening, Reading})
    case RetryStep(i, _, _) => Ready(s, i, {Broken}) && !s.producers[i].stopping
    case ExitStep(i) => Ready(s, i, {Opening, Reading, Broken})
      && (s.producers[i].stopping || s.producers[i].phase.Broken?)
    case AskStopStep(i) => i < |s.producers|
    case SayStoppedStep(i, _, _) => i < |s.producers| && s.producers[i].stopping
    case PutStep(i, o) => Ready(s, i, {Reading}) && o.capturePoint == s.producers[i].point
    case ReportStep(i, _) => i < |s.producers| && s.producers[i].evicted > 0
    case StatsStep(i, _, _, _, _) => Ready(s, i, {Reading})
    case RequestStep(kind, _) => kind.TimerTick? || kind.ShutdownRequest? || kind.ForceShutdown? || kind.ReloadRequest?
    case DrainStep => s.position.Idle?
    case HandleStep(_, _, _) => s.position.Handling? && s.position.batch != []
      && Routable(s.recorder.ops, s.position.batch[0])
    case CrashStep(_) => s.position.Handling? && s.position.batch != []
      && Refusable(s.position.batch[0]) && Routable(s.recorder.ops, s.position.batch[0])
    case LimitStep => s.position.Handling? && s.position.batch == []
    case PopStep(_, _) => s.position.Observing? && s.position.left > 0 && s.queue != []
    case TurnStep => s.position.Observing? && (s.position.left == 0 || s.queue == [])
    case TickStep(_, _) => s.position.Ticking? && s.position.timers != []
      && Routable(s.recorder.ops, s.position.timers[0])
    case FinishStep => s.position.Ticking? && s.position.timers == []
    case QuitStep(_) => s.position.Idle? && s.queue == []
    case RescueStep(_, _) => s.position.Closing? && s.queue != []
    case CloseStep(_) => s.position.Closing?
  }

  function Send(s: State, m: Message): State { s.(lane := Placed(s.lane, m)) }

  function With(s: State, i: nat, p: Producer): State
    requires i < |s.producers|
  {
    s.(producers := s.producers[i := p])
  }

  function Around(s: State, cooldown: int, healthy: bool, reloaded: Option<string>): World {
    World(|s.queue|, s.capacity, cooldown, healthy, reloaded)
  }

  /** `put_drop_oldest`: evict from the front, append, and remember how many were evicted. */
  function AfterPut(s: State, i: nat, o: M.Observation): State
    requires i < |s.producers| && s.capacity >= 1
  {
    var n := Evicted(s.queue, s.capacity);
    With(s, i, s.producers[i].(evicted := n)).(
      queue := s.queue[n..] + [o],
      puts := s.puts + [o],
      fates := s.fates + seq(n, _ => false))
  }

  function AfterDrain(s: State): State {
    s.(lane := EMPTY_LANE, position := Handling(Drained(s.lane), []), mark := |s.puts|)
  }

  function AfterTick(s: State, w: World): State
    requires s.position.Ticking? && s.position.timers != [] && Routable(s.recorder.ops, s.position.timers[0])
  {
    s.(recorder := Handled(s.recorder, s.position.timers[0], w), position := Ticking(s.position.timers[1..]))
  }

  function AfterHandle(s: State, w: World): State
    requires s.position.Handling? && s.position.batch != [] && Routable(s.recorder.ops, s.position.batch[0])
  {
    var m, rest, timers := s.position.batch[0], s.position.batch[1..], s.position.timers;
    if m.kind.TimerTick? then s.(position := Handling(rest, timers + [m])) else
      s.(recorder := Taken(s.recorder, m, w),
         position := if StopsWorker(m) then Closing(rest) else Handling(rest, timers))
  }

  /** The first message's event is refused, which ends the worker. */
  function AfterCrash(s: State, w: World): State
    requires s.position.Handling? && s.position.batch != []
      && Refusable(s.position.batch[0]) && Routable(s.recorder.ops, s.position.batch[0])
  {
    s.(recorder := Stricken(Refused(s.recorder, s.position.batch[0]), w), position := Dead(s.position.batch[1..]))
  }

  function AfterPop(s: State, now: int, w: World, position: Position): State
    requires s.queue != []
  {
    s.(queue := s.queue[1..], fates := s.fates + [true],
       recorder := Watched(s.recorder, s.queue[0], now, w), position := position)
  }

  /** Steps in which a source sends a control message. */
  predicate Speaks(step: Step) {
    step.OpenStep? || step.FailStep? || step.RetryStep? || step.SayStoppedStep? || step.ReportStep? || step.StatsStep?
  }

  /** The source after the step. */
  function Moved(p: Producer, step: Step): Producer
    requires Speaks(step)
  {
    match step
    case OpenStep(_, _, _) => p.(phase := Reading, generation := p.generation + 1, named := Up)
    case FailStep(_, _, _, _) => p.(phase := Broken, named := Down)
    case RetryStep(_, _, _) => p.(phase := Opening, named := Retry)
    case SayStoppedStep(_, _, _) => p.(named := Halted)
    case ReportStep(_, _) => p.(evicted := 0)
    case StatsStep(_, _, _, packets, drops) => p.(packets := p.packets + packets, drops := p.drops + drops)
    case _ => p
  }

  /** What it says: statistics are cumulative, and only the first opening is not a recovery. */
  function Words(p: Producer, step: Step): Message
    requires Speaks(step)
  {
    match step
    case OpenStep(_, at, session) =>
      Event(if p.generation == 0 then Established else Kind.Recovered, at, p.point, Some(session), None)
    case FailStep(_, at, generation, detail) => Event(Failed, at, p.point, generation, Some(detail))
    case RetryStep(_, at, detail) => Event(Retrying, at, p.point, None, Some(detail))
    case SayStoppedStep(_, at, generation) => Event(Stopped, at, p.point, generation, None)
    case ReportStep(_, at) => Dropped(at, p.point, p.evicted)
    case StatsStep(_, at, session, packets, drops) =>
      StatsMessage(at, SourceStats(p.point, session, p.packets + packets, p.drops + drops))
    case _ => Plain(Kind.TimerTick, 0)
  }

  function AfterSay(s: State, step: Step): State
    requires Speaks(step) && step.i < |s.producers|
  {
    Send(With(s, step.i, Moved(s.producers[step.i], step)), Words(s.producers[step.i], step))
  }

  /** Steps of the worker thread. */
  predicate Works(step: Step) {
    step.DrainStep? || step.HandleStep? || step.CrashStep? || step.LimitStep? || step.PopStep? || step.TurnStep?
    || step.TickStep? || step.FinishStep? || step.QuitStep? || step.RescueStep? || step.CloseStep?
  }

  /** The worker reads the queue size when timers wait, so that they follow what is queued by then. */
  function AfterLimit(s: State): State
    requires s.position.Handling?
  {
    s.(position := Observing(if s.position.timers != [] then |s.queue| else OBSERVATION_BATCH, s.position.timers))
  }

  function AfterWork(s: State, step: Step): State
    requires Works(step) && Enabled(s, step)
  {
    match step
    case DrainStep => AfterDrain(s)
    case HandleStep(cooldown, healthy, reloaded) => AfterHandle(s, Around(s, cooldown, healthy, reloaded))
    case CrashStep(healthy) => AfterCrash(s, Around(s, 0, healthy, None))
    case LimitStep => AfterLimit(s)
    case PopStep(now, healthy) =>
      AfterPop(s, now, Around(s, 0, healthy, None), Observing(s.position.left - 1, s.position.timers))
    case TurnStep => s.(position := Ticking(s.position.timers))
    case TickStep(cooldown, healthy) => AfterTick(s, Around(s, cooldown, healthy, None))
    case FinishStep => s.(position := Idle)
    case QuitStep(healthy) => s.(recorder := Ending(s.recorder, Around(s, 0, healthy, None)), position := Closing([]))
    case RescueStep(now, healthy) => AfterPop(s, now, Around(s, 0, healthy, None), s.position)
    case CloseStep(now) => s.(recorder := Logged(s.recorder, CloseWork(now)), position := Closed(s.position.batch))
    case _ => s
  }

  /** Everything else: requests from outside, stop flags, thread exits and puts. */
  function AfterRest(s: State, step: Step): State
    requires s.capacity >= 1 && Enabled(s, step) && !Works(step) && !Speaks(step)
  {
    match step
    case ExitStep(i) => With(s, i, s.producers[i].(phase := Gone))
    case AskStopStep(i) => With(s, i, s.producers[i].(stopping := true))
    case PutStep(i, o) => AfterPut(s, i, o)
    case RequestStep(kind, at) => Send(s, Plain(kind, at))
    case _ => s
  }

  function Next(s: State, step: Step): State
    requires s.capacity >= 1 && Enabled(s, step)
  {
    if Works(step) then AfterWork(s, step) else if Speaks(step) then AfterSay(s, step) else AfterRest(s, step)
  }

  lemma SayIsNext(s: State, step: Step)
    requires s.capacity >= 1 && Speaks(step) && Enabled(s, step)
    ensures AfterSay(s, step) == Next(s, step)
  {
  }

  // ---------------------------------------------------------------- runs

  /** Sources with distinct, non-empty names, none of them started, and nothing queued. */
  ghost predicate Fresh(s: State) {
    && s.capacity >= 1
    && (forall i :: 0 <= i < |s.producers| ==>
          var p := s.producers[i]; p.point != "" && p == Producer(p.point, Opening, false, 0, 0, 0, 0, Unstarted))
    && (forall i, j :: 0 <= i < j < |s.producers| ==> s.producers[i].point != s.producers[j].point)
    && s.queue == [] && s.lane == EMPTY_LANE && s.position.Idle?
    && s.recorder == Recorder(s.recorder.ops, None, None, 0, 0, []) && Unused(s.recorder.ops, Points(s.producers))
    && s.puts == [] && s.fates == [] && s.mark == 0
  }

  /** Nothing is recorded but the policy and the journal's health. */
  predicate Unused(o: Ops, points: set<string>) {
    && o.sources == Initial(points).sources && o.lastKernel == Initial(points).lastKernel
    && o.appDrops == 0 && o.kernelDrops == 0 && o.causes <= {NoPolicy, JournalUnavailable}
  }

  function Points(producers: seq<Producer>): set<string> {
    set p | p in producers :: p.point
  }

  predicate Runs(s: State, steps: seq<Step>)
    requires s.capacity >= 1
    decreases |steps|, 0
  {
    steps == [] ||
    (Runs(s, steps[..|steps| - 1]) && Enabled(End(s, steps[..|steps| - 1]), steps[|steps| - 1]))
  }

  /** The state after the steps. */
  function End(s: State, steps: seq<Step>): (r: State)
    requires s.capacity >= 1 && Runs(s, steps)
    ensures r.capacity == s.capacity
    decreases |steps|, 1
  {
    if steps == [] then s else Next(End(s, steps[..|steps| - 1]), steps[|steps| - 1])
  }

  /** Messages taken from the lane that the worker has not handled. */
  function Batch(position: Position): seq<Message> {
    if position.Handling? || position.Closing? || position.Closed? || position.Dead? then position.batch else []
  }

  /** Timer messages set aside until the queue has been worked on. */
  function Timers(position: Position): seq<Message> {
    if position.Handling? || position.Observing? || position.Ticking? then position.timers else []
  }

  ghost predicate TimersOnly(s: State) {
    forall m :: m in Timers(s.position) ==> m.kind.TimerTick?
  }

  lemma StepKeepsTimersOnly(s: State, step: Step)
    requires s.capacity >= 1 && TimersOnly(s) && Enabled(s, step)
    ensures TimersOnly(Next(s, step))
  {
  }

  ghost predicate Sources(s: State) {
    s.capacity >= 1 && forall i :: 0 <= i < |s.producers| ==> s.producers[i].point != ""
  }

  lemma StepKeepsSources(s: State, step: Step)
    requires Sources(s) && Enabled(s, step)
    ensures Sources(Next(s, step))
  {
  }
}
