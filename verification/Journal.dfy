/** The evidence journal (journal.py) on values: an append log with rotation, an emergency buffer and
    recovery, on storage where any operation may fail.  A failed operation leaves the files as they
    were.  Lines written wait in the open handle until it is flushed, closed, or spills by itself. */
module Journal {
  import opened Basics
  import B = Bytes

  /** One serialized envelope with its newline. */
  datatype Line = Line(text: string)

  function Bytes(line: Line): nat { B.Utf8Length(line.text) }

  datatype Settings = Settings(maxBytes: nat, backups: nat, interval: int, maxEvents: nat, emergencyBytes: nat)

  /** History of the storage: the lines the handle took since the last successful fsync, those of them that
      are in the live file, those that left the live file without an fsync, and how many fsyncs succeeded. */
  datatype Safety = Safety(taken: seq<Line>, loose: seq<Line>, stray: seq<Line>, fsyncs: nat)

  const NOTHING_WRITTEN := Safety([], [], [], 0)

  /** File 0 is the live file, file i the backup with suffix ".i"; `held` says whether the writer
      holds the live file open, `pending` are the lines in the handle that are not in the file.
      `faults` scripts which operations fail, `spills` which writes make the handle pass everything
      on, `times` what the clock says. */
  datatype Disk = Disk(
    files: map<nat, seq<Line>>,
    pending: seq<Line>,
    held: bool,
    faults: seq<bool>,
    spills: seq<bool>,
    times: seq<int>,
    safety: Safety
  )

  datatype Emergency = Emergency(lines: seq<Line>, bytes: int, dropped: nat)

  /** History: every line committed, and as positions in that sequence the lines that reached a file,
      those in the handle, those in the emergency buffer, those the buffer dropped, and those that
      went away with a handle; and the lines of the backups that rotations overwrote. */
  datatype History = History(
    committed: seq<Line>,
    stored: seq<nat>,
    handed: seq<nat>,
    buffered: seq<nat>,
    lost: seq<nat>,
    gone: seq<nat>,
    overwritten: seq<Line>
  )

  const NO_HISTORY := History([], [], [], [], [], [], [])

  datatype State = State(
    settings: Settings,
    disk: Disk,
    healthy: bool,
    emergency: Emergency,
    unsynced: nat,
    lastSync: int,
    history: History
  )

  /** A state and whether the operation succeeded. */
  datatype Out<T> = Out(after: T, ok: bool)

  // ---------------------------------------------------------------- storage

  predicate Fails(d: Disk) { d.faults != [] && d.faults[0] }

  function Used(d: Disk): Disk { if d.faults == [] then d else d.(faults := d.faults[1..]) }

  function Clock(d: Disk): int { if d.times == [] then 0 else d.times[0] }

  function Ticked(d: Disk): Disk { if d.times == [] then d else d.(times := d.times[1..]) }

  /** fsync: what is in the live file is safe; what waits in the handle is not. */
  function Fsync(d: Disk): Out<Disk> {
    if Fails(d) then Out(Used(d), false)
    else Out(Used(d).(safety := d.safety.(taken := d.pending, loose := [], fsyncs := d.safety.fsyncs + 1)), true)
  }

  /** What the handle holds goes to the end of the live file. */
  function Settled(d: Disk): Disk {
    if d.pending == [] then d else
      d.(files := d.files[0 := (if 0 in d.files then d.files[0] else []) + d.pending], pending := [],
         safety := d.safety.(loose := d.safety.loose + d.pending))
  }

  /** A write that fails leaves the handle as it was. */
  function Accept(d: Disk, line: Line): Out<Disk> {
    if Fails(d) then Out(Used(d), false) else
      var taken := Used(d).(pending := d.pending + [line], spills := if d.spills == [] then [] else d.spills[1..],
                            safety := d.safety.(taken := d.safety.taken + [line]));
      Out(if d.spills != [] && d.spills[0] then Settled(taken) else taken, true)
  }

  function FlushFile(d: Disk): Out<Disk> {
    if Fails(d) then Out(Used(d), false) else Out(Settled(Used(d)), true)
  }

  /** `replace`: the source name goes away, what the target named before is gone. */
  function Renamed(files: map<nat, seq<Line>>, from: nat, to: nat): map<nat, seq<Line>>
    requires from in files && from != to
  {
    (files - {from})[to := files[from]]
  }

  /** When the live file moves, what is not safe in it goes with it. */
  function MovedAway(s: Safety, from: nat): Safety {
    if from == 0 then s.(stray := s.stray + s.loose, loose := []) else s
  }

  /** Rename if the file exists. */
  function Rename(d: Disk, from: nat, to: nat): Out<Disk>
    requires from != to
  {
    if from !in d.files then Out(d, true)
    else if Fails(d) then Out(Used(d), false)
    else Out(Used(d).(files := Renamed(d.files, from, to), safety := MovedAway(d.safety, from)), true)
  }

  /** Opening for append creates the file when it is missing. */
  function Open(d: Disk): Out<Disk> {
    if Fails(d) then Out(Used(d), false)
    else Out(Used(d).(held := true, files := if 0 in d.files then d.files else d.files[0 := []]), true)
  }

  /** Closing flushes; when that fails the handle is closed all the same, and what it held is gone. */
  function Close(d: Disk): Out<Disk> {
    if Fails(d) then Out(Used(d).(held := false, pending := []), false)
    else Out(Settled(Used(d)).(held := false), true)
  }

  /** `stat` fails by itself when the live file is missing. */
  function Stat(d: Disk): Out<Disk> { Out(Used(d), !Fails(d) && 0 in d.files) }

  function Size(lines: seq<Line>): nat {
    if lines == [] then 0 else Size(lines[..|lines| - 1]) + Bytes(lines[|lines| - 1])
  }

  lemma {:induction false} SizeHead(lines: seq<Line>)
    requires lines != []
    ensures Size(lines) == Bytes(lines[0]) + Size(lines[1..])
  {
    if |lines| > 1 {
      SizeHead(lines[..|lines| - 1]);
      assert lines[..|lines| - 1][1..] == lines[1..][..|lines| - 2];
    }
  }

  lemma SizeSnoc(lines: seq<Line>, line: Line)
    ensures Size(lines + [line]) == Size(lines) + Bytes(line)
  {
    assert (lines + [line])[..|lines|] == lines;
  }

  // ---------------------------------------------------------------- rotation

  /** Backups `index`, `index` - 1, ..., 1 each move up by one. */
  function ShiftAll(d: Disk, index: nat): Out<Disk>
    decreases index
  {
    if index == 0 then Out(d, true) else
      var moved := Rename(d, index, index + 1);
      if !moved.ok then moved else ShiftAll(moved.after, index - 1)
  }

  /** Shift the backups, move the live file to ".1", open a new one. */
  function Reshelve(d: Disk, backups: nat): Out<Disk>
    requires backups >= 1
  {
    var shifted := ShiftAll(d, backups - 1);
    if !shifted.ok then shifted else
      var moved := Rename(shifted.after, 0, 1);
      if !moved.ok then moved else Open(moved.after)
  }

  // ---------------------------------------------------------------- the writer's operations

  function On(s: State, d: Out<Disk>): Out<State> { Out(s.(disk := d.after), d.ok) }

  /** The handle's lines reached the file, or went away with it. */
  function Landed(h: History): History { h.(stored := h.stored + h.handed, handed := []) }

  function Vanished(h: History): History { h.(gone := h.gone + h.handed, handed := []) }

  /** Hand the committed line at `index` to the handle. */
  function WriteLine(s: State, line: Line, index: nat): Out<State> {
    var d := Accept(s.disk, line);
    if !d.ok then On(s, d) else
      var h := s.history.(handed := s.history.handed + [index]);
      Out(s.(disk := d.after, unsynced := s.unsynced + Bytes(line),
             history := if d.after.pending == [] then Landed(h) else h), true)
  }

  function FlushHandle(s: State): Out<State> {
    var d := FlushFile(s.disk);
    if !d.ok then On(s, d) else Out(s.(disk := d.after, history := Landed(s.history)), true)
  }

  function CloseHandle(s: State): Out<State> {
    var d := Close(s.disk);
    Out(s.(disk := d.after, history := if d.ok then Landed(s.history) else Vanished(s.history)), d.ok)
  }

  function Sync(s: State, now: Option<int>): Out<State> {
    var flushed := FlushHandle(s);
    if !flushed.ok then flushed else
      var synced := Fsync(flushed.after.disk);
      if !synced.ok then On(flushed.after, synced)
      else if now.Some? then Out(flushed.after.(disk := synced.after, lastSync := now.value, unsynced := 0), true)
      else Out(flushed.after.(disk := Ticked(synced.after), lastSync := Clock(synced.after), unsynced := 0), true)
  }

  function MaybeFsync(s: State): Out<State> {
    var now := Clock(s.disk);
    var t := s.(disk := Ticked(s.disk));
    if now - s.lastSync >= s.settings.interval then Sync(t, Some(now)) else Out(t, true)
  }

  /** The last backup goes when the file before it is moved onto it, which a rotation does first. */
  function Overwritten(d: Disk, backups: nat): seq<Line>
    requires backups >= 1
  {
    if backups - 1 in d.files && !Fails(d) && backups in d.files then d.files[backups] else []
  }

  /** Close the live file and reshelve. */
  function Roll(s: State): Out<State>
    requires s.settings.backups >= 1
  {
    var closed := CloseHandle(s);
    if !closed.ok then closed else
      var t, n := closed.after, s.settings.backups;
      On(t.(history := t.history.(overwritten := t.history.overwritten + Overwritten(t.disk, n))), Reshelve(t.disk, n))
  }

  function MaybeRotate(s: State): Out<State>
    requires s.settings.backups >= 1
  {
    var flushed := FlushHandle(s);
    if !flushed.ok then flushed else
      var stat := Stat(flushed.after.disk);
      var t := flushed.after.(disk := stat.after);
      if !stat.ok then Out(t, false)
      else if Size(t.disk.files[0]) < s.settings.maxBytes then Out(t, true)
      else
        var synced := Sync(t, None);
        if !synced.ok then synced else Roll(synced.after)
  }

  /** Make room in the emergency buffer, oldest first. */
  function Trim(e: Emergency, h: History, bytes: nat, c: Settings): (Emergency, History)
    requires |h.buffered| == |e.lines|
    decreases |e.lines|
  {
    if (|e.lines| >= c.maxEvents || e.bytes + bytes > c.emergencyBytes) && e.lines != [] then
      Trim(Emergency(e.lines[1..], e.bytes - Bytes(e.lines[0]), e.dropped + 1),
           h.(buffered := h.buffered[1..], lost := h.lost + [h.buffered[0]]), bytes, c)
    else (e, h)
  }

  function Buffer(s: State, line: Line, index: nat): State
    requires |s.history.buffered| == |s.emergency.lines|
  {
    var (e, h) := Trim(s.emergency, s.history, Bytes(line), s.settings);
    s.(emergency := e.(lines := e.lines + [line], bytes := e.bytes + Bytes(line)),
       history := h.(buffered := h.buffered + [index]))
  }

  function FirstGone(e: Emergency): Emergency
    requires e.lines != []
  {
    e.(lines := e.lines[1..], bytes := e.bytes - Bytes(e.lines[0]))
  }

  /** Write the buffered lines, oldest first; each leaves the buffer once it is written. */
  function DrainLines(s: State): Out<State>
    requires |s.history.buffered| == |s.emergency.lines|
    decreases |s.emergency.lines|
  {
    if s.emergency.lines == [] then Out(s, true) else
      var line := s.emergency.lines[0];
      var w := WriteLine(s, line, s.history.buffered[0]);
      if !w.ok then w else
        DrainLines(w.after.(emergency := FirstGone(s.emergency),
                            history := w.after.history.(buffered := s.history.buffered[1..])))
  }

  function DrainEmergency(s: State): Out<State>
    requires |s.history.buffered| == |s.emergency.lines|
  {
    if s.emergency.lines == [] then Out(s, true) else
      var drained := DrainLines(s);
      if !drained.ok then drained else MaybeFsync(drained.after)
  }

  // ---------------------------------------------------------------- the public calls

  /** Writing one line while healthy: append, cadence fsync, rotation, and the buffer. */
  function AppendLine(s: State, line: Line, index: nat): Out<State>
    requires s.settings.backups >= 1 && s.emergency.lines == [] && s.history.buffered == []
  {
    var written := WriteLine(s, line, index);
    if !written.ok then written else
      var synced := MaybeFsync(written.after);
      if !synced.ok then synced else
        var rotated := MaybeRotate(synced.after);
        if !rotated.ok then rotated else
          RotatedState(synced.after);
          DrainEmergency(rotated.after)
  }

  /** What operations on the handle leave alone. */
  predicate Untouched(s: State, t: State) {
    && t.history.buffered == s.history.buffered && t.emergency == s.emergency
    && t.settings == s.settings && t.healthy == s.healthy
  }

  lemma SyncUntouched(s: State, now: Option<int>)
    ensures Untouched(s, Sync(s, now).after) && Sync(s, now).after.disk.held == s.disk.held
  {
  }

  lemma FsyncUntouched(s: State)
    ensures Untouched(s, MaybeFsync(s).after)
  {
    SyncUntouched(s.(disk := Ticked(s.disk)), Some(Clock(s.disk)));
  }

  lemma RollUntouched(s: State)
    requires s.settings.backups >= 1
    ensures Untouched(s, Roll(s).after)
    ensures Roll(s).ok ==> 0 in Roll(s).after.disk.files && Roll(s).after.disk.held
  {
  }

  lemma RotatedState(s: State)
    requires s.settings.backups >= 1
    ensures Untouched(s, MaybeRotate(s).after)
    ensures MaybeRotate(s).ok
      ==> 0 in MaybeRotate(s).after.disk.files && (s.disk.held ==> MaybeRotate(s).after.disk.held)
  {
    var flushed := FlushHandle(s);
    if flushed.ok {
      var t := flushed.after.(disk := Stat(flushed.after.disk).after);
      SyncUntouched(t, None);
      if Sync(t, None).ok {
        RollUntouched(Sync(t, None).after);
      }
    }
  }

  /** While unhealthy everything goes to the buffer; a failure makes the journal unhealthy and puts
      the line there even if it was already written. */
  function Commit(s: State, line: Line): State
    requires Ready(s)
  {
    var index := |s.history.committed|;
    var t := s.(history := s.history.(committed := s.history.committed + [line]));
    if !t.healthy then Buffer(t, line, index) else
      var attempt := AppendLine(t, line, index);
      if attempt.ok then attempt.after else
        AppendLineKeepsBuffer(t, line, index);
        Buffer(attempt.after.(healthy := false), line, index)
  }

  /** What the calls rely on: a healthy writer has its file and an empty buffer. */
  ghost predicate Ready(s: State) {
    && s.settings.backups >= 1
    && |s.history.buffered| == |s.emergency.lines|
    && (s.healthy ==> 0 in s.disk.files && s.disk.held && s.emergency.lines == [])
  }

  lemma AppendLineKeepsBuffer(s: State, line: Line, index: nat)
    requires s.settings.backups >= 1 && s.emergency.lines == [] && s.history.buffered == []
    ensures Untouched(s, AppendLine(s, line, index).after)
  {
    var written := WriteLine(s, line, index);
    if written.ok {
      var synced := MaybeFsync(written.after);
      FsyncUntouched(written.after);
      RotatedState(synced.after);
    }
  }

  /** Close, whatever comes of it, and open again. */
  function Reopened(s: State): Out<State> {
    var closed := CloseHandle(s).after;
    On(closed, Open(closed.disk))
  }

  function Recover(s: State): Out<State>
    requires Ready(s)
  {
    if s.healthy then Out(s, true) else
      var reopened := Reopened(s);
      if !reopened.ok then reopened else
        var drained := DrainEmergency(reopened.after.(healthy := true));
        if !drained.ok then Out(drained.after.(healthy := false), false) else
          var synced := Sync(drained.after, None);
          if !synced.ok then Out(synced.after.(healthy := false), false) else synced
  }

  /** Called by the pipeline's timer: recovery while unhealthy, else a due fsync. */
  function Maintain(s: State): State
    requires Ready(s)
  {
    if !s.healthy then Recover(s).after
    else if s.unsynced == 0 then s
    else
      var now, t := Clock(s.disk), s.(disk := Ticked(s.disk));
      if now - s.lastSync < s.settings.interval then t else
        var synced := Sync(t, None);
        if synced.ok then synced.after else synced.after.(healthy := false)
  }

  function Flush(s: State): State
    requires Ready(s)
  {
    if !s.healthy then s else
      var drained := DrainEmergency(s);
      if !drained.ok then drained.after.(healthy := false) else
        var synced := Sync(drained.after, None);
        if synced.ok then synced.after else synced.after.(healthy := false)
  }

  /** The last call: drain and sync while healthy, then close the handle. */
  function Shut(s: State): State
    requires Ready(s)
  {
    var t := Flush(s);
    if s.healthy && !t.healthy then t else
      var closed := CloseHandle(t);
      closed.after.(healthy := t.healthy && closed.ok)
  }
}
