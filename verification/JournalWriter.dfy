/** The journal writer as an object (journal.py) over fallible storage, each method proved against the
    functions on values. */
module JournalWriters {
  import opened Basics
  import opened Journal
  import opened JournalOrder

  /** The files, the one open handle with the text it holds, and the scripts that decide what fails,
      when the handle passes its text on by itself, and what the clock says. */
  class Storage {
    var files: map<nat, seq<Line>>
    var pending: seq<Line>
    var held: bool
    var faults: seq<bool>
    var spills: seq<bool>
    var times: seq<int>
    ghost var safety: Safety

    ghost function View(): Disk
      reads this
    {
      Disk(files, pending, held, faults, spills, times, safety)
    }

    constructor (files: map<nat, seq<Line>>, faults: seq<bool>, spills: seq<bool>, times: seq<int>)
      ensures View() == Disk(files, [], false, faults, spills, times, NOTHING_WRITTEN)
    {
      safety := NOTHING_WRITTEN;
      this.files, pending, held := files, [], false;
      this.faults, this.spills, this.times := faults, spills, times;
    }

    method Try() returns (ok: bool)
      modifies `faults
      ensures View() == Used(old(View())) && ok == !Fails(old(View()))
    {
      ok := faults == [] || !faults[0];
      if faults != [] {
        faults := faults[1..];
      }
    }

    method Now() returns (t: int)
      modifies `times
      ensures View() == Ticked(old(View())) && t == Clock(old(View()))
    {
      if times == [] {
        return 0;
      }
      t, times := times[0], times[1..];
    }

    /** What the handle holds goes to the end of the live file. */
    method Settle()
      modifies `files, `pending, `safety
      ensures View() == Settled(old(View()))
    {
      if pending != [] {
        safety := safety.(loose := safety.loose + pending);
        files := files[0 := (if 0 in files then files[0] else []) + pending];
        pending := [];
      }
    }

    method Write(line: Line) returns (ok: bool)
      modifies this
      ensures Out(View(), ok) == Accept(old(View()), line)
    {
      ok := Try();
      if ok {
        pending := pending + [line];
        safety := safety.(taken := safety.taken + [line]);
        var spill := spills != [] && spills[0];
        if spills != [] {
          spills := spills[1..];
        }
        if spill {
          Settle();
        }
      }
    }

    method Flush() returns (ok: bool)
      modifies this
      ensures Out(View(), ok) == FlushFile(old(View()))
    {
      ok := Try();
      if ok {
        Settle();
      }
    }

    method Fsync() returns (ok: bool)
      modifies this
      ensures Out(View(), ok) == Journal.Fsync(old(View()))
    {
      ok := Try();
      if ok {
        safety := safety.(taken := pending, loose := [], fsyncs := safety.fsyncs + 1);
      }
    }

    method RenameIfExists(from: nat, to: nat) returns (ok: bool)
      requires from != to
      modifies this
      ensures Out(View(), ok) == Rename(old(View()), from, to)
    {
      if from !in files {
        return true;
      }
      ok := Try();
      if ok {
        files := Renamed(files, from, to);
        safety := MovedAway(safety, from);
      }
    }

    method OpenLive() returns (ok: bool)
      modifies this
      ensures Out(View(), ok) == Open(old(View()))
    {
      ok := Try();
      if ok {
        held := true;
        if 0 !in files {
          files := files[0 := []];
        }
      }
    }

    method CloseHandle() returns (ok: bool)
      modifies this
      ensures Out(View(), ok) == Close(old(View()))
    {
      ok := Try();
      if ok {
        Settle();
      }
      pending, held := [], false;
    }

    method StatLive() returns (ok: bool, size: nat)
      modifies this
      ensures Out(View(), ok) == Stat(old(View()))
      ensures ok ==> size == Size(files[0])
    {
      ok := Try();
      size := 0;
      if ok && 0 in files {
        size := Size(files[0]);
      } else {
        ok := false;
      }
    }
  }

  class JournalWriter {
    const settings: Settings
    const storage: Storage
    var healthy: bool
    var emergency: seq<Line>
    var emergencyBytes: int
    var emergencyDropped: nat
    var unsynced: nat
    var lastSync: int
    var marker: bool
    var cleanAllowed: bool
    ghost var history: History

    ghost function View(): State
      reads this, storage
    {
      State(settings, storage.View(), healthy, Emergency(emergency, emergencyBytes, emergencyDropped), unsynced,
        lastSync, history)
    }

    ghost predicate Valid()
      reads this, storage
    {
      Sound(View())
    }

    /** Opens the live file for append; the call fails if that does.  `marker` says whether the last
        writer left its clean-stop marker. */
    constructor (settings: Settings, storage: Storage, marker: bool)
      requires settings.backups >= 1
      requires !Fails(storage.View()) && storage.pending == []
      modifies storage
      ensures Valid() && this.storage == storage && this.settings == settings
      ensures history == NO_HISTORY && healthy && emergency == [] && emergencyBytes == 0 && emergencyDropped == 0
      ensures storage.View() == Ticked(Open(old(storage.View())).after)
      ensures this.marker == marker && cleanAllowed
    {
      var _ := storage.OpenLive();
      var now := storage.Now();
      this.settings, this.storage, healthy := settings, storage, true;
      emergency, emergencyBytes, emergencyDropped, unsynced, lastSync := [], 0, 0, 0, now;
      this.marker, cleanAllowed, history := marker, true, NO_HISTORY;
    }

    method Commit(line: Line)
      requires Valid()
      modifies this, storage
      ensures Valid() && View() == Journal.Commit(old(View()), line)
      ensures !marker && cleanAllowed == old(cleanAllowed)
    {
      marker := false;
      ghost var index := |history.committed|;
      CommitKeepsSound(View(), line);
      history := history.(committed := history.committed + [line]);
      if !healthy {
        BufferLine(line, index);
        return;
      }
      AppendLineKeepsBuffer(View(), line, index);
      var ok := TryAppend(line, index);
      if !ok {
        healthy := false;
        BufferLine(line, index);
      }
    }

    /** The guarded part of `commit`; false stands for the exception. */
    method TryAppend(line: Line, ghost index: nat) returns (ok: bool)
      requires settings.backups >= 1 && emergency == [] && history.buffered == []
      modifies `emergency, `emergencyBytes, `unsynced, `lastSync, `history, storage
      ensures Out(View(), ok) == AppendLine(old(View()), line, index)
    {
      ok := WriteTo(line, index);
      if !ok {
        return;
      }
      ok := FsyncIfDue();
      if !ok {
        return;
      }
      RotatedState(View());
      ok := RotateIfFull();
      if !ok {
        return;
      }
      ok := DrainBuffer();
    }

    method Maintain()
      requires Valid()
      modifies `healthy, `emergency, `emergencyBytes, `unsynced, `lastSync, `history, storage
      ensures Valid() && View() == Journal.Maintain(old(View()))
    {
      MaintainKeepsSound(View());
      if !healthy {
        var _ := TryRecover();
        return;
      }
      if unsynced != 0 {
        var now := storage.Now();
        if now - lastSync >= settings.interval {
          var ok := SyncHandle(None);
          if !ok {
            healthy := false;
          }
        }
      }
    }

    /** Drain and sync while healthy. */
    method Settle()
      requires Valid()
      modifies `healthy, `emergency, `emergencyBytes, `unsynced, `lastSync, `history, storage
      ensures Valid() && View() == Journal.Flush(old(View()))
    {
      FlushKeepsSound(View());
      if healthy {
        var ok := DrainBuffer();
        if ok {
          ok := SyncHandle(None);
        }
        if !ok {
          healthy := false;
        }
      }
    }

    /** Leave the marker of a clean stop if nothing speaks against it, else remove it. */
    method Mark()
      modifies `marker
      ensures marker == (cleanAllowed && healthy && emergency == [])
    {
      marker := cleanAllowed && healthy && emergency == [];
    }

    method FlushAll(markClean: bool)
      requires Valid()
      modifies this, storage
      ensures Valid() && View() == Journal.Flush(old(View()))
      ensures cleanAllowed == (old(cleanAllowed) && markClean)
      ensures marker == (cleanAllowed && healthy && emergency == [])
    {
      cleanAllowed := cleanAllowed && markClean;
      Settle();
      Mark();
    }

    /** The last call: nothing may be committed after it. */
    method Close()
      requires Valid()
      modifies this, storage
      ensures View() == Shut(old(View()))
      ensures cleanAllowed == old(cleanAllowed)
      ensures marker == (cleanAllowed && healthy && emergency == [])
    {
      var wasHealthy := healthy;
      Settle();
      if !wasHealthy || healthy {
        var ok := CloseFile();
        healthy := healthy && ok;
      }
      Mark();
    }

    method TryRecover() returns (ok: bool)
      requires Valid()
      modifies `healthy, `emergency, `emergencyBytes, `unsynced, `lastSync, `history, storage
      ensures Valid() && Out(View(), ok) == Recover(old(View()))
    {
      RecoverKeepsSound(View());
      if healthy {
        return true;
      }
      ok := CloseFile();
      ok := storage.OpenLive();
      if !ok {
        return;
      }
      healthy := true;
      ok := DrainBuffer();
      if ok {
        ok := SyncHandle(None);
      }
      if !ok {
        healthy := false;
      }
    }

    method WriteTo(line: Line, ghost index: nat) returns (ok: bool)
      modifies `unsynced, `history, storage
      ensures Out(View(), ok) == WriteLine(old(View()), line, index)
    {
      ok := storage.Write(line);
      if ok {
        unsynced := unsynced + Bytes(line);
        history := history.(handed := history.handed + [index]);
        history := if storage.pending == [] then Landed(history) else history;
      }
    }

    method Flush() returns (ok: bool)
      modifies `history, storage
      ensures Out(View(), ok) == FlushHandle(old(View()))
    {
      ok := storage.Flush();
      history := if ok then Landed(history) else history;
    }

    method CloseFile() returns (ok: bool)
      modifies `history, storage
      ensures Out(View(), ok) == CloseHandle(old(View()))
    {
      ok := storage.CloseHandle();
      history := if ok then Landed(history) else Vanished(history);
    }

    method FsyncIfDue() returns (ok: bool)
      modifies `unsynced, `lastSync, `history, storage
      ensures Out(View(), ok) == MaybeFsync(old(View()))
    {
      var now := storage.Now();
      if now - lastSync >= settings.interval {
        ok := SyncHandle(Some(now));
      } else {
        ok := true;
      }
    }

    method SyncHandle(now: Option<int>) returns (ok: bool)
      modifies `unsynced, `lastSync, `history, storage
      ensures Out(View(), ok) == Sync(old(View()), now)
    {
      ok := Flush();
      if !ok {
        return;
      }
      ok := storage.Fsync();
      if !ok {
        return;
      }
      if now.Some? {
        lastSync := now.value;
      } else {
        lastSync := storage.Now();
      }
      unsynced := 0;
    }

    method RotateIfFull() returns (ok: bool)
      requires settings.backups >= 1
      modifies `unsynced, `lastSync, `history, storage
      ensures Out(View(), ok) == MaybeRotate(old(View()))
    {
      ok := Flush();
      if !ok {
        return;
      }
      var size;
      ok, size := storage.StatLive();
      if !ok || size < settings.maxBytes {
        return;
      }
      ok := SyncHandle(None);
      if !ok {
        return;
      }
      ok := RollFiles();
    }

    method RollFiles() returns (ok: bool)
      requires settings.backups >= 1
      modifies `history, storage
      ensures Out(View(), ok) == Roll(old(View()))
    {
      ok := CloseFile();
      if ok {
        history := history.(overwritten := history.overwritten + Overwritten(storage.View(), settings.backups));
        ok := ReshelveFiles();
      }
    }

    method ReshelveFiles() returns (ok: bool)
      requires settings.backups >= 1
      modifies storage
      ensures Out(storage.View(), ok) == Reshelve(old(storage.View()), settings.backups)
    {
      ghost var closed := storage.View();
      var index := settings.backups - 1;
      while index > 0
        invariant 0 <= index <= settings.backups - 1
        invariant ShiftAll(storage.View(), index) == ShiftAll(closed, settings.backups - 1)
        decreases index
      {
        ok := storage.RenameIfExists(index, index + 1);
        if !ok {
          return;
        }
        index := index - 1;
      }
      ok := storage.RenameIfExists(0, 1);
      if !ok {
        return;
      }
      ok := storage.OpenLive();
    }

    method BufferLine(line: Line, ghost index: nat)
      requires |history.buffered| == |emergency|
      modifies `emergency, `emergencyBytes, `emergencyDropped, `history
      ensures View() == Buffer(old(View()), line, index)
    {
      ghost var s := View();
      while (|emergency| >= settings.maxEvents || emergencyBytes + Bytes(line) > settings.emergencyBytes)
        && emergency != []
        invariant |history.buffered| == |emergency|
        invariant Trim(View().emergency, history, Bytes(line), settings)
          == Trim(s.emergency, s.history, Bytes(line), settings)
        decreases |emergency|
      {
        emergencyBytes := emergencyBytes - Bytes(emergency[0]);
        emergencyDropped := emergencyDropped + 1;
        history := history.(buffered := history.buffered[1..], lost := history.lost + [history.buffered[0]]);
        emergency := emergency[1..];
      }
      emergency := emergency + [line];
      emergencyBytes := emergencyBytes + Bytes(line);
      history := history.(buffered := history.buffered + [index]);
    }

    /** The oldest buffered line leaves the buffer once it is written. */
    method MoveOldest() returns (ok: bool)
      requires |history.buffered| == |emergency| && emergency != []
      modifies `emergency, `emergencyBytes, `unsynced, `history, storage
      ensures |history.buffered| == |emergency|
      ensures ok ==> |emergency| == |old(emergency)| - 1 && DrainLines(View()) == DrainLines(old(View()))
      ensures !ok ==> Out(View(), false) == DrainLines(old(View()))
    {
      ok := WriteTo(emergency[0], history.buffered[0]);
      if ok {
        history := history.(buffered := history.buffered[1..]);
        emergencyBytes := emergencyBytes - Bytes(emergency[0]);
        emergency := emergency[1..];
      }
    }

    method DrainBuffer() returns (ok: bool)
      requires |history.buffered| == |emergency|
      modifies `emergency, `emergencyBytes, `unsynced, `lastSync, `history, storage
      ensures Out(View(), ok) == DrainEmergency(old(View()))
    {
      if emergency == [] {
        return true;
      }
      ghost var s := View();
      while emergency != []
        invariant |history.buffered| == |emergency|
        invariant DrainLines(View()) == DrainLines(s)
        decreases |emergency|
      {
        ok := MoveOldest();
        if !ok {
          return;
        }
      }
      ok := FsyncIfDue();
    }
  }
}
