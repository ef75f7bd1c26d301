/** The object of `Checkpoint.dfy` takes the steps of `CheckpointRuns.dfy`: an update nobody interferes
    with on its path is a legal run from claiming the lock to dropping it, with the same effect on the
    file and the temp files. */
module CheckpointSteps {
  import opened Messages
  import CP = Checkpoint
  import opened CheckpointRuns

  ghost predicate Takes(s: State, run: seq<Action>, s': State) {
    Legal(s, run) && Run(s, run) == s'
  }

  lemma {:induction false} TakesThen(s: State, first: seq<Action>, mid: State, a: Action)
    requires Takes(s, first, mid) && Enabled(mid, a)
    ensures Takes(s, first + [a], Next(mid, a))
    decreases |first|
  {
    if first == [] {
      assert first + [a] == [a] && [a][1..] == [];
    } else {
      assert (first + [a])[1..] == first[1..] + [a];
      TakesThen(Next(s, first[0]), first[1..], mid, a);
    }
  }

  /** Updater `tid` stands at `pc`, over this file and these temp files. */
  ghost predicate At(s: State, tid: nat, path: Path, change: CP.Change, pc: Pc, file: CP.Content, temps: map<nat, CP.Content>, nextTemp: nat) {
    && tid in s.threads && s.threads[tid].path == path && s.threads[tid].change == change && s.threads[tid].pc == pc
    && s.threads[tid].lock in s.strong
    && FileAt(s, path) == file && s.temps == temps && s.nextTemp == nextTemp
  }

  /** Nobody else is at work on the path, so its lock, old or new, is free. */
  lemma LockIsFree(s: State, tid: nat, path: Path, change: CP.Change)
    requires LockInv(s) && tid !in s.threads && forall t :: t in s.threads ==> s.threads[t].path != path
    ensures var s' := Next(s, Call(tid, path, change));
            At(s', tid, path, change, Waiting, FileAt(s, path), s.temps, s.nextTemp) && s'.threads[tid].lock !in s'.holder
  {
  }

  lemma AcquireAt(s: State, tid: nat, path: Path, change: CP.Change, file: CP.Content, temps: map<nat, CP.Content>, nextTemp: nat)
    requires At(s, tid, path, change, Waiting, file, temps, nextTemp) && s.threads[tid].lock !in s.holder
    ensures Enabled(s, Acquire(tid)) && At(Next(s, Acquire(tid)), tid, path, change, Locked(|GrantsOf(s, path)|), file, temps, nextTemp)
  {
  }

  lemma ReadAt(s: State, tid: nat, path: Path, change: CP.Change, g: nat, file: CP.Content, temps: map<nat, CP.Content>, nextTemp: nat, ioOk: bool)
    requires At(s, tid, path, change, Locked(g), file, temps, nextTemp)
    ensures Enabled(s, Read(tid, ioOk))
    ensures At(Next(s, Read(tid, ioOk)), tid, path, change,
               if ioOk && !file.Garbage? then HasRead(g, if file.Parsed? then file.cursors else map[]) else Finished(g, false), file, temps, nextTemp)
  {
  }

  lemma CreateAt(s: State, tid: nat, path: Path, change: CP.Change, g: nat, m: CP.Cursors, file: CP.Content, temps: map<nat, CP.Content>, nextTemp: nat)
    requires At(s, tid, path, change, HasRead(g, m), file, temps, nextTemp)
    ensures Enabled(s, CreateTemp(tid, true))
    ensures At(Next(s, CreateTemp(tid, true)), tid, path, change, Writing(g, m, nextTemp), file, temps[nextTemp := CP.Garbage], nextTemp + 1)
  {
  }

  lemma WriteAt(s: State, tid: nat, path: Path, change: CP.Change, g: nat, m: CP.Cursors, temp: nat,
                file: CP.Content, temps: map<nat, CP.Content>, nextTemp: nat, io: Io)
    requires At(s, tid, path, change, Writing(g, m, temp), file, temps, nextTemp)
    ensures Enabled(s, WriteTemp(tid, io))
    ensures io.Done? ==>
              At(Next(s, WriteTemp(tid, io)), tid, path, change, Written(g, m, temp), file, temps[temp := CP.Parsed(CP.Apply(m, change))], nextTemp)
    ensures io.Broken? ==>
              At(Next(s, WriteTemp(tid, io)), tid, path, change, Finished(g, false), file, if io.cleaned then temps - {temp} else temps, nextTemp)
  {
  }

  lemma RenameAt(s: State, tid: nat, path: Path, change: CP.Change, g: nat, m: CP.Cursors, temp: nat,
                 file: CP.Content, temps: map<nat, CP.Content>, nextTemp: nat, io: Io)
    requires At(s, tid, path, change, Written(g, m, temp), file, temps, nextTemp) && temp in temps
    ensures Enabled(s, Rename(tid, io))
    ensures io.Done? ==> At(Next(s, Rename(tid, io)), tid, path, change, Finished(g, true), temps[temp], temps - {temp}, nextTemp)
    ensures io.Broken? ==>
              At(Next(s, Rename(tid, io)), tid, path, change, Finished(g, false), file, if io.cleaned then temps - {temp} else temps, nextTemp)
  {
  }

  lemma Ends(s0: State, first: seq<Action>, s: State, tid: nat, path: Path, change: CP.Change, g: nat, ok: bool,
             file: CP.Content, temps: map<nat, CP.Content>, nextTemp: nat) returns (s': State)
    requires Takes(s0, first, s) && At(s, tid, path, change, Finished(g, ok), file, temps, nextTemp)
    ensures Takes(s0, first + [Release(tid)] + [DropLock(tid)], s')
    ensures FileAt(s', path) == file && s'.temps == temps && s'.nextTemp == nextTemp && tid !in s'.threads
    ensures s'.acked == if ok then s.acked + {(path, g)} else s.acked
  {
    var s1 := Next(s, Release(tid));
    TakesThen(s0, first, s, Release(tid));
    TakesThen(s0, first + [Release(tid)], s1, DropLock(tid));
    s' := Next(s1, DropLock(tid));
  }

  /** The steps of an update, by how its file operations go. */
  function UpdateRun(tid: nat, path: Path, change: CP.Change, io: CP.Io, garbage: bool): (run: seq<Action>) {
    var front := [Call(tid, path, change)] + [Acquire(tid)] + [Read(tid, io.readOk)];
    if !io.readOk || garbage then front + [Release(tid)] + [DropLock(tid)]
    else if !io.writeOk then front + [CreateTemp(tid, true)] + [WriteTemp(tid, Broken(io.cleanOk))] + [Release(tid)] + [DropLock(tid)]
    else
      front + [CreateTemp(tid, true)] + [WriteTemp(tid, Done)] + [Rename(tid, if io.renameOk then Done else Broken(io.cleanOk))]
      + [Release(tid)] + [DropLock(tid)]
  }

  /** How far an update gets before it can fail on the file. */
  lemma Reads(s: State, tid: nat, path: Path, change: CP.Change, ioOk: bool) returns (s': State)
    requires LockInv(s) && tid !in s.threads && forall t :: t in s.threads ==> s.threads[t].path != path
    ensures Takes(s, [Call(tid, path, change)] + [Acquire(tid)] + [Read(tid, ioOk)], s') && s'.acked == s.acked
    ensures var file, g := FileAt(s, path), |GrantsOf(s, path)|;
            At(s', tid, path, change,
               if ioOk && !file.Garbage? then HasRead(g, if file.Parsed? then file.cursors else map[]) else Finished(g, false), file, s.temps, s.nextTemp)
  {
    var s1 := Next(s, Call(tid, path, change));
    LockIsFree(s, tid, path, change);
    TakesThen(s, [], s, Call(tid, path, change));
    assert [] + [Call(tid, path, change)] == [Call(tid, path, change)];
    AcquireAt(s1, tid, path, change, FileAt(s, path), s.temps, s.nextTemp);
    var s2 := Next(s1, Acquire(tid));
    TakesThen(s, [Call(tid, path, change)], s1, Acquire(tid));
    ReadAt(s2, tid, path, change, |GrantsOf(s, path)|, FileAt(s, path), s.temps, s.nextTemp, ioOk);
    TakesThen(s, [Call(tid, path, change)] + [Acquire(tid)], s2, Read(tid, ioOk));
    s' := Next(s2, Read(tid, ioOk));
  }

  /** Writing the temp file, from a map that was read. */
  lemma Writes(s0: State, first: seq<Action>, s: State, tid: nat, path: Path, change: CP.Change, g: nat, m: CP.Cursors,
               file: CP.Content, temps: map<nat, CP.Content>, nextTemp: nat, io: Io) returns (s': State)
    requires Takes(s0, first, s) && At(s, tid, path, change, HasRead(g, m), file, temps, nextTemp)
    ensures Takes(s0, first + [CreateTemp(tid, true)] + [WriteTemp(tid, io)], s') && s'.acked == s.acked
    ensures io.Done? ==>
              At(s', tid, path, change, Written(g, m, nextTemp), file, temps[nextTemp := CP.Parsed(CP.Apply(m, change))], nextTemp + 1)
    ensures io.Broken? ==>
              At(s', tid, path, change, Finished(g, false), file, if io.cleaned then temps - {nextTemp} else temps[nextTemp := CP.Garbage], nextTemp + 1)
  {
    CreateAt(s, tid, path, change, g, m, file, temps, nextTemp);
    var s1 := Next(s, CreateTemp(tid, true));
    TakesThen(s0, first, s, CreateTemp(tid, true));
    var created := temps[nextTemp := CP.Garbage];
    WriteAt(s1, tid, path, change, g, m, nextTemp, file, created, nextTemp + 1, io);
    TakesThen(s0, first + [CreateTemp(tid, true)], s1, WriteTemp(tid, io));
    s' := Next(s1, WriteTemp(tid, io));
    assert created - {nextTemp} == temps - {nextTemp};
    assert created[nextTemp := CP.Parsed(CP.Apply(m, change))] == temps[nextTemp := CP.Parsed(CP.Apply(m, change))];
  }

  lemma Renames(s0: State, first: seq<Action>, s: State, tid: nat, path: Path, change: CP.Change, g: nat, m: CP.Cursors,
                file: CP.Content, temps: map<nat, CP.Content>, temp: nat, bytes: CP.Content, io: Io) returns (s': State)
    requires Takes(s0, first, s) && At(s, tid, path, change, Written(g, m, temp), file, temps[temp := bytes], temp + 1)
    ensures Takes(s0, first + [Rename(tid, io)], s') && s'.acked == s.acked
    ensures io.Done? ==> At(s', tid, path, change, Finished(g, true), bytes, temps - {temp}, temp + 1)
    ensures io.Broken? ==>
              At(s', tid, path, change, Finished(g, false), file, if io.cleaned then temps - {temp} else temps[temp := bytes], temp + 1)
  {
    RenameAt(s, tid, path, change, g, m, temp, file, temps[temp := bytes], temp + 1, io);
    TakesThen(s0, first, s, Rename(tid, io));
    s' := Next(s, Rename(tid, io));
    assert temps[temp := bytes] - {temp} == temps - {temp};
  }

  /** What an update leaves behind: its outcome, the file and the temp files. */
  ghost predicate Left(change: CP.Change, io: CP.Io, s: State, path: Path, s': State, ok: bool) {
    var file, temp := FileAt(s, path), s.nextTemp;
    var bytes := if file.Garbage? then file else CP.Parsed(CP.Apply(if file.Parsed? then file.cursors else map[], change));
    && ok == (io.readOk && io.writeOk && io.renameOk && !file.Garbage?)
    && FileAt(s', path) == (if ok then bytes else file)
    && s'.acked == (if ok then s.acked + {(path, |GrantsOf(s, path)|)} else s.acked)
    && (if !io.readOk || file.Garbage? then s'.temps == s.temps && s'.nextTemp == temp
        else && s'.nextTemp == temp + 1
             && s'.temps == if ok || io.cleanOk then s.temps - {temp} else s.temps[temp := if io.writeOk then bytes else CP.Garbage])
  }

  lemma Updates(s: State, tid: nat, path: Path, change: CP.Change, io: CP.Io) returns (s': State, ok: bool)
    requires LockInv(s) && tid !in s.threads && forall t :: t in s.threads ==> s.threads[t].path != path
    ensures Takes(s, UpdateRun(tid, path, change, io, FileAt(s, path).Garbage?), s') && Left(change, io, s, path, s', ok)
  {
    var file, g, temp := FileAt(s, path), |GrantsOf(s, path)|, s.nextTemp;
    var first := [Call(tid, path, change)] + [Acquire(tid)] + [Read(tid, io.readOk)];
    var s1 := Reads(s, tid, path, change, io.readOk);
    ok := false;
    if !io.readOk || file.Garbage? {
      s' := Ends(s, first, s1, tid, path, change, g, false, file, s.temps, temp);
    } else {
      var m := if file.Parsed? then file.cursors else map[];
      s', ok := WritesOn(s, first, s1, tid, path, change, g, m, file, io);
    }
  }

  lemma WritesOn(s: State, first: seq<Action>, s1: State, tid: nat, path: Path, change: CP.Change, g: nat, m: CP.Cursors,
                 file: CP.Content, io: CP.Io) returns (s': State, ok: bool)
    requires Takes(s, first, s1) && At(s1, tid, path, change, HasRead(g, m), file, s.temps, s.nextTemp) && s1.acked == s.acked
    requires first == [Call(tid, path, change)] + [Acquire(tid)] + [Read(tid, io.readOk)] && io.readOk
    requires file == FileAt(s, path) && !file.Garbage? && m == (if file.Parsed? then file.cursors else map[]) && g == |GrantsOf(s, path)|
    ensures Takes(s, UpdateRun(tid, path, change, io, false), s') && Left(change, io, s, path, s', ok)
  {
    var temp, bytes := s.nextTemp, CP.Parsed(CP.Apply(m, change));
    var s2 := Writes(s, first, s1, tid, path, change, g, m, file, s.temps, temp, if io.writeOk then Done else Broken(io.cleanOk));
    if !io.writeOk {
      ok := false;
      s' := Ends(s, first + [CreateTemp(tid, true)] + [WriteTemp(tid, Broken(io.cleanOk))], s2, tid, path, change, g, false, file,
                 if io.cleanOk then s.temps - {temp} else s.temps[temp := CP.Garbage], temp + 1);
    } else {
      var rename := if io.renameOk then Done else Broken(io.cleanOk);
      var s3 := Renames(s, first + [CreateTemp(tid, true)] + [WriteTemp(tid, Done)], s2, tid, path, change, g, m, file, s.temps, temp, bytes, rename);
      ok := io.renameOk;
      s' := Ends(s, first + [CreateTemp(tid, true)] + [WriteTemp(tid, Done)] + [Rename(tid, rename)], s3, tid, path, change, g, ok,
                 if ok then bytes else file, if ok || io.cleanOk then s.temps - {temp} else s.temps[temp := bytes], temp + 1);
    }
  }

  method UpdateTakes(store: CP.FileCheckpointStore, change: CP.Change, io: CP.Io, ghost s: State, ghost tid: nat, ghost path: Path)
    returns (ok: bool, ghost s': State)
    requires LockInv(s) && tid !in s.threads && forall t :: t in s.threads ==> s.threads[t].path != path
    requires FileAt(s, path) == store.disk.file && s.temps == store.disk.temps && s.nextTemp == store.disk.nextTemp
    modifies store.disk
    ensures Takes(s, UpdateRun(tid, path, change, io, old(store.disk.file).Garbage?), s')
    ensures FileAt(s', path) == store.disk.file && s'.temps == store.disk.temps && s'.nextTemp == store.disk.nextTemp
    ensures s'.acked == if ok then s.acked + {(path, |GrantsOf(s, path)|)} else s.acked
  {
    ghost var done;
    s', done := Updates(s, tid, path, change, io);
    ok := store.Update(change, io);
  }
}
