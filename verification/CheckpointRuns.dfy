/** Any number of concurrent updaters of any number of checkpoint files in one process, stepped
    one atomic action at a time, with a reclaimable lock table, failing I/O and process crashes
    (`src/checkpoint.rs`: `path_lock` and `update`). */
module CheckpointRuns {
  import opened Messages
  import opened Checkpoint

  type Path = string

  /** Where an updater stands. `grant` is its place in the lock order of its path; `Writing` has an
      incomplete temp file on disk, `Written` a complete one. */
  datatype Pc =
    | Waiting
    | Locked(grant: nat)
    | HasRead(grant: nat, cursors: Cursors)
    | Writing(grant: nat, cursors: Cursors, temp: nat)
    | Written(grant: nat, cursors: Cursors, temp: nat)
    | Finished(grant: nat, ok: bool)
    | Released(grant: nat, ok: bool)

  datatype Thread = Thread(path: Path, change: Change, lock: nat, pc: Pc)

  datatype Outcome = Open | Committed | Failed

  /** Bookkeeping of one acquisition of a path's lock. */
  datatype Grant = Grant(change: Change, outcome: Outcome)

  /** `strong` is the reference count of each lock: one for the table entry, one per updater that
      still owns a clone. `grants` and `acked` are bookkeeping: the lock order of each path, and the
      grants whose update returned success. */
  datatype State = State(
    table: map<Path, nat>,
    strong: map<nat, nat>,
    holder: map<nat, nat>,
    nextLock: nat,
    threads: map<nat, Thread>,
    files: map<Path, Content>,
    temps: map<nat, Content>,
    nextTemp: nat,
    grants: map<Path, seq<Grant>>,
    acked: set<(Path, nat)>)

  function Initial(files: map<Path, Content>): (s: State) {
    State(map[], map[], map[], 0, map[], files, map[], 0, map[], {})
  }

  /** How a write or a rename went; removing the temp file of a broken one is best effort. */
  datatype Io = Done | Broken(cleaned: bool)

  function TempsAfter(temps: map<nat, Content>, temp: nat, io: Io): (r: map<nat, Content>) {
    if io.Broken? && !io.cleaned then temps else temps - {temp}
  }

  datatype Action =
    | Call(tid: nat, path: Path, change: Change)   // `path_lock`: reclaim, look up or insert, clone
    | Acquire(tid: nat)
    | Read(tid: nat, ioOk: bool)
    | CreateTemp(tid: nat, ioOk: bool)
    | WriteTemp(tid: nat, io: Io)
    | Rename(tid: nat, io: Io)
    | Release(tid: nat)                            // the guard drops first,
    | DropLock(tid: nat)                           // then the clone, and the call returns
    | Crash                                        // the process dies; files and temp files stay

  function FileAt(s: State, path: Path): (c: Content) {
    if path in s.files then s.files[path] else Absent
  }

  function GrantsOf(s: State, path: Path): (r: seq<Grant>) {
    if path in s.grants then s.grants[path] else []
  }

  predicate Enabled(s: State, a: Action) {
    match a
    case Call(tid, _, _) => tid !in s.threads
    case Acquire(tid) => tid in s.threads && s.threads[tid].pc.Waiting? && s.threads[tid].lock !in s.holder
    case Read(tid, _) => tid in s.threads && s.threads[tid].pc.Locked?
    case CreateTemp(tid, _) => tid in s.threads && s.threads[tid].pc.HasRead?
    case WriteTemp(tid, _) => tid in s.threads && s.threads[tid].pc.Writing?
    case Rename(tid, _) => tid in s.threads && s.threads[tid].pc.Written? && s.threads[tid].pc.temp in s.temps
    case Release(tid) => tid in s.threads && s.threads[tid].pc.Finished?
    case DropLock(tid) => tid in s.threads && s.threads[tid].pc.Released? && s.threads[tid].lock in s.strong
    case Crash => true
  }

  /** `retain(strong_count > 1)`: drop the locks no updater owns any more. */
  function Kept(table: map<Path, nat>, strong: map<nat, nat>): (r: map<Path, nat>) {
    map p | p in table && table[p] in strong && strong[table[p]] > 1 :: table[p]
  }

  /** Dropping the table's own reference frees a lock nobody else owns. */
  function Alive(strong: map<nat, nat>): (r: map<nat, nat>) {
    map l | l in strong && strong[l] > 1 :: strong[l]
  }

  /** Reclaim, then get or insert, then clone. */
  function ClaimLock(s: State, tid: nat, path: Path, change: Change): (s': State) {
    var kept := Kept(s.table, s.strong);
    var strong := Alive(s.strong);
    var found := path in kept;
    var lock := if found then kept[path] else s.nextLock;
    s.(table := if found then kept else kept[path := lock],
       strong := strong[lock := if found then s.strong[lock] + 1 else 2],
       nextLock := if found then s.nextLock else s.nextLock + 1,
       threads := s.threads[tid := Thread(path, change, lock, Waiting)])
  }

  function SetPc(s: State, tid: nat, pc: Pc): (s': State)
    requires tid in s.threads
  {
    s.(threads := s.threads[tid := s.threads[tid].(pc := pc)])
  }

  function Settle(s: State, path: Path, grant: nat, outcome: Outcome): (s': State) {
    if grant < |GrantsOf(s, path)|
    then s.(grants := s.grants[path := GrantsOf(s, path)[grant := GrantsOf(s, path)[grant].(outcome := outcome)]])
    else s
  }

  function Fail(s: State, tid: nat, grant: nat): (s': State)
    requires tid in s.threads
  {
    Settle(SetPc(s, tid, Finished(grant, false)), s.threads[tid].path, grant, Failed)
  }

  function Next(s: State, a: Action): (s': State)
    requires Enabled(s, a)
  {
    match a
    case Call(tid, path, change) => ClaimLock(s, tid, path, change)
    case Acquire(tid) =>
      var t := s.threads[tid];
      var order := GrantsOf(s, t.path);
      SetPc(s, tid, Locked(|order|)).(
        holder := s.holder[t.lock := tid],
        grants := s.grants[t.path := order + [Grant(t.change, Open)]])
    case Read(tid, ioOk) =>
      var t := s.threads[tid];
      var m := ReadMap(FileAt(s, t.path));
      if ioOk && m.Some? then SetPc(s, tid, HasRead(t.pc.grant, m.value)) else Fail(s, tid, t.pc.grant)
    case CreateTemp(tid, ioOk) =>
      var pc := s.threads[tid].pc;
      if ioOk
      then SetPc(s, tid, Writing(pc.grant, pc.cursors, s.nextTemp)).(temps := s.temps[s.nextTemp := Garbage], nextTemp := s.nextTemp + 1)
      else Fail(s, tid, pc.grant).(nextTemp := s.nextTemp + 1)
    case WriteTemp(tid, io) =>
      var t := s.threads[tid];
      if io.Done?
      then SetPc(s, tid, Written(t.pc.grant, t.pc.cursors, t.pc.temp)).(temps := s.temps[t.pc.temp := Parsed(Apply(t.pc.cursors, t.change))])
      else Fail(s, tid, t.pc.grant).(temps := TempsAfter(s.temps, t.pc.temp, io))
    case Rename(tid, io) =>
      var t := s.threads[tid];
      if io.Done?
      then Settle(SetPc(s, tid, Finished(t.pc.grant, true)), t.path, t.pc.grant, Committed).(
             files := s.files[t.path := s.temps[t.pc.temp]],
             temps := s.temps - {t.pc.temp})
      else Fail(s, tid, t.pc.grant).(temps := TempsAfter(s.temps, t.pc.temp, io))
    case Release(tid) =>
      var t := s.threads[tid];
      SetPc(s, tid, Released(t.pc.grant, t.pc.ok)).(holder := s.holder - {t.lock})
    case DropLock(tid) =>
      var t := s.threads[tid];
      s.(strong := s.strong[t.lock := if s.strong[t.lock] > 0 then s.strong[t.lock] - 1 else 0],
         threads := s.threads - {tid},
         acked := if t.pc.ok then s.acked + {(t.path, t.pc.grant)} else s.acked)
    case Crash =>
      s.(table := map[], strong := map[], holder := map[], threads := map[],
         grants := map path | path in s.grants :: AbandonOpen(s.grants[path]))
  }

  /** Grants a crash cut short count as failed: their rename never happened. */
  function AbandonOpen(grants: seq<Grant>): (r: seq<Grant>)
    ensures |r| == |grants|
    ensures forall i :: 0 <= i < |r| ==> r[i].change == grants[i].change
    ensures forall i :: 0 <= i < |r| ==> (r[i].outcome.Committed? <==> grants[i].outcome.Committed?)
    ensures forall i :: 0 <= i < |r| ==> !r[i].outcome.Open?
  {
    seq(|grants|, i requires 0 <= i < |grants| => if grants[i].outcome.Open? then grants[i].(outcome := Failed) else grants[i])
  }

  predicate Legal(s: State, actions: seq<Action>)
    decreases |actions|
  {
    actions == [] || (Enabled(s, actions[0]) && Legal(Next(s, actions[0]), actions[1..]))
  }

  function Run(s: State, actions: seq<Action>): (s': State)
    requires Legal(s, actions)
    decreases |actions|
  {
    if actions == [] then s else Run(Next(s, actions[0]), actions[1..])
  }

  // ---------------------------------------------------------------- locks

  /** Between acquiring the lock and dropping the guard. */
  predicate InUpdate(pc: Pc) {
    !pc.Waiting? && !pc.Released?
  }

  function UpdatersOf(threads: map<nat, Thread>, path: Path): (r: set<nat>) {
    set t | t in threads && threads[t].path == path
  }

  /** Every path has its own lock, and every lock in the table is counted. */
  ghost predicate TableInv(table: map<Path, nat>, strong: map<nat, nat>, nextLock: nat) {
    && (forall p :: p in table ==> table[p] < nextLock && table[p] in strong)
    && (forall p, q :: p in table && q in table && table[p] == table[q] ==> p == q)
  }

  /** Every updater of a path owns a clone of the one lock the table has for it. */
  ghost predicate ClonesInv(table: map<Path, nat>, threads: map<nat, Thread>) {
    forall t :: t in threads ==> threads[t].path in table && table[threads[t].path] == threads[t].lock
  }

  /** The reference counts are exact. */
  ghost predicate CountsInv(table: map<Path, nat>, strong: map<nat, nat>, threads: map<nat, Thread>) {
    forall p :: p in table ==> table[p] in strong && strong[table[p]] == 1 + |UpdatersOf(threads, p)|
  }

  /** Being inside an update is holding the lock. */
  ghost predicate HolderInv(threads: map<nat, Thread>, holder: map<nat, nat>) {
    && (forall t :: t in threads && InUpdate(threads[t].pc) ==> Holds(threads, holder, t))
    && (forall l :: l in holder ==> holder[l] in threads && InUpdate(threads[holder[l]].pc) && threads[holder[l]].lock == l)
  }

  ghost predicate Holds(threads: map<nat, Thread>, holder: map<nat, nat>, t: nat)
    requires t in threads
  {
    threads[t].lock in holder && holder[threads[t].lock] == t
  }

  ghost predicate LockInv(s: State) {
    && TableInv(s.table, s.strong, s.nextLock)
    && ClonesInv(s.table, s.threads)
    && CountsInv(s.table, s.strong, s.threads)
    && HolderInv(s.threads, s.holder)
  }

  lemma NonEmpty(items: set<nat>, t: nat)
    requires t in items
    ensures |items| >= 1
  {
    assert |items - {t}| + 1 == |items|;
  }

  /** Reclaiming never frees a lock some updater still owns. */
  lemma ReclaimKeepsOwned(s: State, t: nat)
    requires LockInv(s) && t in s.threads
    ensures s.threads[t].path in Kept(s.table, s.strong)
  {
    NonEmpty(UpdatersOf(s.threads, s.threads[t].path), t);
  }

  lemma ReclaimKeepsTable(s: State)
    requires LockInv(s)
    ensures TableInv(Kept(s.table, s.strong), Alive(s.strong), s.nextLock)
    ensures ClonesInv(Kept(s.table, s.strong), s.threads)
    ensures CountsInv(Kept(s.table, s.strong), Alive(s.strong), s.threads)
  {
    forall t | t in s.threads ensures s.threads[t].path in Kept(s.table, s.strong) { ReclaimKeepsOwned(s, t); }
  }

  /** A path whose lock survived reclaiming gets another clone of it. */
  lemma CloneKeepsLocks(table: map<Path, nat>, strong: map<nat, nat>, nextLock: nat, threads: map<nat, Thread>, tid: nat, t: Thread)
    requires TableInv(table, strong, nextLock) && ClonesInv(table, threads) && CountsInv(table, strong, threads)
    requires tid !in threads && t.path in table && t.lock == table[t.path]
    ensures var strong' := strong[t.lock := strong[t.lock] + 1];
            TableInv(table, strong', nextLock) && ClonesInv(table, threads[tid := t]) && CountsInv(table, strong', threads[tid := t])
  {
    AddedUpdater(threads, tid, t);
  }

  /** Any other path gets a fresh lock. */
  lemma InsertKeepsLocks(table: map<Path, nat>, strong: map<nat, nat>, nextLock: nat, threads: map<nat, Thread>, tid: nat, t: Thread)
    requires TableInv(table, strong, nextLock) && ClonesInv(table, threads) && CountsInv(table, strong, threads)
    requires tid !in threads && t.path !in table && t.lock == nextLock
    ensures var table', strong' := table[t.path := nextLock], strong[nextLock := 2];
            && TableInv(table', strong', nextLock + 1)
            && ClonesInv(table', threads[tid := t])
            && CountsInv(table', strong', threads[tid := t])
  {
    AddedUpdater(threads, tid, t);
    assert UpdatersOf(threads, t.path) == {};
  }

  lemma AddedUpdater(threads: map<nat, Thread>, tid: nat, t: Thread)
    requires tid !in threads
    ensures forall p :: UpdatersOf(threads[tid := t], p) == if p == t.path then UpdatersOf(threads, p) + {tid} else UpdatersOf(threads, p)
  {
  }

  lemma ClaimShape(s: State, tid: nat, path: Path, change: Change)
    ensures var s' := ClaimLock(s, tid, path, change);
            && tid in s'.threads && s'.threads[tid].pc.Waiting? && s'.threads == s.threads[tid := s'.threads[tid]]
            && s'.holder == s.holder && s'.files == s.files && s'.grants == s.grants
            && s'.temps == s.temps && s'.nextTemp == s.nextTemp && s'.acked == s.acked
  {
  }

  /** The lock table after a claim: another clone of a lock that survived, or a new one. */
  lemma ClaimTable(s: State, tid: nat, path: Path, change: Change)
    requires forall p :: p in s.table ==> s.table[p] in s.strong
    ensures var s', kept, strong := ClaimLock(s, tid, path, change), Kept(s.table, s.strong), Alive(s.strong);
            if path in kept
            then && kept[path] in strong && s'.table == kept && s'.nextLock == s.nextLock
                 && s'.strong == strong[kept[path] := strong[kept[path]] + 1]
                 && s'.threads == s.threads[tid := Thread(path, change, kept[path], Waiting)]
            else && s'.table == kept[path := s.nextLock] && s'.nextLock == s.nextLock + 1
                 && s'.strong == strong[s.nextLock := 2]
                 && s'.threads == s.threads[tid := Thread(path, change, s.nextLock, Waiting)]
  {
  }

  lemma ClaimKeepsLocks(s: State, tid: nat, path: Path, change: Change)
    requires LockInv(s) && tid !in s.threads
    ensures var s' := ClaimLock(s, tid, path, change);
            TableInv(s'.table, s'.strong, s'.nextLock) && ClonesInv(s'.table, s'.threads) && CountsInv(s'.table, s'.strong, s'.threads)
  {
    ReclaimKeepsTable(s);
    ClaimTable(s, tid, path, change);
    var kept, strong := Kept(s.table, s.strong), Alive(s.strong);
    if path in kept {
      CloneKeepsLocks(kept, strong, s.nextLock, s.threads, tid, Thread(path, change, kept[path], Waiting));
    } else {
      InsertKeepsLocks(kept, strong, s.nextLock, s.threads, tid, Thread(path, change, s.nextLock, Waiting));
    }
  }

  /** The table does not grow with the paths ever used: right after a claim it holds the claimed path and
      the paths some updater is still at work on, and no other. */
  lemma TableHoldsOnlyUsed(s: State, tid: nat, path: Path, change: Change)
    requires LockInv(s) && tid !in s.threads
    ensures ClaimLock(s, tid, path, change).table.Keys == {path} + set t | t in s.threads :: s.threads[t].path
  {
    var kept, used := Kept(s.table, s.strong), set t | t in s.threads :: s.threads[t].path;
    forall p ensures p in kept <==> p in used {
      if p in kept {
        var t :| t in UpdatersOf(s.threads, p);
      } else if p in used {
        var t :| t in s.threads && s.threads[t].path == p;
        ReclaimKeepsOwned(s, t);
      }
    }
  }

  /** A caller that comes while another updater is at work on the path is let in at once, is given the same
      lock, and waits for it until that updater has released it. */
  lemma LateCallerWaits(s: State, t: nat, tid: nat, change: Change)
    requires LockInv(s) && t in s.threads && tid !in s.threads
    ensures var path := s.threads[t].path;
            && Enabled(s, Call(tid, path, change))
            && var s' := Next(s, Call(tid, path, change));
               && tid in s'.threads && t in s'.threads
               && s'.threads[tid].lock == s.threads[t].lock == s'.threads[t].lock
               && (InUpdate(s.threads[t].pc) ==> !Enabled(s', Acquire(tid)))
               && (Enabled(s', Acquire(tid)) <==> s.threads[t].lock !in s.holder)
  {
    ReclaimKeepsOwned(s, t);
    assert InUpdate(s.threads[t].pc) ==> Holds(s.threads, s.holder, t);
  }

  lemma NewUpdaterKeepsHolder(threads: map<nat, Thread>, holder: map<nat, nat>, tid: nat, t: Thread)
    requires HolderInv(threads, holder) && tid !in threads && t.pc.Waiting?
    ensures HolderInv(threads[tid := t], holder)
  {
    var threads' := threads[tid := t];
    forall u | u in threads' && InUpdate(threads'[u].pc) ensures Holds(threads', holder, u) {
      assert u != tid && Holds(threads, holder, u);
    }
  }

  lemma SamePathsSameCounts(table: map<Path, nat>, strong: map<nat, nat>, threads: map<nat, Thread>, threads': map<nat, Thread>)
    requires CountsInv(table, strong, threads)
    requires threads'.Keys == threads.Keys && forall t :: t in threads ==> threads'[t].path == threads[t].path
    ensures CountsInv(table, strong, threads')
  {
    forall p | p in table ensures strong[table[p]] == 1 + |UpdatersOf(threads', p)| {
      assert UpdatersOf(threads', p) == UpdatersOf(threads, p);
    }
  }

  /** The locks stay and one updater gets to another point. */
  ghost predicate OnlyMoves(s: State, s': State, tid: nat) {
    && s'.table == s.table && s'.strong == s.strong && s'.nextLock == s.nextLock
    && tid in s.threads && tid in s'.threads && s'.threads == s.threads[tid := s.threads[tid].(pc := s'.threads[tid].pc)]
  }

  /** A step of an updater that holds its lock and goes on holding it. */
  lemma InsideStepKeepsLockInv(s: State, s': State, tid: nat)
    requires LockInv(s) && OnlyMoves(s, s', tid) && InUpdate(s.threads[tid].pc) && InUpdate(s'.threads[tid].pc)
    requires s'.holder == s.holder
    ensures LockInv(s')
  {
    SamePathsSameCounts(s.table, s.strong, s.threads, s'.threads);
    MoveKeepsHolder(s.threads, s.holder, tid, s'.threads[tid].pc);
  }

  lemma MoveKeepsHolder(threads: map<nat, Thread>, holder: map<nat, nat>, tid: nat, pc: Pc)
    requires HolderInv(threads, holder) && tid in threads && InUpdate(threads[tid].pc) && InUpdate(pc)
    ensures HolderInv(threads[tid := threads[tid].(pc := pc)], holder)
  {
    var threads' := threads[tid := threads[tid].(pc := pc)];
    forall t | t in threads' && InUpdate(threads'[t].pc) ensures Holds(threads', holder, t) {
      assert Holds(threads, holder, t);
    }
  }

  /** A waiting updater gets a free lock. */
  lemma AcquireKeepsHolder(threads: map<nat, Thread>, holder: map<nat, nat>, tid: nat, pc: Pc)
    requires HolderInv(threads, holder) && tid in threads && threads[tid].lock !in holder && InUpdate(pc)
    ensures HolderInv(threads[tid := threads[tid].(pc := pc)], holder[threads[tid].lock := tid])
  {
    var threads', holder' := threads[tid := threads[tid].(pc := pc)], holder[threads[tid].lock := tid];
    forall t | t in threads' && InUpdate(threads'[t].pc) ensures Holds(threads', holder', t) {
      assert t != tid ==> Holds(threads, holder, t);
    }
  }

  lemma ReleaseKeepsHolder(threads: map<nat, Thread>, holder: map<nat, nat>, tid: nat, pc: Pc)
    requires HolderInv(threads, holder) && tid in threads && InUpdate(threads[tid].pc) && pc.Released?
    ensures HolderInv(threads[tid := threads[tid].(pc := pc)], holder - {threads[tid].lock})
  {
    var threads', holder' := threads[tid := threads[tid].(pc := pc)], holder - {threads[tid].lock};
    assert Holds(threads, holder, tid);
    forall t | t in threads' && InUpdate(threads'[t].pc) ensures Holds(threads', holder', t) {
      assert t != tid && Holds(threads, holder, t);
    }
  }

  /** Acquiring and releasing only move an updater and its lock's holder. */
  lemma LockStepShape(s: State, a: Action)
    requires Enabled(s, a) && (a.Acquire? || a.Release?)
    ensures var s' := Next(s, a);
            && OnlyMoves(s, s', a.tid)
            && (a.Acquire? ==> s.threads[a.tid].lock !in s.holder && InUpdate(s'.threads[a.tid].pc)
                               && s'.holder == s.holder[s.threads[a.tid].lock := a.tid])
            && (a.Release? ==> InUpdate(s.threads[a.tid].pc) && s'.threads[a.tid].pc.Released?
                               && s'.holder == s.holder - {s.threads[a.tid].lock})
  {
  }

  lemma AcquireKeepsLockInv(s: State, s': State, tid: nat)
    requires LockInv(s) && OnlyMoves(s, s', tid) && s.threads[tid].lock !in s.holder && InUpdate(s'.threads[tid].pc)
    requires s'.holder == s.holder[s.threads[tid].lock := tid]
    ensures LockInv(s')
  {
    SamePathsSameCounts(s.table, s.strong, s.threads, s'.threads);
    AcquireKeepsHolder(s.threads, s.holder, tid, s'.threads[tid].pc);
  }

  lemma ReleaseKeepsLockInv(s: State, s': State, tid: nat)
    requires LockInv(s) && OnlyMoves(s, s', tid) && InUpdate(s.threads[tid].pc) && s'.threads[tid].pc.Released?
    requires s'.holder == s.holder - {s.threads[tid].lock}
    ensures LockInv(s')
  {
    SamePathsSameCounts(s.table, s.strong, s.threads, s'.threads);
    ReleaseKeepsHolder(s.threads, s.holder, tid, s'.threads[tid].pc);
  }

  lemma DropKeepsLockInv(s: State, tid: nat)
    requires LockInv(s) && Enabled(s, DropLock(tid))
    ensures LockInv(Next(s, DropLock(tid)))
  {
    var s' := Next(s, DropLock(tid));
    forall p | p in s'.table ensures s'.strong[s'.table[p]] == 1 + |UpdatersOf(s'.threads, p)| {
      if p == s.threads[tid].path {
        assert UpdatersOf(s'.threads, p) == UpdatersOf(s.threads, p) - {tid};
        assert tid in UpdatersOf(s.threads, p);
      } else {
        assert UpdatersOf(s'.threads, p) == UpdatersOf(s.threads, p);
      }
    }
    forall t | t in s'.threads && InUpdate(s'.threads[t].pc) ensures Holds(s'.threads, s'.holder, t) {
      assert Holds(s.threads, s.holder, t);
    }
  }

  /** What a step inside an update leaves alone. */
  ghost predicate InsideStep(s: State, s': State, tid: nat)
    requires tid in s.threads
  {
    OnlyMoves(s, s', tid) && s'.holder == s.holder && InUpdate(s'.threads[tid].pc)
  }

  lemma ReadShape(s: State, tid: nat, ioOk: bool)
    requires Enabled(s, Read(tid, ioOk))
    ensures InsideStep(s, Next(s, Read(tid, ioOk)), tid)
  {
  }

  lemma CreateTempShape(s: State, tid: nat, ioOk: bool)
    requires Enabled(s, CreateTemp(tid, ioOk))
    ensures InsideStep(s, Next(s, CreateTemp(tid, ioOk)), tid)
  {
  }

  lemma WriteTempShape(s: State, tid: nat, io: Io)
    requires Enabled(s, WriteTemp(tid, io))
    ensures InsideStep(s, Next(s, WriteTemp(tid, io)), tid)
  {
  }

  lemma RenameShape(s: State, tid: nat, io: Io)
    requires Enabled(s, Rename(tid, io))
    ensures InsideStep(s, Next(s, Rename(tid, io)), tid)
  {
  }

  lemma FileStepShape(s: State, a: Action, s': State)
    requires Enabled(s, a)
    requires a.Read? || a.CreateTemp? || a.WriteTemp? || a.Rename?
    requires s' == Next(s, a)
    ensures InsideStep(s, s', a.tid)
  {
    match a {
      case Read(tid, ioOk) => ReadShape(s, tid, ioOk);
      case CreateTemp(tid, ioOk) => CreateTempShape(s, tid, ioOk);
      case WriteTemp(tid, io) => WriteTempShape(s, tid, io);
      case Rename(tid, io) => RenameShape(s, tid, io);
    }
  }

  lemma FileStepKeepsLockInv(s: State, a: Action, s': State)
    requires LockInv(s) && Enabled(s, a)
    requires a.Read? || a.CreateTemp? || a.WriteTemp? || a.Rename?
    requires s' == Next(s, a)
    ensures LockInv(s')
  {
    FileStepShape(s, a, s');
    InsideStepKeepsLockInv(s, s', a.tid);
  }

  lemma StepKeepsLockInv(s: State, a: Action)
    requires LockInv(s) && Enabled(s, a)
    ensures LockInv(Next(s, a))
  {
    match a {
      case Call(tid, path, change) =>
        var s' := ClaimLock(s, tid, path, change);
        ClaimKeepsLocks(s, tid, path, change);
        ClaimShape(s, tid, path, change);
        NewUpdaterKeepsHolder(s.threads, s.holder, tid, s'.threads[tid]);
      case Acquire(tid) =>
        LockStepShape(s, a);
        AcquireKeepsLockInv(s, Next(s, a), tid);
      case Release(tid) =>
        LockStepShape(s, a);
        ReleaseKeepsLockInv(s, Next(s, a), tid);
      case DropLock(tid) => DropKeepsLockInv(s, tid);
      case Crash =>
      case _ => FileStepKeepsLockInv(s, a, Next(s, a));
    }
  }

  lemma {:induction false} RunKeepsLockInv(s: State, actions: seq<Action>)
    requires LockInv(s) && Legal(s, actions)
    ensures LockInv(Run(s, actions))
    decreases |actions|
  {
    if actions != [] {
      StepKeepsLockInv(s, actions[0]);
      RunKeepsLockInv(Next(s, actions[0]), actions[1..]);
    }
  }

  /** At most one updater of a path is inside its read-modify-write, however often unused locks are
      reclaimed from the table. */
  lemma AtMostOneUpdater(files: map<Path, Content>, actions: seq<Action>, t1: nat, t2: nat)
    requires Legal(Initial(files), actions)
    requires var threads := Run(Initial(files), actions).threads;
             && t1 in threads && InUpdate(threads[t1].pc)
             && t2 in threads && InUpdate(threads[t2].pc)
             && threads[t1].path == threads[t2].path
    ensures t1 == t2
  {
    RunKeepsLockInv(Initial(files), actions);
    var s := Run(Initial(files), actions);
    assert Holds(s.threads, s.holder, t1) && Holds(s.threads, s.holder, t2);
  }

  // ---------------------------------------------------------------- the file

  /** The changes of the grants that committed, in lock order. */
  function CommittedChanges(grants: seq<Grant>): (r: seq<Change>)
    decreases |grants|
  {
    if grants == [] then []
    else
      var n := |grants| - 1;
      CommittedChanges(grants[..n]) + (if grants[n].outcome.Committed? then [grants[n].change] else [])
  }

  /** The content after replaying the committed changes on `before`; untouched if there are none. */
  function Replay(before: Content, changes: seq<Change>): (r: Content) {
    if changes == [] then before
    else Parsed(ApplyAll(if before.Parsed? then before.cursors else map[], changes))
  }

  function ContentAt(files: map<Path, Content>, path: Path): (c: Content) {
    if path in files then files[path] else Absent
  }

  ghost predicate GrantIs(grants: seq<Grant>, i: nat, change: Change, outcome: Outcome) {
    i < |grants| && grants[i] == Grant(change, outcome)
  }

  /** What an updater knows at each point: inside the update its grant is the last of its path, open
      until it is settled, and the map it read is still what the file holds. */
  ghost predicate ThreadOk(t: Thread, file: Content, grants: seq<Grant>, temps: map<nat, Content>, nextTemp: nat) {
    match t.pc
    case Waiting => true
    case Locked(g) => g + 1 == |grants| && GrantIs(grants, g, t.change, Open)
    case HasRead(g, m) => g + 1 == |grants| && GrantIs(grants, g, t.change, Open) && ReadMap(file) == Some(m)
    case Writing(g, m, temp) =>
      g + 1 == |grants| && GrantIs(grants, g, t.change, Open) && ReadMap(file) == Some(m) && temp < nextTemp
    case Written(g, m, temp) =>
      && g + 1 == |grants| && GrantIs(grants, g, t.change, Open) && ReadMap(file) == Some(m) && temp < nextTemp
      && temp in temps && temps[temp] == Parsed(Apply(m, t.change))
    case Finished(g, ok) => ok ==> GrantIs(grants, g, t.change, Committed)
    case Released(g, ok) => ok ==> GrantIs(grants, g, t.change, Committed)
  }

  predicate HasTemp(pc: Pc) {
    pc.Writing? || pc.Written?
  }

  ghost predicate ThreadsOk(s: State) {
    && (forall t :: t in s.threads ==> ThreadOk(s.threads[t], FileAt(s, s.threads[t].path), GrantsOf(s, s.threads[t].path), s.temps, s.nextTemp))
    && (forall t, u :: t in s.threads && u in s.threads && HasTemp(s.threads[t].pc) && HasTemp(s.threads[u].pc) && t != u
          ==> s.threads[t].pc.temp != s.threads[u].pc.temp)
  }

  ghost predicate PathOk(init: map<Path, Content>, s: State, p: Path) {
    var changes := CommittedChanges(GrantsOf(s, p));
    && FileAt(s, p) == Replay(ContentAt(init, p), changes)
    && (ContentAt(init, p).Garbage? ==> changes == [])
  }

  ghost predicate AckedOk(s: State) {
    forall a :: a in s.acked ==> a.1 < |GrantsOf(s, a.0)| && GrantsOf(s, a.0)[a.1].outcome.Committed?
  }

  ghost predicate FileInv(init: map<Path, Content>, s: State) {
    ThreadsOk(s) && AckedOk(s) && forall p :: PathOk(init, s, p)
  }

  lemma CommittedOfSettled(grants: seq<Grant>, outcome: Outcome)
    requires grants != [] && grants[|grants| - 1].outcome.Open?
    ensures var n := |grants| - 1;
            var settled := grants[n := grants[n].(outcome := outcome)];
            CommittedChanges(settled) == CommittedChanges(grants) + if outcome.Committed? then [grants[n].change] else []
  {
    var n := |grants| - 1;
    assert grants[n := grants[n].(outcome := outcome)][..n] == grants[..n];
  }

  lemma ReplayOneMore(before: Content, changes: seq<Change>, change: Change)
    requires before.Garbage? ==> changes == []
    requires ReadMap(Replay(before, changes)).Some?
    ensures Replay(before, changes + [change]) == Parsed(Apply(ReadMap(Replay(before, changes)).value, change))
  {
    assert (changes + [change])[..|changes|] == changes && (changes + [change])[|changes|] == change;
    assert changes == [] ==> ApplyAll(map[], changes) == map[] && (before.Parsed? ==> ApplyAll(before.cursors, changes) == before.cursors);
  }

  lemma {:induction false} CommittedOfAbandoned(grants: seq<Grant>)
    ensures CommittedChanges(AbandonOpen(grants)) == CommittedChanges(grants)
    decreases |grants|
  {
    if grants != [] {
      var n := |grants| - 1;
      assert AbandonOpen(grants)[..n] == AbandonOpen(grants[..n]);
      CommittedOfAbandoned(grants[..n]);
    }
  }

  /** Another updater is never disturbed: on another path nothing changed, on the same path it is not
      inside an update, so it only remembers a committed grant. */
  ghost predicate Undisturbed(grants: seq<Grant>, grants': seq<Grant>) {
    |grants| <= |grants'| && forall i :: 0 <= i < |grants| && grants[i].outcome.Committed? ==> grants'[i] == grants[i]
  }

  /** The effect of one step of updater `tid` on everything `FileInv` speaks about. */
  ghost predicate StepOf(s: State, s': State, tid: nat) {
    && tid in s.threads && tid in s'.threads
    && s'.threads == s.threads[tid := s'.threads[tid]] && s'.threads[tid].path == s.threads[tid].path
    && (forall p :: p != s.threads[tid].path ==> FileAt(s', p) == FileAt(s, p) && GrantsOf(s', p) == GrantsOf(s, p))
    && Undisturbed(GrantsOf(s, s.threads[tid].path), GrantsOf(s', s.threads[tid].path))
    && s.nextTemp <= s'.nextTemp
    && (forall n :: n in s.temps && n < s.nextTemp && !(HasTemp(s.threads[tid].pc) && s.threads[tid].pc.temp == n)
          ==> n in s'.temps && s'.temps[n] == s.temps[n])
    && (HasTemp(s'.threads[tid].pc) ==>
          || s'.threads[tid].pc.temp == s.nextTemp
          || (HasTemp(s.threads[tid].pc) && s'.threads[tid].pc.temp == s.threads[tid].pc.temp))
    && s'.acked == s.acked
  }

  lemma SoleUpdater(s: State, tid: nat, u: nat)
    requires LockInv(s) && tid in s.threads && u in s.threads && u != tid
    requires InUpdate(s.threads[tid].pc) || s.threads[tid].lock !in s.holder
    ensures s.threads[u].path == s.threads[tid].path ==> !InUpdate(s.threads[u].pc)
  {
    assert InUpdate(s.threads[u].pc) ==> Holds(s.threads, s.holder, u);
    assert InUpdate(s.threads[tid].pc) ==> Holds(s.threads, s.holder, tid);
  }

  lemma OthersStayOk(s: State, s': State, tid: nat, u: nat)
    requires LockInv(s) && ThreadsOk(s) && StepOf(s, s', tid)
    requires InUpdate(s.threads[tid].pc) || s.threads[tid].lock !in s.holder
    requires u in s.threads && u != tid
    ensures ThreadOk(s'.threads[u], FileAt(s', s.threads[u].path), GrantsOf(s', s.threads[u].path), s'.temps, s'.nextTemp)
  {
    var t := s.threads[u];
    SoleUpdater(s, tid, u);
    assert ThreadOk(t, FileAt(s, t.path), GrantsOf(s, t.path), s.temps, s.nextTemp);
  }

  lemma AckedStaysOk(s: State, s': State, tid: nat)
    requires AckedOk(s) && StepOf(s, s', tid)
    ensures AckedOk(s')
  {
    forall a | a in s'.acked ensures a.1 < |GrantsOf(s', a.0)| && GrantsOf(s', a.0)[a.1].outcome.Committed? {
      assert GrantsOf(s, a.0)[a.1].outcome.Committed?;
    }
  }

  /** A step keeps `FileInv` if it keeps it for its own updater and its own path. */
  lemma StepOfKeepsFileInv(init: map<Path, Content>, s: State, s': State, tid: nat)
    requires LockInv(s) && FileInv(init, s) && StepOf(s, s', tid)
    requires InUpdate(s.threads[tid].pc) || s.threads[tid].lock !in s.holder
    requires var t := s'.threads[tid]; ThreadOk(t, FileAt(s', t.path), GrantsOf(s', t.path), s'.temps, s'.nextTemp)
    requires PathOk(init, s', s.threads[tid].path)
    ensures FileInv(init, s')
  {
    AckedStaysOk(s, s', tid);
    forall u | u in s'.threads ensures ThreadOk(s'.threads[u], FileAt(s', s'.threads[u].path), GrantsOf(s', s'.threads[u].path), s'.temps, s'.nextTemp) {
      if u != tid { OthersStayOk(s, s', tid, u); }
    }
    forall p ensures PathOk(init, s', p) {
      assert PathOk(init, s, p);
    }
    TempsStayDistinct(s, s', tid);
  }

  lemma TempsStayDistinct(s: State, s': State, tid: nat)
    requires ThreadsOk(s) && StepOf(s, s', tid)
    ensures forall t, u :: t in s'.threads && u in s'.threads && HasTemp(s'.threads[t].pc) && HasTemp(s'.threads[u].pc) && t != u
              ==> s'.threads[t].pc.temp != s'.threads[u].pc.temp
  {
    forall u | u in s.threads && HasTemp(s.threads[u].pc) ensures s.threads[u].pc.temp < s.nextTemp {
      assert ThreadOk(s.threads[u], FileAt(s, s.threads[u].path), GrantsOf(s, s.threads[u].path), s.temps, s.nextTemp);
    }
  }

  /** What one updater and its own path satisfy. */
  ghost predicate OwnOk(init: map<Path, Content>, s: State, tid: nat) {
    && tid in s.threads
    && PathOk(init, s, s.threads[tid].path)
    && var t := s.threads[tid]; ThreadOk(t, FileAt(s, t.path), GrantsOf(s, t.path), s.temps, s.nextTemp)
  }

  lemma NewUpdaterKeepsFileInv(init: map<Path, Content>, s: State, s': State, tid: nat, t: Thread)
    requires FileInv(init, s) && tid !in s.threads && t.pc.Waiting?
    requires s'.threads == s.threads[tid := t] && s'.files == s.files && s'.grants == s.grants
    requires s'.temps == s.temps && s'.nextTemp == s.nextTemp && s'.acked == s.acked
    ensures FileInv(init, s')
  {
    forall p ensures PathOk(init, s', p) { assert PathOk(init, s, p); }
    forall u | u in s'.threads ensures ThreadOk(s'.threads[u], FileAt(s', s'.threads[u].path), GrantsOf(s', s'.threads[u].path), s'.temps, s'.nextTemp) {
      assert u != tid ==> s'.threads[u] == s.threads[u];
    }
  }

  lemma CallKeepsFileInv(init: map<Path, Content>, s: State, tid: nat, path: Path, change: Change)
    requires FileInv(init, s) && tid !in s.threads
    ensures FileInv(init, ClaimLock(s, tid, path, change))
  {
    ClaimShape(s, tid, path, change);
    var s' := ClaimLock(s, tid, path, change);
    NewUpdaterKeepsFileInv(init, s, s', tid, s'.threads[tid]);
  }

  lemma AcquireLocal(init: map<Path, Content>, s: State, tid: nat)
    requires Enabled(s, Acquire(tid)) && OwnOk(init, s, tid)
    ensures StepOf(s, Next(s, Acquire(tid)), tid) && OwnOk(init, Next(s, Acquire(tid)), tid)
  {
    var t, s' := s.threads[tid], Next(s, Acquire(tid));
    OpenIsNotCommitted(GrantsOf(s, t.path), t.change);
    assert GrantsOf(s', t.path) == GrantsOf(s, t.path) + [Grant(t.change, Open)] && FileAt(s', t.path) == FileAt(s, t.path);
  }

  lemma {:induction false} OpenIsNotCommitted(order: seq<Grant>, change: Change)
    ensures CommittedChanges(order + [Grant(change, Open)]) == CommittedChanges(order)
  {
    assert (order + [Grant(change, Open)])[..|order|] == order;
  }

  /** A failing step settles the grant as failed and leaves the file alone. */
  lemma FailLocal(init: map<Path, Content>, s: State, tid: nat, grant: nat, temps: map<nat, Content>, nextTemp: nat)
    requires OwnOk(init, s, tid)
    requires var order := GrantsOf(s, s.threads[tid].path);
             grant + 1 == |order| && GrantIs(order, grant, s.threads[tid].change, Open)
    requires temps == s.temps || (HasTemp(s.threads[tid].pc) && temps == s.temps - {s.threads[tid].pc.temp})
    requires nextTemp >= s.nextTemp
    ensures var s' := Fail(s, tid, grant).(temps := temps, nextTemp := nextTemp);
            StepOf(s, s', tid) && OwnOk(init, s', tid)
  {
    CommittedOfSettled(GrantsOf(s, s.threads[tid].path), Failed);
  }

  lemma ReadLocal(init: map<Path, Content>, s: State, tid: nat, ioOk: bool)
    requires Enabled(s, Read(tid, ioOk)) && OwnOk(init, s, tid)
    ensures StepOf(s, Next(s, Read(tid, ioOk)), tid) && OwnOk(init, Next(s, Read(tid, ioOk)), tid)
  {
    FailLocal(init, s, tid, s.threads[tid].pc.grant, s.temps, s.nextTemp);
  }

  lemma CreateTempLocal(init: map<Path, Content>, s: State, tid: nat, ioOk: bool)
    requires Enabled(s, CreateTemp(tid, ioOk)) && OwnOk(init, s, tid)
    ensures StepOf(s, Next(s, CreateTemp(tid, ioOk)), tid) && OwnOk(init, Next(s, CreateTemp(tid, ioOk)), tid)
  {
    if !ioOk {
      FailLocal(init, s, tid, s.threads[tid].pc.grant, s.temps, s.nextTemp + 1);
    }
  }

  lemma WrittenLocal(init: map<Path, Content>, s: State, tid: nat, s': State)
    requires tid in s.threads && s.threads[tid].pc.Writing? && OwnOk(init, s, tid)
    requires var t := s.threads[tid];
             && s'.threads == s.threads[tid := t.(pc := Written(t.pc.grant, t.pc.cursors, t.pc.temp))]
             && s'.temps == s.temps[t.pc.temp := Parsed(Apply(t.pc.cursors, t.change))]
    requires s'.files == s.files && s'.grants == s.grants && s'.nextTemp == s.nextTemp && s'.acked == s.acked
    ensures StepOf(s, s', tid) && OwnOk(init, s', tid)
  {
  }

  lemma WriteTempLocal(init: map<Path, Content>, s: State, tid: nat, io: Io, s': State)
    requires Enabled(s, WriteTemp(tid, io)) && OwnOk(init, s, tid) && s' == Next(s, WriteTemp(tid, io))
    ensures StepOf(s, s', tid) && OwnOk(init, s', tid)
  {
    if io.Done? {
      WrittenLocal(init, s, tid, s');
    } else {
      FailLocal(init, s, tid, s.threads[tid].pc.grant, TempsAfter(s.temps, s.threads[tid].pc.temp, io), s.nextTemp);
    }
  }

  /** The rename publishes exactly the file's map with this updater's change applied. */
  lemma PublishLocal(init: map<Path, Content>, s: State, tid: nat)
    requires Enabled(s, Rename(tid, Done)) && OwnOk(init, s, tid)
    ensures var s' := Next(s, Rename(tid, Done)); tid in s'.threads && PathOk(init, s', s.threads[tid].path)
  {
    var t := s.threads[tid];
    var order := GrantsOf(s, t.path);
    CommittedOfSettled(order, Committed);
    ReplayOneMore(ContentAt(init, t.path), CommittedChanges(order), t.change);
  }

  lemma PublishShape(init: map<Path, Content>, s: State, tid: nat)
    requires Enabled(s, Rename(tid, Done)) && OwnOk(init, s, tid)
    ensures var s' := Next(s, Rename(tid, Done));
            && StepOf(s, s', tid)
            && var t := s'.threads[tid]; ThreadOk(t, FileAt(s', t.path), GrantsOf(s', t.path), s'.temps, s'.nextTemp)
  {
  }

  lemma RenameLocal(init: map<Path, Content>, s: State, tid: nat, io: Io, s': State)
    requires Enabled(s, Rename(tid, io)) && OwnOk(init, s, tid) && s' == Next(s, Rename(tid, io))
    ensures StepOf(s, s', tid) && OwnOk(init, s', tid)
  {
    if io.Done? {
      PublishLocal(init, s, tid);
      PublishShape(init, s, tid);
    } else {
      var t := s.threads[tid];
      FailLocal(init, s, tid, t.pc.grant, TempsAfter(s.temps, t.pc.temp, io), s.nextTemp);
    }
  }

  lemma ReleaseLocal(init: map<Path, Content>, s: State, tid: nat)
    requires Enabled(s, Release(tid)) && OwnOk(init, s, tid)
    ensures StepOf(s, Next(s, Release(tid)), tid) && OwnOk(init, Next(s, Release(tid)), tid)
  {
  }

  lemma DropKeepsFileInv(init: map<Path, Content>, s: State, tid: nat)
    requires FileInv(init, s) && Enabled(s, DropLock(tid))
    ensures FileInv(init, Next(s, DropLock(tid)))
  {
    var s' := Next(s, DropLock(tid));
    var t := s.threads[tid];
    assert ThreadOk(t, FileAt(s, t.path), GrantsOf(s, t.path), s.temps, s.nextTemp);
    forall p ensures PathOk(init, s', p) { assert PathOk(init, s, p); }
    forall u | u in s'.threads ensures ThreadOk(s'.threads[u], FileAt(s', s'.threads[u].path), GrantsOf(s', s'.threads[u].path), s'.temps, s'.nextTemp) {
      assert s'.threads[u] == s.threads[u];
    }
  }

  /** A crash at any point leaves every file as the last rename left it. */
  lemma CrashKeepsFileInv(init: map<Path, Content>, s: State)
    requires FileInv(init, s)
    ensures FileInv(init, Next(s, Crash))
  {
    var s' := Next(s, Crash);
    forall p ensures PathOk(init, s', p) && |GrantsOf(s', p)| == |GrantsOf(s, p)| {
      assert PathOk(init, s, p);
      if p in s.grants { CommittedOfAbandoned(s.grants[p]); }
    }
  }

  /** A step of an updater that holds its lock, or gets it, keeps everything. */
  lemma UpdaterStepKeepsFileInv(init: map<Path, Content>, s: State, a: Action, s': State)
    requires LockInv(s) && FileInv(init, s) && Enabled(s, a)
    requires !a.Call? && !a.DropLock? && !a.Crash?
    requires s' == Next(s, a)
    ensures FileInv(init, s')
  {
    assert PathOk(init, s, s.threads[a.tid].path) && OwnOk(init, s, a.tid);
    LocalStep(init, s, a, s');
    StepOfKeepsFileInv(init, s, s', a.tid);
  }

  lemma LocalStep(init: map<Path, Content>, s: State, a: Action, s': State)
    requires Enabled(s, a) && !a.Call? && !a.DropLock? && !a.Crash? && OwnOk(init, s, a.tid)
    requires s' == Next(s, a)
    ensures StepOf(s, s', a.tid) && OwnOk(init, s', a.tid)
    ensures InUpdate(s.threads[a.tid].pc) || s.threads[a.tid].lock !in s.holder
  {
    match a {
      case Acquire(tid) => AcquireLocal(init, s, tid);
      case Read(tid, ioOk) => ReadLocal(init, s, tid, ioOk);
      case CreateTemp(tid, ioOk) => CreateTempLocal(init, s, tid, ioOk);
      case WriteTemp(tid, io) => WriteTempLocal(init, s, tid, io, s');
      case Rename(tid, io) => RenameLocal(init, s, tid, io, s');
      case Release(tid) => ReleaseLocal(init, s, tid);
    }
  }

  lemma StepKeepsFileInv(init: map<Path, Content>, s: State, a: Action)
    requires LockInv(s) && FileInv(init, s) && Enabled(s, a)
    ensures FileInv(init, Next(s, a))
  {
    match a {
      case Call(tid, path, change) => CallKeepsFileInv(init, s, tid, path, change);
      case DropLock(tid) => DropKeepsFileInv(init, s, tid);
      case Crash => CrashKeepsFileInv(init, s);
      case _ => UpdaterStepKeepsFileInv(init, s, a, Next(s, a));
    }
  }

  lemma {:induction false} RunKeepsFileInv(init: map<Path, Content>, s: State, actions: seq<Action>)
    requires LockInv(s) && FileInv(init, s) && Legal(s, actions)
    ensures FileInv(init, Run(s, actions))
    decreases |actions|
  {
    if actions != [] {
      StepKeepsLockInv(s, actions[0]);
      StepKeepsFileInv(init, s, actions[0]);
      RunKeepsFileInv(init, Next(s, actions[0]), actions[1..]);
    }
  }

  /** After every step of every run, crashes included, a file is what it was at the start with the
      committed changes replayed in lock order. So an unlocked load sees a whole map (or the bytes
      that were there before any update), and no committed update is lost. */
  lemma FileIsReplayOfCommits(files: map<Path, Content>, actions: seq<Action>, path: Path)
    requires Legal(Initial(files), actions)
    ensures var s := Run(Initial(files), actions);
            var changes := CommittedChanges(GrantsOf(s, path));
            && FileAt(s, path) == Replay(ContentAt(files, path), changes)
            && (FileAt(s, path).Garbage? ==> changes == [] && ContentAt(files, path).Garbage?)
  {
    RunKeepsFileInv(files, Initial(files), actions);
    assert PathOk(files, Run(Initial(files), actions), path);
  }

  /** Every update that returned success is among the committed changes of its path. */
  lemma SuccessfulUpdatesAreCommitted(files: map<Path, Content>, actions: seq<Action>, path: Path, grant: nat)
    requires Legal(Initial(files), actions)
    requires (path, grant) in Run(Initial(files), actions).acked
    ensures var order := GrantsOf(Run(Initial(files), actions), path);
            grant < |order| && order[grant].outcome.Committed? && order[grant].change in CommittedChanges(order)
  {
    RunKeepsFileInv(files, Initial(files), actions);
    var order := GrantsOf(Run(Initial(files), actions), path);
    CommittedHas(order, grant);
  }

  lemma {:induction false} CommittedHas(grants: seq<Grant>, i: nat)
    requires i < |grants| && grants[i].outcome.Committed?
    ensures grants[i].change in CommittedChanges(grants)
    decreases |grants|
  {
    var n := |grants| - 1;
    if i < n {
      CommittedHas(grants[..n], i);
    }
  }
}
