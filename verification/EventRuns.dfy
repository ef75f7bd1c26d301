/** Whole runs of an event store with any number of appenders, consumers and overlapping garbage
    collections (`src/event_store.rs`). A receive is split where the source can be interleaved
    (position load, read, position store, epoch load), and so are a nack (epoch bump, rewind) and a
    GC (frontier snapshot, drain). */
module EventRuns {
  import opened Messages
  import opened EventLog
  import opened EventStore

  /** What keeps frontiers justified: commits of one consumer run one after the other in receive order
      (`commit_requires_order`), and no nack tears a receive: its position store finds the position it
      loaded, and its epoch load the position it stored, with no rewind half done. */
  datatype Premises = Premises(inOrder: bool, untorn: bool)

  /** `Sealing` is between the position store and the epoch load. */
  datatype Receive = Idle | Started(from: nat) | Fetched(from: nat, events: seq<StoredEvent>) | Sealing

  /** `pending` holds the rewinds of nacks that bumped the epoch and have not moved the position yet;
      `outstanding` the received batches in receive order, with the one being sealed at its end;
      `committed` and `verdicts` are bookkeeping: the batches committed without a nack, and with what. */
  datatype Consumer = Consumer(
    position: nat, rewinds: nat, pending: seq<nat>, receive: Receive, outstanding: seq<Batch>, committed: seq<Batch>,
    verdicts: seq<seq<Disposition>>)

  const FRESH := Consumer(0, 0, [], Idle, [], [], [])

  /** A GC that took its frontier snapshot and has not drained yet. */
  datatype PendingGc = PendingGc(now: int, acks: map<string, nat>)

  /** Bookkeeping of one event a GC removed, with the subscribers registered at that GC. */
  datatype Removal = Removal(offset: nat, now: int, subscribers: set<string>)

  datatype System = System(
    log: Log,
    subs: map<string, Subscriber>,
    consumers: map<string, Consumer>,
    delivered: nat,
    gcs: seq<PendingGc>,
    handed: set<nat>,
    removals: seq<Removal>)

  const INITIAL := System(EMPTY, map[], map[], 0, [], {}, [])

  datatype Action =
    | Append(message: Message, now: int)
    | AppendBatch(messages: seq<Message>, now: int)
    | RegisterSubscriber(id: string, now: int)
    | NewConsumer(id: string)                  // also a restart: what was outstanding never commits
    | Begin(id: string, now: int)              // register, load the position
    | Read(id: string, limit: nat)             // `get_events_since`, again after a wait
    | GiveUp(id: string)                       // drain timeout
    | Store(id: string)                        // advance the position
    | Seal(id: string)                         // load the epoch, hand the batch out
    | Commit(id: string, index: nat, dispositions: seq<Disposition>, now: int)
    | Rewind(id: string, index: nat)           // the second half of a nack
    | GcSnapshot(now: int)
    | GcDrain(index: nat)

  predicate Reading(r: Receive) {
    r.Started? || r.Fetched?
  }

  /** How many outstanding batches the caller has. */
  function HandedOut(c: Consumer): (n: nat)
    ensures n <= |c.outstanding|
  {
    if c.receive.Sealing? && c.outstanding != [] then |c.outstanding| - 1 else |c.outstanding|
  }

  /** The position is the one just stored and no rewind is under way. */
  predicate StoredStands(c: Consumer)
    requires c.outstanding != []
  {
    c.position == c.outstanding[|c.outstanding| - 1].hi && c.pending == []
  }

  predicate Enabled(premises: Premises, s: System, a: Action) {
    match a
    case Append(_, _) => s.log.next < U64_MAX
    case AppendBatch(messages, _) => s.log.next + |messages| <= U64_MAX
    case RegisterSubscriber(_, _) => true
    case NewConsumer(_) => true
    case Begin(id, _) => id in s.consumers && s.consumers[id].receive.Idle?
    case Read(id, _) => id in s.consumers && Reading(s.consumers[id].receive)
    case GiveUp(id) => id in s.consumers && Reading(s.consumers[id].receive)
    case Store(id) =>
      && id in s.consumers && s.consumers[id].receive.Fetched?
      && (premises.untorn ==> s.consumers[id].position == s.consumers[id].receive.from)
    case Seal(id) =>
      && id in s.consumers && s.consumers[id].receive.Sealing? && s.consumers[id].outstanding != []
      && (premises.untorn ==> StoredStands(s.consumers[id]))
    case Commit(id, index, dispositions, _) =>
      && id in s.consumers
      && index < HandedOut(s.consumers[id])
      && (premises.inOrder ==> index == 0 && s.consumers[id].pending == [])
    case Rewind(id, index) => id in s.consumers && index < |s.consumers[id].pending|
    case GcSnapshot(_) => s.subs != map[]
    case GcDrain(index) => index < |s.gcs|
  }

  function Without<T>(items: seq<T>, index: nat): (r: seq<T>)
    requires index < |items|
  {
    items[..index] + items[index + 1..]
  }

  function CommitConsumer(c: Consumer, index: nat, dispositions: seq<Disposition>): (r: Consumer)
    requires index < |c.outstanding|
  {
    var b := c.outstanding[index];
    var c' := c.(outstanding := Without(c.outstanding, index));
    if Nack in dispositions
    then c'.(rewinds := c.rewinds + 1, pending := c.pending + [b.lo])
    else c'.(committed := c.committed + [b], verdicts := c.verdicts + [dispositions])
  }

  function RewindConsumer(c: Consumer, index: nat): (r: Consumer)
    requires index < |c.pending|
  {
    c.(position := RewindTo(c.position, c.pending[index]), pending := Without(c.pending, index))
  }

  function StoreConsumer(c: Consumer): (r: Consumer)
    requires c.receive.Fetched?
  {
    var b := BatchOf(c.receive.from, c.receive.events, c.rewinds);
    c.(position := b.hi, receive := Sealing, outstanding := c.outstanding + [b])
  }

  function SealConsumer(c: Consumer): (r: Consumer)
    requires c.outstanding != []
  {
    var last := |c.outstanding| - 1;
    c.(receive := Idle, outstanding := c.outstanding[last := c.outstanding[last].(readAt := c.rewinds)])
  }

  function DrainRemovals(policy: Policy, log: Log, gc: PendingGc): (r: seq<Removal>) {
    seq(GcCount(policy, log.events, log.base, gc.acks, gc.now),
        i requires 0 <= i => Removal(log.base + i, gc.now, gc.acks.Keys))
  }

  function Next(policy: Policy, premises: Premises, s: System, a: Action): (s': System)
    requires Enabled(premises, s, a)
  {
    match a
    case Append(message, now) => s.(log := AppendOne(policy, s.log, message, Millis(now)))
    case AppendBatch(messages, now) => s.(log := AppendMany(policy, s.log, messages, Millis(now)))
    case RegisterSubscriber(id, now) => s.(subs := Register(s.subs, id, now))
    case NewConsumer(id) =>
      s.(consumers := s.consumers[id := if id in s.consumers
                                        then FRESH.(committed := s.consumers[id].committed, verdicts := s.consumers[id].verdicts)
                                        else FRESH])
    case Begin(id, now) =>
      var c := s.consumers[id];
      s.(subs := Register(s.subs, id, now), consumers := s.consumers[id := c.(receive := Started(c.position))])
    case Read(id, limit) =>
      var c := s.consumers[id];
      var from := c.receive.from;
      var receive := match EventsSince(s.log, from, limit)
                     case Events(events) => Fetched(from, events)
                     case Gap(_, _) => Idle;
      s.(consumers := s.consumers[id := c.(receive := receive)])
    case GiveUp(id) => s.(consumers := s.consumers[id := s.consumers[id].(receive := Idle)])
    case Store(id) =>
      var c := s.consumers[id];
      var c' := StoreConsumer(c);
      s.(consumers := s.consumers[id := c'],
         delivered := if c'.position > s.delivered then c'.position else s.delivered,
         handed := s.handed + set e | e in c.receive.events :: e.offset)
    case Seal(id) => s.(consumers := s.consumers[id := SealConsumer(s.consumers[id])])
    case Rewind(id, index) => s.(consumers := s.consumers[id := RewindConsumer(s.consumers[id], index)])
    case Commit(id, index, dispositions, now) =>
      var c := s.consumers[id];
      var b := c.outstanding[index];
      var acks := Nack !in dispositions && b.readAt == c.rewinds;
      s.(consumers := s.consumers[id := CommitConsumer(c, index, dispositions)],
         subs := if acks then AckUpTo(s.subs, id, b.hi, now) else s.subs)
    case GcSnapshot(now) =>
      var live := Evict(policy, s.subs, now);
      s.(subs := live, gcs := s.gcs + [PendingGc(now, Acks(live))])
    case GcDrain(index) =>
      var gc := s.gcs[index];
      s.(log := Collect(policy, s.log, gc.acks, gc.now),
         gcs := Without(s.gcs, index),
         removals := s.removals + DrainRemovals(policy, s.log, gc))
  }

  predicate Legal(policy: Policy, premises: Premises, s: System, actions: seq<Action>)
    decreases |actions|
  {
    actions == [] ||
    (Enabled(premises, s, actions[0]) && Legal(policy, premises, Next(policy, premises, s, actions[0]), actions[1..]))
  }

  function Run(policy: Policy, premises: Premises, s: System, actions: seq<Action>): (s': System)
    requires Legal(policy, premises, s, actions)
    decreases |actions|
  {
    if actions == [] then s else Run(policy, premises, Next(policy, premises, s, actions[0]), actions[1..])
  }

  // ---------------------------------------------------------------- what the runs keep

  predicate InBatch(b: Batch, o: nat) {
    b.lo < o <= b.hi
  }

  /** The offset was in a batch this consumer committed without a nack. */
  ghost predicate Processed(c: Consumer, o: nat) {
    exists i :: 0 <= i < |c.committed| && InBatch(c.committed[i], o)
  }

  /** The offset was processed or lies in one of the first `k` outstanding batches. */
  ghost predicate Covered(c: Consumer, k: nat, o: nat)
    requires k <= |c.outstanding|
  {
    Processed(c, o) || exists j :: 0 <= j < k && InBatch(c.outstanding[j], o)
  }

  /** A batch is the slice of the append history its offsets say. */
  ghost predicate Faithful(log: Log, b: Batch) {
    b.lo <= b.hi <= |log.history| && b.messages == Payloads(log.history[b.lo..b.hi])
  }

  ghost predicate ReceiveFaithful(log: Log, r: Receive) {
    match r
    case Idle => true
    case Started(from) => from <= |log.history|
    case Fetched(from, events) => from + |events| <= |log.history| && events == log.history[from..from + |events|]
    case Sealing => true
  }

  function From(c: Consumer): (r: nat) {
    if Reading(c.receive) then c.receive.from else c.position
  }

  /** Kept by every run, whatever the premises. */
  ghost predicate LogInv(policy: Policy, s: System) {
    && Conserved(policy, s.log)
    && s.log.next <= U64_MAX
    && s.delivered < s.log.next
    && (forall o :: o in s.handed <==> 1 <= o <= s.delivered)
    && (forall id :: id in s.consumers ==> Reads(s, s.consumers[id]))
    && Recorded(s.log, s.removals)
  }

  /** The removals list every event a GC removed, each once, in order. */
  ghost predicate Recorded(log: Log, removals: seq<Removal>) {
    && |removals| == log.collected
    && (forall i, j :: 0 <= i < j < |removals| ==> removals[i].offset < removals[j].offset)
    && (forall i :: 0 <= i < |removals| ==> removals[i].offset < log.base)
  }

  ghost predicate Reads(s: System, c: Consumer) {
    && c.position <= s.delivered
    && From(c) <= s.delivered
    && ReceiveFaithful(s.log, c.receive)
    && (forall i :: 0 <= i < |c.outstanding| ==> Faithful(s.log, c.outstanding[i]))
    && (forall i :: 0 <= i < |c.committed| ==> Faithful(s.log, c.committed[i]))
    && |c.verdicts| == |c.committed|
    && (forall i :: 0 <= i < |c.verdicts| ==> Nack !in c.verdicts[i])
  }

  /** At or below the position, also once the rewinds under way are done. */
  predicate Due(c: Consumer, o: nat) {
    1 <= o <= c.position && forall i :: 0 <= i < |c.pending| ==> o <= c.pending[i]
  }

  /** Nothing at or below the position is skipped. */
  ghost predicate NoneSkipped(c: Consumer) {
    forall o: nat :: Due(c, o) ==> Covered(c, |c.outstanding|, o)
  }

  /** A batch handed out in the current epoch has everything below it processed or in an earlier
      outstanding batch. */
  ghost predicate EpochsSound(c: Consumer) {
    && (forall k :: 0 <= k < |c.outstanding| ==> c.outstanding[k].readAt <= c.rewinds)
    && (forall k :: 0 <= k < HandedOut(c) && c.outstanding[k].readAt == c.rewinds ==> LowerCovered(c, k))
  }

  ghost predicate ConsumerInv(c: Consumer) {
    NoneSkipped(c) && EpochsSound(c)
  }

  ghost predicate LowerCovered(c: Consumer, k: nat)
    requires k < |c.outstanding|
  {
    forall o: nat :: 1 <= o <= c.outstanding[k].lo ==> Covered(c, k, o)
  }

  /** Everything up to `frontier` was processed by the consumer of `id`. */
  ghost predicate ProcessedUpTo(consumers: map<string, Consumer>, id: string, frontier: nat) {
    frontier > 0 ==> id in consumers && forall o: nat :: 1 <= o <= frontier ==> Processed(consumers[id], o)
  }

  ghost predicate RemovalJustified(policy: Policy, s: System, r: Removal) {
    && 1 <= r.offset <= |s.log.history|
    && (|| (policy.maxAge.Some? && r.now > s.log.history[r.offset - 1].storedAt * 1_000_000 + policy.maxAge.value)
        || (&& r.subscribers != {}
            && forall id :: id in r.subscribers ==> id in s.consumers && Processed(s.consumers[id], r.offset)))
  }

  /** Kept by every run under both premises. */
  ghost predicate AckInv(policy: Policy, s: System) {
    && (forall id :: id in s.consumers ==> ConsumerInv(s.consumers[id]))
    && (forall id :: id in s.subs ==> ProcessedUpTo(s.consumers, id, s.subs[id].lastAck))
    && (forall i :: 0 <= i < |s.gcs| ==> SnapshotProcessed(s, s.gcs[i]))
    && (forall i :: 0 <= i < |s.removals| ==> RemovalJustified(policy, s, s.removals[i]))
  }

  ghost predicate SnapshotProcessed(s: System, gc: PendingGc) {
    forall id :: id in gc.acks ==> ProcessedUpTo(s.consumers, id, gc.acks[id])
  }

  // ---------------------------------------------------------------- log, positions and delivery

  /** Both appends and GC leave the history a prefix of the new history. */
  lemma FaithfulSurvives(log: Log, log': Log, c: Consumer)
    requires log.history <= log'.history
    requires ReceiveFaithful(log, c.receive)
    requires forall i :: 0 <= i < |c.outstanding| ==> Faithful(log, c.outstanding[i])
    requires forall i :: 0 <= i < |c.committed| ==> Faithful(log, c.committed[i])
    ensures ReceiveFaithful(log', c.receive)
    ensures forall i :: 0 <= i < |c.outstanding| ==> Faithful(log', c.outstanding[i])
    ensures forall i :: 0 <= i < |c.committed| ==> Faithful(log', c.committed[i])
  {
    forall i, j | 0 <= i <= j <= |log.history| ensures log.history[i..j] == log'.history[i..j] { }
  }

  lemma LogStepKeepsReads(policy: Policy, premises: Premises, s: System, a: Action)
    requires LogInv(policy, s) && Enabled(premises, s, a)
    requires a.Append? || a.AppendBatch? || a.GcDrain?
    ensures LogInv(policy, Next(policy, premises, s, a))
  {
    var s' := Next(policy, premises, s, a);
    match a {
      case Append(message, now) => AppendOneConserves(policy, s.log, message, Millis(now));
      case AppendBatch(messages, now) => AppendManyConserves(policy, s.log, messages, Millis(now));
      case GcDrain(index) =>
        CollectConserves(policy, s.log, s.gcs[index].acks, s.gcs[index].now);
        DrainIsRecorded(policy, s.log, s.removals, s.gcs[index]);
    }
    forall id | id in s.consumers ensures Reads(s', s.consumers[id]) {
      FaithfulSurvives(s.log, s'.log, s.consumers[id]);
    }
  }

  /** A drain removes by the frontiers and the clock of its own snapshot, here those of `subs`, whatever
      was acked or registered since: every removed event may go by them, and the first one left may not. */
  lemma DrainTakesItsSnapshot(policy: Policy, premises: Premises, s: System, index: nat, subs: map<string, Subscriber>, log': Log)
    requires index < |s.gcs| && subs.Keys == s.gcs[index].acks.Keys
    requires forall id :: id in subs ==> subs[id].lastAck == s.gcs[index].acks[id]
    requires log' == Next(policy, premises, s, GcDrain(index)).log
    ensures s.log.base <= log'.base <= s.log.base + |s.log.events| && log'.events == s.log.events[log'.base - s.log.base..]
    ensures forall i :: 0 <= i < log'.base - s.log.base ==> MayGo(policy, subs, s.gcs[index].now, s.log.events[i], s.log.base + i)
    ensures log'.events != [] ==> !MayGo(policy, subs, s.gcs[index].now, log'.events[0], log'.base)
  {
    assert Acks(subs) == s.gcs[index].acks;
    CollectsExactly(policy, s.log, subs, s.gcs[index].now);
  }

  lemma DrainIsRecorded(policy: Policy, log: Log, removals: seq<Removal>, gc: PendingGc)
    requires Recorded(log, removals)
    ensures Recorded(Collect(policy, log, gc.acks, gc.now), removals + DrainRemovals(policy, log, gc))
  {
  }

  lemma FetchedBatch(policy: Policy, log: Log, from: nat, events: seq<StoredEvent>, rewinds: nat)
    requires Conserved(policy, log) && ReceiveFaithful(log, Fetched(from, events))
    ensures var b := BatchOf(from, events, rewinds); b.hi == from + |events| && Faithful(log, b)
    ensures forall i :: 0 <= i < |events| ==> events[i].offset == from + i + 1
  {
  }

  lemma FetchedOffsets(events: seq<StoredEvent>, from: nat, o: nat)
    requires forall i :: 0 <= i < |events| ==> events[i].offset == from + i + 1
    ensures o in (set e | e in events :: e.offset) <==> from < o <= from + |events|
  {
    if from < o <= from + |events| {
      assert events[o - from - 1] in events;
    }
  }

  lemma StoreKeepsLogInv(policy: Policy, premises: Premises, s: System, id: string)
    requires LogInv(policy, s) && Enabled(premises, s, Store(id))
    ensures LogInv(policy, Next(policy, premises, s, Store(id)))
  {
    var c := s.consumers[id];
    assert Reads(s, c);
    var from, events := c.receive.from, c.receive.events;
    FetchedBatch(policy, s.log, from, events, c.rewinds);
    var s' := Next(policy, premises, s, Store(id));
    forall o ensures o in s'.handed <==> 1 <= o <= s'.delivered {
      if o >= 0 { FetchedOffsets(events, from, o); }
    }
    forall other | other in s'.consumers ensures Reads(s', s'.consumers[other]) {
      StoreKeepsReads(s, s', id, other);
    }
  }

  lemma StoreKeepsReads(s: System, s': System, id: string, other: string)
    requires id in s.consumers && s.consumers[id].receive.Fetched? && other in s.consumers
    requires Reads(s, s.consumers[id]) && Reads(s, s.consumers[other])
    requires var c := s.consumers[id]; Faithful(s.log, BatchOf(c.receive.from, c.receive.events, c.rewinds))
    requires s'.log == s.log && s'.consumers == s.consumers[id := StoreConsumer(s.consumers[id])]
    requires s'.delivered >= s.delivered && s'.delivered >= StoreConsumer(s.consumers[id]).position
    ensures Reads(s', s'.consumers[other])
  {
  }

  lemma ConsumerStepKeepsLogInv(policy: Policy, premises: Premises, s: System, a: Action)
    requires LogInv(policy, s) && Enabled(premises, s, a) && (a.NewConsumer? || a.Begin? || a.GiveUp?)
    ensures LogInv(policy, Next(policy, premises, s, a))
  {
    var s' := Next(policy, premises, s, a);
    forall id | id in s'.consumers ensures Reads(s', s'.consumers[id]) {
      if id in s.consumers { assert Reads(s, s.consumers[id]); }
    }
  }

  lemma BatchStepKeepsLogInv(policy: Policy, premises: Premises, s: System, a: Action)
    requires LogInv(policy, s) && Enabled(premises, s, a) && (a.Seal? || a.Commit? || a.Rewind?)
    ensures LogInv(policy, Next(policy, premises, s, a))
  {
    var s' := Next(policy, premises, s, a);
    forall id | id in s'.consumers ensures Reads(s', s'.consumers[id]) {
      assert Reads(s, s.consumers[id]);
    }
  }

  lemma ReadKeepsLogInv(policy: Policy, premises: Premises, s: System, id: string, limit: nat)
    requires LogInv(policy, s) && Enabled(premises, s, Read(id, limit))
    ensures LogInv(policy, Next(policy, premises, s, Read(id, limit)))
  {
    var c := s.consumers[id];
    assert Reads(s, c);
    if EventsSince(s.log, c.receive.from, limit).Events? {
      ReadIsHistorySlice(policy, s.log, c.receive.from, limit);
    }
    var s' := Next(policy, premises, s, Read(id, limit));
    forall other | other in s'.consumers ensures Reads(s', s'.consumers[other]) {
      assert Reads(s, s.consumers[other]);
    }
  }

  lemma StepKeepsLogInv(policy: Policy, premises: Premises, s: System, a: Action)
    requires LogInv(policy, s) && Enabled(premises, s, a)
    ensures LogInv(policy, Next(policy, premises, s, a))
  {
    match a {
      case Append(_, _) => LogStepKeepsReads(policy, premises, s, a);
      case AppendBatch(_, _) => LogStepKeepsReads(policy, premises, s, a);
      case GcDrain(_) => LogStepKeepsReads(policy, premises, s, a);
      case Store(id) => StoreKeepsLogInv(policy, premises, s, id);
      case Read(id, limit) => ReadKeepsLogInv(policy, premises, s, id, limit);
      case RegisterSubscriber(_, _) => assert forall id :: id in s.consumers ==> Reads(s, s.consumers[id]);
      case GcSnapshot(_) => assert forall id :: id in s.consumers ==> Reads(s, s.consumers[id]);
      case Seal(_) => BatchStepKeepsLogInv(policy, premises, s, a);
      case Commit(_, _, _, _) => BatchStepKeepsLogInv(policy, premises, s, a);
      case Rewind(_, _) => BatchStepKeepsLogInv(policy, premises, s, a);
      case _ => ConsumerStepKeepsLogInv(policy, premises, s, a);
    }
  }

  // ---------------------------------------------------------------- acks and garbage collection

  /** Storing the position of an untorn receive skips nothing. */
  lemma StoreKeepsCovered(c: Consumer)
    requires NoneSkipped(c) && c.receive.Fetched? && c.position == c.receive.from
    ensures NoneSkipped(StoreConsumer(c))
  {
    var c' := StoreConsumer(c);
    var n := |c.outstanding|;
    var m := n + 1;
    forall o: nat | Due(c', o) ensures Covered(c', m, o) {
      if o <= c.position {
        assert Due(c, o);
        CoverageCarries(c, c', n, m, o);
      } else {
        assert InBatch(c'.outstanding[n], o);
      }
    }
  }

  lemma StoreKeepsEpochs(c: Consumer)
    requires EpochsSound(c) && c.receive.Fetched?
    ensures EpochsSound(StoreConsumer(c))
  {
    var c' := StoreConsumer(c);
    forall k | 0 <= k < |c.outstanding| && c'.outstanding[k].readAt == c'.rewinds ensures LowerCovered(c', k) {
      assert LowerCovered(c, k);
      forall o: nat | 1 <= o <= c'.outstanding[k].lo ensures Covered(c', k, o) {
        CoverageCarries(c, c', k, k, o);
      }
    }
  }

  /** The epoch is not part of what a batch covers. */
  lemma SealKeepsCoverage(c: Consumer, k: nat, o: nat)
    requires c.outstanding != [] && k <= |c.outstanding|
    ensures Covered(SealConsumer(c), k, o) == Covered(c, k, o)
  {
    var c' := SealConsumer(c);
    assert forall j :: 0 <= j < k ==> InBatch(c'.outstanding[j], o) == InBatch(c.outstanding[j], o);
  }

  /** What lies at or below a batch's start is covered without it. */
  lemma CoveredBefore(c: Consumer, k: nat, o: nat)
    requires k < |c.outstanding| && o <= c.outstanding[k].lo
    ensures var k' := k + 1; Covered(c, k', o) <==> Covered(c, k, o)
  {
  }

  lemma SealKeepsCovered(c: Consumer)
    requires NoneSkipped(c) && c.outstanding != []
    ensures NoneSkipped(SealConsumer(c))
  {
    var c' := SealConsumer(c);
    forall o: nat | Due(c', o) ensures Covered(c', |c'.outstanding|, o) {
      assert Due(c, o);
      SealKeepsCoverage(c, |c.outstanding|, o);
    }
  }

  /** An untorn receive hands out a batch with everything below it covered. */
  lemma SealKeepsEpochs(c: Consumer)
    requires ConsumerInv(c) && c.receive.Sealing? && c.outstanding != [] && StoredStands(c)
    requires c.outstanding[|c.outstanding| - 1].lo <= c.outstanding[|c.outstanding| - 1].hi
    ensures EpochsSound(SealConsumer(c))
  {
    var c', last := SealConsumer(c), |c.outstanding| - 1;
    forall k | 0 <= k < |c'.outstanding| && c'.outstanding[k].readAt == c'.rewinds ensures LowerCovered(c', k) {
      forall o: nat | 1 <= o <= c'.outstanding[k].lo ensures Covered(c', k, o) {
        SealKeepsCoverage(c, k, o);
        if k == last {
          assert Due(c, o);
          CoveredBefore(c, last, o);
        } else {
          assert LowerCovered(c, k);
        }
      }
    }
  }

  lemma CoverageCarries(c: Consumer, c': Consumer, k: nat, k': nat, o: nat)
    requires k <= |c.outstanding| && k <= k' <= |c'.outstanding|
    requires c.outstanding[..k] <= c'.outstanding
    requires c.committed <= c'.committed
    requires Covered(c, k, o)
    ensures Covered(c', k', o)
  {
    if i :| 0 <= i < |c.committed| && InBatch(c.committed[i], o) {
      assert InBatch(c'.committed[i], o);
    } else {
      var j :| 0 <= j < k && InBatch(c.outstanding[j], o);
      assert c'.outstanding[j] == c.outstanding[..k][j];
    }
  }

  /** In any order, a commit without a nack turns its batch from outstanding into processed. */
  lemma AckKeepsCovered(c: Consumer, index: nat, ds: seq<Disposition>)
    requires Nack !in ds
    requires NoneSkipped(c) && index < |c.outstanding|
    ensures NoneSkipped(CommitConsumer(c, index, ds))
  {
    var c' := CommitConsumer(c, index, ds);
    forall o: nat | Due(c', o) ensures Covered(c', |c'.outstanding|, o) {
      assert Due(c, o);
      if InBatch(c.outstanding[index], o) {
        AckedIsProcessed(c, index, ds, o);
      }
      CoveredWithout(c, c', index, o);
    }
  }

  /** What a removed batch does not hold is still covered by the others. */
  lemma CoveredWithout(c: Consumer, c': Consumer, index: nat, o: nat)
    requires index < |c.outstanding| && Covered(c, |c.outstanding|, o)
    requires c'.outstanding == Without(c.outstanding, index) && c.committed <= c'.committed
    requires InBatch(c.outstanding[index], o) ==> Processed(c', o)
    ensures Covered(c', |c'.outstanding|, o)
  {
    if Processed(c, o) {
      StillProcessed(c, c', o);
    } else if !InBatch(c.outstanding[index], o) {
      var j :| 0 <= j < |c.outstanding| && InBatch(c.outstanding[j], o);
      assert j != index;
      assert c'.outstanding[if j < index then j else j - 1] == c.outstanding[j];
    }
  }

  lemma AckedIsProcessed(c: Consumer, index: nat, ds: seq<Disposition>, o: nat)
    requires Nack !in ds
    requires index < |c.outstanding| && InBatch(c.outstanding[index], o)
    ensures Processed(CommitConsumer(c, index, ds), o)
  {
    assert InBatch(CommitConsumer(c, index, ds).committed[|c.committed|], o);
  }

  /** An in-order ack uncovers nothing below the batches behind it. */
  lemma AckKeepsEpochs(c: Consumer, ds: seq<Disposition>)
    requires Nack !in ds
    requires EpochsSound(c) && 0 < HandedOut(c)
    ensures EpochsSound(CommitConsumer(c, 0, ds))
  {
    var c' := CommitConsumer(c, 0, ds);
    assert c'.outstanding == c.outstanding[1..];
    forall k | 0 <= k < HandedOut(c') && c'.outstanding[k].readAt == c'.rewinds ensures LowerCovered(c', k) {
      assert LowerCovered(c, k + 1);
      forall o: nat | 1 <= o <= c'.outstanding[k].lo ensures Covered(c', k, o) {
        HeadProcessed(c, c', k + 1, o);
      }
    }
  }

  lemma HeadProcessed(c: Consumer, c': Consumer, k: nat, o: nat)
    requires 1 <= k <= |c.outstanding| && Covered(c, k, o)
    requires c'.outstanding == c.outstanding[1..] && c'.committed == c.committed + [c.outstanding[0]]
    ensures Covered(c', k - 1, o)
  {
    if i :| 0 <= i < |c.committed| && InBatch(c.committed[i], o) {
      assert InBatch(c'.committed[i], o);
    } else {
      var j :| 0 <= j < k && InBatch(c.outstanding[j], o);
      if j == 0 {
        assert InBatch(c'.committed[|c.committed|], o);
      } else {
        assert InBatch(c'.outstanding[j - 1], o);
      }
    }
  }

  /** A nack is due to rewind to the start of its batch, so what it gives up is no longer due. */
  lemma NackKeepsCovered(c: Consumer, index: nat, ds: seq<Disposition>)
    requires Nack in ds
    requires NoneSkipped(c) && index < |c.outstanding|
    ensures NoneSkipped(CommitConsumer(c, index, ds))
  {
    var c' := CommitConsumer(c, index, ds);
    forall o: nat | Due(c', o) ensures Covered(c', |c'.outstanding|, o) {
      assert c'.pending[|c.pending|] == c.outstanding[index].lo;
      assert forall i :: 0 <= i < |c.pending| ==> c'.pending[i] == c.pending[i];
      assert Due(c, o);
      CoveredWithout(c, c', index, o);
    }
  }

  lemma RewindKeepsCovered(c: Consumer, index: nat)
    requires NoneSkipped(c) && index < |c.pending|
    ensures NoneSkipped(RewindConsumer(c, index))
  {
    var c' := RewindConsumer(c, index);
    forall o: nat | Due(c', o) ensures Covered(c', |c'.outstanding|, o) {
      forall i | 0 <= i < |c.pending| ensures o <= c.pending[i] {
        assert i != index ==> c'.pending[if i < index then i else i - 1] == c.pending[i];
      }
      assert Due(c, o);
      CoverageCarries(c, c', |c.outstanding|, |c.outstanding|, o);
    }
  }

  /** The head batch of the current epoch has everything up to its end processed once it commits. */
  lemma FreshHeadAcksProcessed(c: Consumer, ds: seq<Disposition>, o: nat)
    requires Nack !in ds
    requires EpochsSound(c) && 0 < HandedOut(c)
    requires c.outstanding[0].readAt == c.rewinds
    requires 1 <= o <= c.outstanding[0].hi
    ensures Processed(CommitConsumer(c, 0, ds), o)
  {
    var c' := CommitConsumer(c, 0, ds);
    if o <= c.outstanding[0].lo {
      assert LowerCovered(c, 0) && Covered(c, 0, o);
      var i :| 0 <= i < |c.committed| && InBatch(c.committed[i], o);
      assert InBatch(c'.committed[i], o);
    } else {
      assert InBatch(c'.committed[|c.committed|], o);
    }
  }

  /** Committed batches are never forgotten, so every frontier stays justified. */
  lemma ProcessedGrows(consumers: map<string, Consumer>, consumers': map<string, Consumer>, id: string, frontier: nat)
    requires forall i :: i in consumers ==> i in consumers' && consumers[i].committed <= consumers'[i].committed
    requires ProcessedUpTo(consumers, id, frontier)
    ensures ProcessedUpTo(consumers', id, frontier)
  {
    forall o: nat | 1 <= o <= frontier ensures Processed(consumers'[id], o) {
      StillProcessed(consumers[id], consumers'[id], o);
    }
  }

  lemma StillProcessed(c: Consumer, c': Consumer, o: nat)
    requires c.committed <= c'.committed && Processed(c, o)
    ensures Processed(c', o)
  {
    var i :| 0 <= i < |c.committed| && InBatch(c.committed[i], o);
    assert InBatch(c'.committed[i], o);
  }

  ghost predicate Extends(s: System, s': System) {
    && s.log.history <= s'.log.history
    && forall i :: i in s.consumers ==> i in s'.consumers && s.consumers[i].committed <= s'.consumers[i].committed
  }

  lemma RemovalStaysJustified(policy: Policy, s: System, s': System, r: Removal)
    requires Extends(s, s') && RemovalJustified(policy, s, r)
    ensures RemovalJustified(policy, s', r)
  {
    assert s'.log.history[r.offset - 1] == s.log.history[r.offset - 1];
    if r.subscribers != {} && forall id :: id in r.subscribers ==> id in s.consumers && Processed(s.consumers[id], r.offset) {
      forall id | id in r.subscribers ensures Processed(s'.consumers[id], r.offset) {
        StillProcessed(s.consumers[id], s'.consumers[id], r.offset);
      }
    }
  }

  /** The part of `AckInv` that only depends on processed offsets never shrinking. */
  lemma GcInvCarries(policy: Policy, s: System, s': System)
    requires AckInv(policy, s) && Extends(s, s')
    ensures forall i :: 0 <= i < |s.gcs| ==> SnapshotProcessed(s', s.gcs[i])
    ensures forall i :: 0 <= i < |s.removals| ==> RemovalJustified(policy, s', s.removals[i])
    ensures forall id :: id in s.subs ==> ProcessedUpTo(s'.consumers, id, s.subs[id].lastAck)
  {
    forall i | 0 <= i < |s.gcs| ensures SnapshotProcessed(s', s.gcs[i]) {
      assert SnapshotProcessed(s, s.gcs[i]);
      forall id | id in s.gcs[i].acks ensures ProcessedUpTo(s'.consumers, id, s.gcs[i].acks[id]) {
        ProcessedGrows(s.consumers, s'.consumers, id, s.gcs[i].acks[id]);
      }
    }
    forall i | 0 <= i < |s.removals| ensures RemovalJustified(policy, s', s.removals[i]) {
      RemovalStaysJustified(policy, s, s', s.removals[i]);
    }
    forall id | id in s.subs ensures ProcessedUpTo(s'.consumers, id, s.subs[id].lastAck) {
      ProcessedGrows(s.consumers, s'.consumers, id, s.subs[id].lastAck);
    }
  }

  const BOTH := Premises(true, true)

  /** Untorn receives alone, in whatever order batches commit, skip nothing. */
  lemma StepKeepsCovered(policy: Policy, premises: Premises, s: System, a: Action, id: string)
    requires premises.untorn && Enabled(premises, s, a)
    requires forall i :: i in s.consumers ==> NoneSkipped(s.consumers[i])
    requires id in Next(policy, premises, s, a).consumers
    ensures NoneSkipped(Next(policy, premises, s, a).consumers[id])
  {
    match a {
      case Store(other) => StoreKeepsCovered(s.consumers[other]);
      case Seal(other) => SealKeepsCovered(s.consumers[other]);
      case Commit(other, index, dispositions, _) =>
        if Nack in dispositions {
          NackKeepsCovered(s.consumers[other], index, dispositions);
        } else {
          AckKeepsCovered(s.consumers[other], index, dispositions);
        }
      case Rewind(other, index) => RewindKeepsCovered(s.consumers[other], index);
      case Begin(other, _) => SameCovered(s.consumers[other], Next(policy, premises, s, a).consumers[other]);
      case Read(other, _) => SameCovered(s.consumers[other], Next(policy, premises, s, a).consumers[other]);
      case GiveUp(other) => SameCovered(s.consumers[other], Next(policy, premises, s, a).consumers[other]);
      case _ =>
    }
  }

  lemma SameCovered(c: Consumer, c': Consumer)
    requires NoneSkipped(c) && c' == c.(receive := c'.receive)
    ensures NoneSkipped(c')
  {
    forall o: nat | Due(c', o) ensures Covered(c', |c'.outstanding|, o) {
      assert Due(c, o);
      CoverageCarries(c, c', |c.outstanding|, |c.outstanding|, o);
    }
  }

  lemma SameEpochs(c: Consumer, c': Consumer)
    requires EpochsSound(c) && c' == c.(receive := c'.receive, position := c'.position, pending := c'.pending)
    requires c'.receive.Sealing? == c.receive.Sealing?
    ensures EpochsSound(c')
  {
    forall k | 0 <= k < HandedOut(c') && c'.outstanding[k].readAt == c'.rewinds ensures LowerCovered(c', k) {
      assert LowerCovered(c, k);
      forall o: nat | 1 <= o <= c'.outstanding[k].lo ensures Covered(c', k, o) {
        CoverageCarries(c, c', k, k, o);
      }
    }
  }

  lemma ReadingKeepsEpochs(policy: Policy, s: System, a: Action, id: string)
    requires Enabled(BOTH, s, a) && (a.Begin? || a.Read? || a.GiveUp? || a.Rewind?)
    requires id in s.consumers && EpochsSound(s.consumers[id])
    ensures EpochsSound(Next(policy, BOTH, s, a).consumers[id])
  {
    SameEpochs(s.consumers[id], Next(policy, BOTH, s, a).consumers[id]);
  }

  lemma HandingKeepsEpochs(policy: Policy, s: System, a: Action, id: string)
    requires Enabled(BOTH, s, a) && (a.Store? || a.Seal? || a.Commit?)
    requires id in s.consumers && ConsumerInv(s.consumers[id]) && Reads(s, s.consumers[id])
    ensures EpochsSound(Next(policy, BOTH, s, a).consumers[id])
  {
    if a.id == id {
      var c := s.consumers[id];
      match a {
        case Store(_) => StoreKeepsEpochs(c);
        case Seal(_) =>
          assert Faithful(s.log, c.outstanding[|c.outstanding| - 1]);
          SealKeepsEpochs(c);
        case Commit(_, _, dispositions, _) => if Nack !in dispositions { AckKeepsEpochs(c, dispositions); }
      }
    }
  }

  lemma StepKeepsEpochs(policy: Policy, s: System, a: Action, id: string)
    requires Enabled(BOTH, s, a) && LogInv(policy, s)
    requires forall i :: i in s.consumers ==> ConsumerInv(s.consumers[i])
    requires id in Next(policy, BOTH, s, a).consumers
    ensures EpochsSound(Next(policy, BOTH, s, a).consumers[id])
  {
    if a.Begin? || a.Read? || a.GiveUp? || a.Rewind? {
      ReadingKeepsEpochs(policy, s, a, id);
    } else if a.Store? || a.Seal? || a.Commit? {
      HandingKeepsEpochs(policy, s, a, id);
    }
  }

  lemma CommitKeepsFrontiers(policy: Policy, s: System, a: Action)
    requires AckInv(policy, s) && Enabled(BOTH, s, a) && a.Commit?
    ensures var s' := Next(policy, BOTH, s, a);
            forall id :: id in s'.subs ==> ProcessedUpTo(s'.consumers, id, s'.subs[id].lastAck)
  {
    var s' := Next(policy, BOTH, s, a);
    GcInvCarries(policy, s, s');
    var c := s.consumers[a.id];
    var b := c.outstanding[0];
    if Nack !in a.dispositions && b.readAt == c.rewinds {
      forall o: nat | 1 <= o <= b.hi ensures Processed(s'.consumers[a.id], o) {
        FreshHeadAcksProcessed(c, a.dispositions, o);
      }
    }
  }

  lemma DrainKeepsRemovals(policy: Policy, s: System, index: nat)
    requires LogInv(policy, s) && AckInv(policy, s) && index < |s.gcs|
    ensures var s' := Next(policy, BOTH, s, GcDrain(index));
            forall i :: 0 <= i < |s'.removals| ==> RemovalJustified(policy, s', s'.removals[i])
  {
    var s' := Next(policy, BOTH, s, GcDrain(index));
    var gc := s.gcs[index];
    GcInvCarries(policy, s, s');
    var drained := DrainRemovals(policy, s.log, gc);
    forall i | 0 <= i < |drained| ensures RemovalJustified(policy, s', drained[i]) {
      LiveOffsets(policy, s.log, i);
      assert Removable(policy, gc.acks, gc.now, s.log.events[i], s.log.base + i);
      assert SnapshotProcessed(s, gc);
    }
  }

  lemma OtherStepKeepsFrontiers(policy: Policy, s: System, a: Action)
    requires AckInv(policy, s) && Enabled(BOTH, s, a) && !a.Commit? && !a.GcDrain?
    ensures var s' := Next(policy, BOTH, s, a);
            && (forall id :: id in s'.subs ==> ProcessedUpTo(s'.consumers, id, s'.subs[id].lastAck))
            && (forall i :: 0 <= i < |s'.gcs| ==> SnapshotProcessed(s', s'.gcs[i]))
            && (forall i :: 0 <= i < |s'.removals| ==> RemovalJustified(policy, s', s'.removals[i]))
  {
    GcInvCarries(policy, s, Next(policy, BOTH, s, a));
  }

  lemma CommitOrDrainKeepsFrontiers(policy: Policy, s: System, a: Action)
    requires LogInv(policy, s) && AckInv(policy, s) && Enabled(BOTH, s, a) && (a.Commit? || a.GcDrain?)
    ensures var s' := Next(policy, BOTH, s, a);
            && (forall id :: id in s'.subs ==> ProcessedUpTo(s'.consumers, id, s'.subs[id].lastAck))
            && (forall i :: 0 <= i < |s'.gcs| ==> SnapshotProcessed(s', s'.gcs[i]))
            && (forall i :: 0 <= i < |s'.removals| ==> RemovalJustified(policy, s', s'.removals[i]))
  {
    GcInvCarries(policy, s, Next(policy, BOTH, s, a));
    match a {
      case Commit(_, _, _, _) => CommitKeepsFrontiers(policy, s, a);
      case GcDrain(index) => DrainKeepsRemovals(policy, s, index);
    }
  }

  lemma StepKeepsAckInv(policy: Policy, s: System, a: Action)
    requires LogInv(policy, s) && AckInv(policy, s) && Enabled(BOTH, s, a)
    ensures AckInv(policy, Next(policy, BOTH, s, a))
  {
    var s' := Next(policy, BOTH, s, a);
    forall id | id in s'.consumers ensures ConsumerInv(s'.consumers[id]) {
      StepKeepsCovered(policy, BOTH, s, a, id);
      StepKeepsEpochs(policy, s, a, id);
    }
    if a.Commit? || a.GcDrain? {
      CommitOrDrainKeepsFrontiers(policy, s, a);
    } else {
      OtherStepKeepsFrontiers(policy, s, a);
    }
  }

  // ---------------------------------------------------------------- every run

  lemma {:induction false} RunKeepsLogInv(policy: Policy, premises: Premises, s: System, actions: seq<Action>)
    requires LogInv(policy, s) && Legal(policy, premises, s, actions)
    ensures LogInv(policy, Run(policy, premises, s, actions))
    decreases |actions|
  {
    if actions != [] {
      StepKeepsLogInv(policy, premises, s, actions[0]);
      RunKeepsLogInv(policy, premises, Next(policy, premises, s, actions[0]), actions[1..]);
    }
  }

  lemma {:induction false} RunKeepsAckInv(policy: Policy, s: System, actions: seq<Action>)
    requires LogInv(policy, s) && AckInv(policy, s) && Legal(policy, BOTH, s, actions)
    ensures AckInv(policy, Run(policy, BOTH, s, actions))
    decreases |actions|
  {
    if actions != [] {
      StepKeepsLogInv(policy, BOTH, s, actions[0]);
      StepKeepsAckInv(policy, s, actions[0]);
      RunKeepsAckInv(policy, Next(policy, BOTH, s, actions[0]), actions[1..]);
    }
  }

  /** Log conservation, for every run and without any premise: the drop log followed by the live
      events is the append history, live event `i` has offset `base + i`, `next` counts appends and
      `base` counts removals by retention and GC together. */
  lemma LogIsConserved(policy: Policy, premises: Premises, actions: seq<Action>)
    requires Legal(policy, premises, INITIAL, actions)
    ensures var log := Run(policy, premises, INITIAL, actions).log;
            && log.dropLog + log.events == log.history
            && log.next == |log.history| + 1
            && log.base == log.dropped + log.collected + 1
            && (forall i :: 0 <= i < |log.events| ==> log.events[i].offset == log.base + i)
            && (policy.maxCount.Some? ==> |log.events| <= policy.maxCount.value)
  {
    RunKeepsLogInv(policy, premises, INITIAL, actions);
    var log := Run(policy, premises, INITIAL, actions).log;
    forall i | 0 <= i < |log.events| ensures log.events[i].offset == log.base + i { LiveOffsets(policy, log, i); }
  }

  /** The stored events whose offset no consumer was ever handed. */
  function Unhanded(events: seq<StoredEvent>, handed: set<nat>): (r: seq<StoredEvent>) {
    if events == [] then []
    else if events[0].offset !in handed then [events[0]] + Unhanded(events[1..], handed)
    else Unhanded(events[1..], handed)
  }

  lemma {:induction false} UnhandedIsNewer(events: seq<StoredEvent>, handed: set<nat>, delivered: nat)
    requires forall o :: o in handed <==> 1 <= o <= delivered
    requires forall i :: 0 <= i < |events| ==> events[i].offset >= 1
    ensures Unhanded(events, handed) == Newer(events, delivered)
  {
    if events != [] {
      UnhandedIsNewer(events[1..], handed, delivered);
    }
  }

  /** What `unread` counts (`EventStore.Unread`) is exactly the stored events never handed to any
      consumer: across all consumers, rewinds and GC the offsets handed out are `1..delivered`. */
  lemma UnreadCountsUnhanded(policy: Policy, premises: Premises, actions: seq<Action>)
    requires Legal(policy, premises, INITIAL, actions)
    ensures var s := Run(policy, premises, INITIAL, actions);
            && (forall o :: o in s.handed <==> 1 <= o <= s.delivered)
            && Newer(s.log.events, s.delivered) == Unhanded(s.log.events, s.handed)
  {
    RunKeepsLogInv(policy, premises, INITIAL, actions);
    var s := Run(policy, premises, INITIAL, actions);
    forall i | 0 <= i < |s.log.events| ensures s.log.events[i].offset >= 1 { LiveOffsets(policy, s.log, i); }
    UnhandedIsNewer(s.log.events, s.handed, s.delivered);
  }

  /** A frontier never runs ahead of the work: every offset up to a subscriber's ack frontier was in
      a batch its consumer committed without a nack, and that batch carried that very event. */
  lemma FrontierIsProcessed(policy: Policy, actions: seq<Action>, id: string, o: nat)
    requires Legal(policy, BOTH, INITIAL, actions)
    requires var s := Run(policy, BOTH, INITIAL, actions); id in s.subs && 1 <= o <= s.subs[id].lastAck
    ensures var s := Run(policy, BOTH, INITIAL, actions);
            && id in s.consumers
            && exists i :: 0 <= i < |s.consumers[id].committed| && HoldsEvent(s.log, s.consumers[id].committed[i], o) && Unnacked(s.consumers[id], i)
  {
    RunKeepsLogInv(policy, BOTH, INITIAL, actions);
    RunKeepsAckInv(policy, INITIAL, actions);
    FrontierHolds(policy, Run(policy, BOTH, INITIAL, actions), id, o);
  }

  lemma FrontierHolds(policy: Policy, s: System, id: string, o: nat)
    requires LogInv(policy, s) && AckInv(policy, s) && id in s.subs && 1 <= o <= s.subs[id].lastAck
    ensures id in s.consumers
    ensures exists i :: 0 <= i < |s.consumers[id].committed| && HoldsEvent(s.log, s.consumers[id].committed[i], o) && Unnacked(s.consumers[id], i)
  {
    assert ProcessedUpTo(s.consumers, id, s.subs[id].lastAck);
    var c := s.consumers[id];
    assert Processed(c, o);
    var i :| 0 <= i < |c.committed| && InBatch(c.committed[i], o);
    assert Reads(s, c) && Faithful(s.log, c.committed[i]);
    assert HoldsEvent(s.log, c.committed[i], o) && Unnacked(c, i);
  }

  /** No message of the `i`-th committed batch was nacked. */
  ghost predicate Unnacked(c: Consumer, i: nat) {
    i < |c.verdicts| && forall j :: 0 <= j < |c.verdicts[i]| ==> c.verdicts[i][j] != Nack
  }

  /** The batch covers offset `o` and carries the message appended there. */
  ghost predicate HoldsEvent(log: Log, b: Batch, o: nat) {
    && b.lo < o <= b.hi
    && o - b.lo <= |b.messages|
    && o <= |log.history|
    && b.messages[o - b.lo - 1] == log.history[o - 1].message
  }

  /** End-to-end GC safety: every event a GC removed, and there is one entry for each, was over age or
      processed by every subscriber that was still registered at that GC. */
  lemma GcRemovesOnlyProcessedOrAged(policy: Policy, actions: seq<Action>)
    requires Legal(policy, BOTH, INITIAL, actions)
    ensures var s := Run(policy, BOTH, INITIAL, actions);
            && |s.removals| == s.log.collected
            && (forall i, j :: 0 <= i < j < |s.removals| ==> s.removals[i].offset < s.removals[j].offset)
            && (forall i :: 0 <= i < |s.removals| ==> s.removals[i].offset < s.log.base && RemovalJustified(policy, s, s.removals[i]))
  {
    RunKeepsLogInv(policy, BOTH, INITIAL, actions);
    RunKeepsAckInv(policy, INITIAL, actions);
  }

  lemma {:induction false} RunKeepsCovered(policy: Policy, premises: Premises, s: System, actions: seq<Action>)
    requires premises.untorn && Legal(policy, premises, s, actions)
    requires forall id :: id in s.consumers ==> NoneSkipped(s.consumers[id])
    ensures forall id :: id in Run(policy, premises, s, actions).consumers ==> NoneSkipped(Run(policy, premises, s, actions).consumers[id])
    decreases |actions|
  {
    if actions != [] {
      var s' := Next(policy, premises, s, actions[0]);
      forall id | id in s'.consumers ensures NoneSkipped(s'.consumers[id]) {
        StepKeepsCovered(policy, premises, s, actions[0], id);
      }
      RunKeepsCovered(policy, premises, s', actions[1..]);
    }
  }

  /** Nothing is silently skipped: with untorn receives, and in whatever order batches commit, each
      offset at or below a consumer's position and the rewinds under way was processed or is still in
      an outstanding batch. */
  lemma NothingSkipped(policy: Policy, actions: seq<Action>, id: string, o: nat)
    requires Legal(policy, Premises(false, true), INITIAL, actions)
    requires var s := Run(policy, Premises(false, true), INITIAL, actions); id in s.consumers && Due(s.consumers[id], o)
    ensures var c := Run(policy, Premises(false, true), INITIAL, actions).consumers[id];
            Covered(c, |c.outstanding|, o)
  {
    RunKeepsCovered(policy, Premises(false, true), INITIAL, actions);
    assert NoneSkipped(Run(policy, Premises(false, true), INITIAL, actions).consumers[id]);
  }

  /** Without any premise: once a rewind is done, the position stays at or below the nacked batch's
      start until the consumer stores another one, and so does where any receive begun since starts. */
  lemma {:induction false} NackedIsReread(policy: Policy, premises: Premises, s: System, actions: seq<Action>, id: string, lo: nat)
    requires Legal(policy, premises, s, actions)
    requires forall i :: 0 <= i < |actions| ==> actions[i] != Store(id)
    requires id in s.consumers && s.consumers[id].position <= lo
    ensures var s' := Run(policy, premises, s, actions);
            && id in s'.consumers && s'.consumers[id].position <= lo
            && (From(s.consumers[id]) <= lo ==> From(s'.consumers[id]) <= lo)
            && ((exists i :: 0 <= i < |actions| && actions[i].Begin? && actions[i].id == id) ==> From(s'.consumers[id]) <= lo)
    decreases |actions|
  {
    if actions != [] {
      assert actions[0] != Store(id);
      var s1, rest := Next(policy, premises, s, actions[0]), actions[1..];
      NackedIsReread(policy, premises, s1, rest, id, lo);
      if i :| 0 < i < |actions| && actions[i].Begin? && actions[i].id == id {
        assert rest[i - 1] == actions[i];
      }
    }
  }

  /** A nack, its rewind, and whatever happens in between and after: the next receive to begin starts
      at or before the nacked batch. */
  lemma NackRewinds(policy: Policy, premises: Premises, s: System, id: string, index: nat, actions: seq<Action>)
    requires Enabled(premises, s, Rewind(id, index))
    requires Legal(policy, premises, Next(policy, premises, s, Rewind(id, index)), actions)
    requires forall i :: 0 <= i < |actions| ==> actions[i] != Store(id)
    requires exists i :: 0 <= i < |actions| && actions[i].Begin? && actions[i].id == id
    ensures var s' := Run(policy, premises, Next(policy, premises, s, Rewind(id, index)), actions);
            id in s'.consumers && From(s'.consumers[id]) <= s.consumers[id].pending[index]
  {
    NackedIsReread(policy, premises, Next(policy, premises, s, Rewind(id, index)), actions, id, s.consumers[id].pending[index]);
  }

  // ---------------------------------------------------------------- torn receives: the exact condition

  const IN_ORDER := Premises(true, false)

  /** Neither a nack nor a restart of this consumer. */
  predicate Undisturbed(a: Action, id: string) {
    && (a.NewConsumer? ==> a.id != id)
    && (a.Commit? && a.id == id ==> Nack !in a.dispositions)
  }

  predicate AllUndisturbed(actions: seq<Action>, id: string) {
    actions == [] || (Undisturbed(actions[0], id) && AllUndisturbed(actions[1..], id))
  }

  function Commits(actions: seq<Action>, id: string): (n: nat) {
    if actions == [] then 0 else CommitOf(actions[0], id) + Commits(actions[1..], id)
  }

  function CommitOf(a: Action, id: string): (n: nat) {
    if a.Commit? && a.id == id then 1 else 0
  }

  /** The batch is still in the caller's hands, in the same epoch, with the same offsets covered below. */
  ghost predicate BelowKept(c: Consumer, k: nat, c': Consumer, k': nat, o: nat)
    requires k < HandedOut(c)
  {
    && k' < HandedOut(c')
    && c'.rewinds == c.rewinds && c'.outstanding[k'] == c.outstanding[k]
    && (Covered(c', k', o) <==> Covered(c, k, o))
  }

  /** What a step that is neither a nack nor a restart of a consumer does to it. */
  ghost predicate Moves(c: Consumer, a: Action, id: string, c': Consumer) {
    if a == Store(id) then c.receive.Fetched? && c' == StoreConsumer(c)
    else if a == Seal(id) then c.receive.Sealing? && c.outstanding != [] && c' == SealConsumer(c)
    else if a.Commit? && a.id == id then a.index < HandedOut(c) && Nack !in a.dispositions && c' == CommitConsumer(c, a.index, a.dispositions)
    else if a.Rewind? && a.id == id then a.index < |c.pending| && c' == RewindConsumer(c, a.index)
    else c' == c.(receive := c'.receive) && (c'.receive == c.receive || (!c.receive.Sealing? && ReadsOn(c, c'.receive)))
  }

  predicate ReadsOn(c: Consumer, r: Receive) {
    r.Idle? || (Reading(r) && r.from == From(c))
  }

  lemma StepMoves(policy: Policy, premises: Premises, s: System, a: Action, id: string)
    requires Enabled(premises, s, a) && Undisturbed(a, id) && id in s.consumers
    ensures var s' := Next(policy, premises, s, a); id in s'.consumers && Moves(s.consumers[id], a, id, s'.consumers[id])
  {
  }

  /** What is covered below a batch in the caller's hands does not change until a nack or a restart;
      commits before it only bring it closer to the head. */
  lemma MoveKeepsBelow(c: Consumer, a: Action, id: string, c': Consumer, k: nat, o: nat)
    requires Moves(c, a, id, c') && (a.Commit? && a.id == id ==> a.index == 0) && CommitOf(a, id) <= k < HandedOut(c)
    ensures BelowKept(c, k, c', k - CommitOf(a, id), o)
  {
    if a.Commit? && a.id == id {
      AckKeepsBelow(c, k, a.dispositions, o);
    } else if a == Seal(id) {
      SealKeepsBelow(c, k, o);
    } else {
      SameBelow(c, c', k, o);
    }
  }

  lemma AckKeepsBelow(c: Consumer, k: nat, ds: seq<Disposition>, o: nat)
    requires Nack !in ds
    requires 1 <= k < HandedOut(c)
    ensures BelowKept(c, k, CommitConsumer(c, 0, ds), k - 1, o)
  {
    var c' := CommitConsumer(c, 0, ds);
    assert c'.outstanding == c.outstanding[1..];
    HeadMoves(c, c', k, o);
  }

  lemma SealKeepsBelow(c: Consumer, k: nat, o: nat)
    requires c.receive.Sealing? && k < HandedOut(c)
    ensures BelowKept(c, k, SealConsumer(c), k, o)
  {
    SealKeepsCoverage(c, k, o);
  }

  lemma StepKeepsBelow(policy: Policy, s: System, a: Action, id: string, k: nat, o: nat)
    requires Enabled(IN_ORDER, s, a) && Undisturbed(a, id)
    requires id in s.consumers && CommitOf(a, id) <= k < HandedOut(s.consumers[id])
    ensures var s' := Next(policy, IN_ORDER, s, a);
            id in s'.consumers && BelowKept(s.consumers[id], k, s'.consumers[id], k - CommitOf(a, id), o)
  {
    StepMoves(policy, IN_ORDER, s, a, id);
    MoveKeepsBelow(s.consumers[id], a, id, Next(policy, IN_ORDER, s, a).consumers[id], k, o);
  }

  lemma SameBelow(c: Consumer, c': Consumer, k: nat, o: nat)
    requires k <= |c.outstanding| <= |c'.outstanding| && c'.outstanding[..k] == c.outstanding[..k] && c'.committed == c.committed
    ensures Covered(c', k, o) <==> Covered(c, k, o)
  {
    if Covered(c, k, o) { CoverageCarries(c, c', k, k, o); }
    if Covered(c', k, o) { CoverageCarries(c', c, k, k, o); }
  }

  lemma HeadMoves(c: Consumer, c': Consumer, k: nat, o: nat)
    requires 1 <= k <= |c.outstanding|
    requires c'.outstanding == c.outstanding[1..] && c'.committed == c.committed + [c.outstanding[0]]
    ensures Covered(c', k - 1, o) <==> Covered(c, k, o)
  {
    if Covered(c, k, o) {
      HeadProcessed(c, c', k, o);
    }
    if i :| 0 <= i < |c'.committed| && InBatch(c'.committed[i], o) {
      assert if i < |c.committed| then InBatch(c.committed[i], o) else InBatch(c.outstanding[0], o);
    } else if j :| 0 <= j < k - 1 && InBatch(c'.outstanding[j], o) {
      assert InBatch(c.outstanding[j + 1], o);
    }
  }

  lemma {:induction false} RunKeepsBelow(policy: Policy, s: System, actions: seq<Action>, id: string, k: nat, o: nat)
    requires Legal(policy, IN_ORDER, s, actions) && AllUndisturbed(actions, id)
    requires id in s.consumers && Commits(actions, id) <= k < HandedOut(s.consumers[id])
    ensures var s' := Run(policy, IN_ORDER, s, actions);
            id in s'.consumers && BelowKept(s.consumers[id], k, s'.consumers[id], k - Commits(actions, id), o)
    decreases |actions|
  {
    if actions != [] {
      var a := actions[0];
      StepKeepsBelow(policy, s, a, id, k, o);
      var s1, k1 := Next(policy, IN_ORDER, s, a), k - CommitOf(a, id);
      RunKeepsBelow(policy, s1, actions[1..], id, k1, o);
      var s2 := Run(policy, IN_ORDER, s1, actions[1..]);
      BelowChains(s.consumers[id], k, s1.consumers[id], k1, s2.consumers[id], k1 - Commits(actions[1..], id), o);
    }
  }

  lemma BelowChains(c: Consumer, k: nat, c1: Consumer, k1: nat, c2: Consumer, k2: nat, o: nat)
    requires k < HandedOut(c) && k1 < HandedOut(c1) && BelowKept(c, k, c1, k1, o) && BelowKept(c1, k1, c2, k2, o)
    ensures BelowKept(c, k, c2, k2, o)
  {
  }

  /** The exact condition for a frontier that is never ahead, decided when a batch is handed out: with
      in-order commits, and without a nack or restart in between, its ack leaves everything up to its
      end processed exactly when at that moment everything below it was processed or in an earlier
      outstanding batch. */
  lemma AckJustifiedExactly(policy: Policy, s: System, actions: seq<Action>, id: string, k: nat,
                            dispositions: seq<Disposition>, now: int, s1: System, s2: System)
    requires LogInv(policy, s) && Legal(policy, IN_ORDER, s, actions) && AllUndisturbed(actions, id)
    requires id in s.consumers && Commits(actions, id) == k < HandedOut(s.consumers[id])
    requires s.consumers[id].outstanding[k].readAt == s.consumers[id].rewinds
    requires s1 == Run(policy, IN_ORDER, s, actions)
    requires Enabled(IN_ORDER, s1, Commit(id, 0, dispositions, now)) && Nack !in dispositions
    requires s2 == Next(policy, IN_ORDER, s1, Commit(id, 0, dispositions, now))
    ensures var c := s.consumers[id];
            && (id in s1.subs ==> id in s2.subs && s2.subs[id].lastAck >= c.outstanding[k].hi)
            && id in s2.consumers
            && ((forall o: nat :: 1 <= o <= c.outstanding[k].hi ==> Processed(s2.consumers[id], o)) <==> LowerCovered(c, k))
  {
    var c := s.consumers[id];
    RunKeepsAllBelow(policy, s, actions, id);
    assert BelowKept(c, k, s1.consumers[id], 0, 0);
    assert Reads(s, c) && Faithful(s.log, c.outstanding[k]);
    AckMovesFrontier(policy, s1, id, dispositions, now);
    HeadAckExactly(c, k, s1.consumers[id], dispositions);
  }

  lemma RunKeepsAllBelow(policy: Policy, s: System, actions: seq<Action>, id: string)
    requires Legal(policy, IN_ORDER, s, actions) && AllUndisturbed(actions, id)
    requires id in s.consumers && Commits(actions, id) < HandedOut(s.consumers[id])
    ensures var s' := Run(policy, IN_ORDER, s, actions);
            id in s'.consumers && forall o: nat :: BelowKept(s.consumers[id], Commits(actions, id), s'.consumers[id], 0, o)
  {
    RunKeepsBelow(policy, s, actions, id, Commits(actions, id), 0);
    forall o: nat ensures BelowKept(s.consumers[id], Commits(actions, id), Run(policy, IN_ORDER, s, actions).consumers[id], 0, o) {
      RunKeepsBelow(policy, s, actions, id, Commits(actions, id), o);
    }
  }

  lemma HeadAckExactly(c: Consumer, k: nat, c1: Consumer, ds: seq<Disposition>)
    requires Nack !in ds
    requires k < HandedOut(c) && 0 < HandedOut(c1) && forall o: nat :: BelowKept(c, k, c1, 0, o)
    requires c.outstanding[k].lo <= c.outstanding[k].hi
    ensures (forall o: nat :: 1 <= o <= c.outstanding[k].hi ==> Processed(CommitConsumer(c1, 0, ds), o)) <==> LowerCovered(c, k)
  {
    var b, c2 := c.outstanding[k], CommitConsumer(c1, 0, ds);
    forall o: nat ensures Processed(c2, o) <==> Covered(c, k, o) || InBatch(b, o) {
      assert BelowKept(c, k, c1, 0, o);
      ProcessedByAck(c1, ds, o);
    }
    forall o: nat | 1 <= o <= b.lo ensures !InBatch(b, o) { }
  }

  lemma AckMovesFrontier(policy: Policy, s: System, id: string, dispositions: seq<Disposition>, now: int)
    requires Enabled(IN_ORDER, s, Commit(id, 0, dispositions, now)) && Nack !in dispositions
    requires s.consumers[id].outstanding[0].readAt == s.consumers[id].rewinds
    ensures var s' := Next(policy, IN_ORDER, s, Commit(id, 0, dispositions, now));
            && s'.consumers[id] == CommitConsumer(s.consumers[id], 0, dispositions)
            && (id in s.subs ==> id in s'.subs && s'.subs[id].lastAck >= s.consumers[id].outstanding[0].hi)
  {
  }

  lemma ProcessedByAck(c: Consumer, ds: seq<Disposition>, o: nat)
    requires Nack !in ds
    requires c.outstanding != []
    ensures Processed(CommitConsumer(c, 0, ds), o) <==> Covered(c, 0, o) || InBatch(c.outstanding[0], o)
  {
    var c' := CommitConsumer(c, 0, ds);
    if InBatch(c.outstanding[0], o) {
      AckedIsProcessed(c, 0, ds, o);
    } else if Processed(c, o) {
      StillProcessed(c, c', o);
    }
    if i :| 0 <= i < |c'.committed| && InBatch(c'.committed[i], o) {
      assert i < |c.committed| ==> InBatch(c.committed[i], o);
    }
  }

  /** What decides it when the epoch is loaded: with nothing skipped so far, the batch handed out has
      everything below it covered exactly when that holds between where the consumer will read on and
      the batch's start. */
  lemma SealSafeExactly(c: Consumer)
    requires NoneSkipped(c) && c.outstanding != []
    ensures var last := |c.outstanding| - 1;
            LowerCovered(SealConsumer(c), last) <==>
            forall o: nat :: 1 <= o <= c.outstanding[last].lo && !Due(c, o) ==> Covered(c, last, o)
  {
    var last := |c.outstanding| - 1;
    forall o: nat | 1 <= o <= c.outstanding[last].lo
      ensures Covered(SealConsumer(c), last, o) <==> Covered(c, last, o)
      ensures Due(c, o) ==> Covered(c, last, o)
    {
      SealKeepsCoverage(c, last, o);
      CoveredBefore(c, last, o);
      assert last + 1 == |c.outstanding|;
    }
  }

  /** And when the position is stored: nothing is skipped afterwards exactly when everything between the
      position it finds and the one the receive loaded is covered. */
  lemma StoreSkipsExactly(c: Consumer)
    requires NoneSkipped(c) && c.receive.Fetched?
    requires StoreConsumer(c).position >= c.receive.from
    ensures NoneSkipped(StoreConsumer(c)) <==>
            forall o: nat :: c.position < o <= c.receive.from && (forall i :: 0 <= i < |c.pending| ==> o <= c.pending[i]) ==> Covered(c, |c.outstanding|, o)
  {
    var c', n := StoreConsumer(c), |c.outstanding|;
    var m := n + 1;
    forall o: nat ensures Covered(c', m, o) <==> Covered(c, n, o) || InBatch(c'.outstanding[n], o) {
      StoredCoverage(c, o);
    }
    forall o: nat | Due(c', o) ensures Due(c, o) || c.position < o { }
    forall o: nat | Due(c, o) && o <= c'.position ensures Covered(c, n, o) { }
    forall o: nat | c.position < o <= c.receive.from ensures Due(c', o) <==> forall i :: 0 <= i < |c.pending| ==> o <= c.pending[i] { }
  }

  lemma StoredCoverage(c: Consumer, o: nat)
    requires c.receive.Fetched?
    ensures var c', n := StoreConsumer(c), |c.outstanding|;
            var m := n + 1;
            Covered(c', m, o) <==> Covered(c, n, o) || InBatch(c'.outstanding[n], o)
  {
    var c', n := StoreConsumer(c), |c.outstanding|;
    if Covered(c, n, o) { CoverageCarries(c, c', n, n, o); }
    if j :| 0 <= j < n + 1 && InBatch(c'.outstanding[j], o) {
      assert j < n ==> InBatch(c.outstanding[j], o);
    }
  }

  /** Skipped: at or below the position, neither processed nor outstanding, and not being read. */
  ghost predicate Skipped(c: Consumer, o: nat) {
    Due(c, o) && !Covered(c, |c.outstanding|, o) && (Reading(c.receive) ==> o <= c.receive.from)
  }

  lemma StepKeepsSkipped(policy: Policy, premises: Premises, s: System, a: Action, id: string, o: nat)
    requires Enabled(premises, s, a) && Undisturbed(a, id) && LogInv(policy, s)
    requires id in s.consumers && Skipped(s.consumers[id], o)
    ensures var s' := Next(policy, premises, s, a); id in s'.consumers && Skipped(s'.consumers[id], o)
  {
    StepMoves(policy, premises, s, a, id);
    MoveKeepsSkipped(policy, s, s.consumers[id], a, id, Next(policy, premises, s, a).consumers[id], o);
  }

  lemma MoveKeepsSkipped(policy: Policy, s: System, c: Consumer, a: Action, id: string, c': Consumer, o: nat)
    requires LogInv(policy, s) && Reads(s, c) && Moves(c, a, id, c') && Skipped(c, o)
    ensures Skipped(c', o)
  {
    if a == Store(id) {
      StoreKeepsSkipped(policy, s, c, o);
    } else if a == Seal(id) {
      SealKeepsCoverage(c, |c.outstanding|, o);
    } else if a.Commit? && a.id == id {
      UncoveredByAck(c, a.index, a.dispositions, o);
    } else if a.Rewind? && a.id == id {
      RewindKeepsSkipped(c, a.index, o);
    } else {
      SameBelow(c, c', |c.outstanding|, o);
    }
  }

  lemma StoreKeepsSkipped(policy: Policy, s: System, c: Consumer, o: nat)
    requires LogInv(policy, s) && Reads(s, c) && c.receive.Fetched? && Skipped(c, o)
    ensures Skipped(StoreConsumer(c), o)
  {
    FetchedBatch(policy, s.log, c.receive.from, c.receive.events, c.rewinds);
    StoredCoverage(c, o);
  }

  lemma RewindKeepsSkipped(c: Consumer, index: nat, o: nat)
    requires index < |c.pending| && Skipped(c, o)
    ensures Skipped(RewindConsumer(c, index), o)
  {
    var c' := RewindConsumer(c, index);
    assert forall i :: 0 <= i < |c'.pending| ==> c'.pending[i] == c.pending[if i < index then i else i + 1];
    SameBelow(c, c', |c.outstanding|, o);
  }

  lemma UncoveredByAck(c: Consumer, index: nat, ds: seq<Disposition>, o: nat)
    requires Nack !in ds
    requires index < |c.outstanding| && !Covered(c, |c.outstanding|, o)
    ensures var c' := CommitConsumer(c, index, ds); !Covered(c', |c'.outstanding|, o)
  {
    var c' := CommitConsumer(c, index, ds);
    forall i | 0 <= i < |c'.committed| ensures !InBatch(c'.committed[i], o) {
      assert c'.committed[i] == if i < |c.committed| then c.committed[i] else c.outstanding[index];
    }
    forall j | 0 <= j < |c'.outstanding| ensures !InBatch(c'.outstanding[j], o) {
      assert c'.outstanding[j] == c.outstanding[if j < index then j else j + 1];
    }
  }

  /** Without any premise: a skipped offset stays skipped until a nack or a restart of its consumer. */
  lemma {:induction false} SkippedStays(policy: Policy, premises: Premises, s: System, actions: seq<Action>, id: string, o: nat)
    requires LogInv(policy, s) && Legal(policy, premises, s, actions) && AllUndisturbed(actions, id)
    requires id in s.consumers && Skipped(s.consumers[id], o)
    ensures var s' := Run(policy, premises, s, actions); id in s'.consumers && Skipped(s'.consumers[id], o)
    decreases |actions|
  {
    if actions != [] {
      StepKeepsLogInv(policy, premises, s, actions[0]);
      StepKeepsSkipped(policy, premises, s, actions[0], id, o);
      SkippedStays(policy, premises, Next(policy, premises, s, actions[0]), actions[1..], id, o);
    }
  }

  /** An ack in its own epoch of a batch that ends at or above a skipped offset moves the frontier past
      it unprocessed. */
  lemma AckPassesSkipped(policy: Policy, premises: Premises, s: System, id: string, index: nat, dispositions: seq<Disposition>, now: int, o: nat)
    requires Enabled(premises, s, Commit(id, index, dispositions, now)) && Nack !in dispositions
    requires var c := s.consumers[id]; c.outstanding[index].readAt == c.rewinds && Skipped(c, o) && o <= c.outstanding[index].hi
    requires id in s.subs
    ensures var s' := Next(policy, premises, s, Commit(id, index, dispositions, now));
            s'.subs[id].lastAck >= o && !Processed(s'.consumers[id], o)
  {
    UncoveredByAck(s.consumers[id], index, dispositions, o);
  }

  // ---------------------------------------------------------------- why both premises are needed

  const KEEP_ALL := Policy(None, None, 0, 0)

  function ReceiveOne(id: string): (r: seq<Action>) {
    [Begin(id, 0)] + ReadOne(id)
  }

  function ReadOne(id: string): (r: seq<Action>) {
    [Read(id, 1), Store(id)] + [Seal(id)]
  }

  function NackInside(id: string): (r: seq<Action>) {
    [Begin(id, 0), Commit(id, 0, [Nack], 0)] + [Rewind(id, 0)]
  }

  function SetUp(id: string, m: Message): (r: seq<Action>) {
    [AppendBatch([m, m], 0), NewConsumer(id)]
  }

  /** Two batches are received and the second commits first. */
  function OutOfOrderRun(id: string, m: Message): (r: seq<Action>) {
    SetUp(id, m) + (ReceiveOne(id) + (ReceiveOne(id) + [Commit(id, 1, [Ack], 0)]))
  }

  /** A nack lands between the position load and the read of the next receive. */
  function SplitReceiveRun(id: string, m: Message): (r: seq<Action>) {
    SetUp(id, m) + (ReceiveOne(id) + (NackInside(id) + (ReadOne(id) + [Commit(id, 0, [Ack], 0)])))
  }

  /** `run` leads from `s` to `s'`. */
  ghost predicate Leads(premises: Premises, s: System, run: seq<Action>, s': System) {
    Legal(KEEP_ALL, premises, s, run) && Run(KEEP_ALL, premises, s, run) == s'
  }

  lemma {:induction false} LeadsOn(premises: Premises, s: System, first: seq<Action>, mid: System, rest: seq<Action>, end: System)
    requires Leads(premises, s, first, mid) && Leads(premises, mid, rest, end)
    ensures Leads(premises, s, first + rest, end)
    decreases |first|
  {
    if first == [] {
      assert first + rest == rest;
    } else {
      assert (first + rest)[1..] == first[1..] + rest;
      LeadsOn(premises, Next(KEEP_ALL, premises, s, first[0]), first[1..], mid, rest, end);
    }
  }

  lemma LeadsOne(premises: Premises, s: System, a: Action, s': System)
    requires Enabled(premises, s, a) && Next(KEEP_ALL, premises, s, a) == s'
    ensures Leads(premises, s, [a], s')
  {
    assert [a][1..] == [];
  }

  lemma LeadsTwo(premises: Premises, s: System, a: Action, mid: System, b: Action, s': System)
    requires Enabled(premises, s, a) && Next(KEEP_ALL, premises, s, a) == mid
    requires Enabled(premises, mid, b) && Next(KEEP_ALL, premises, mid, b) == s'
    ensures Leads(premises, s, [a, b], s')
  {
    LeadsOne(premises, s, a, mid);
    LeadsOne(premises, mid, b, s');
    LeadsOn(premises, s, [a], mid, [b], s');
    assert [a] + [b] == [a, b];
  }

  function TwoEvents(m: Message): (log: Log) {
    AppendMany(KEEP_ALL, EMPTY, [m, m], 0)
  }

  /** The log both runs work on, and what a read of one event sees. */
  lemma TwoEventReads(m: Message)
    ensures EventsSince(TwoEvents(m), 0, 1) == Events([StoredEvent(m, 1, 0)])
    ensures EventsSince(TwoEvents(m), 1, 1) == Events([StoredEvent(m, 2, 0)])
  {
    var log := TwoEvents(m);
    assert log.events == [StoredEvent(m, 1, 0), StoredEvent(m, 2, 0)];
    NewerIsSuffix(log.events, 1, 0);
    NewerIsSuffix(log.events, 1, 1);
  }

  /** A system with one consumer over the two-event log. */
  function Single(id: string, m: Message, ack: nat, c: Consumer, delivered: nat, handed: set<nat>): (s: System) {
    INITIAL.(log := TwoEvents(m), subs := map[id := Subscriber(ack, 0)], consumers := map[id := c], delivered := delivered, handed := handed)
  }

  function StoredOne(c: Consumer, o: nat, m: Message): (r: Consumer) {
    c.(position := o + 1, receive := Sealing, outstanding := c.outstanding + [Batch(o, o + 1, c.rewinds, [m])])
  }

  lemma StoresOne(premises: Premises, id: string, m: Message, ack: nat, c: Consumer, handed: set<nat>, delivered: nat, o: nat)
    requires delivered <= o && c.receive == Fetched(o, [StoredEvent(m, o + 1, 0)]) && (premises.untorn ==> c.position == o)
    ensures var s := Single(id, m, ack, c, delivered, handed);
            Enabled(premises, s, Store(id)) && Next(KEEP_ALL, premises, s, Store(id)) == Single(id, m, ack, StoredOne(c, o, m), o + 1, handed + {o + 1})
  {
    var events := [StoredEvent(m, o + 1, 0)];
    assert Payloads(events) == [m];
    assert (set e | e in events :: e.offset) == {o + 1} by {
      assert events[0] in events;
    }
  }

  lemma SealsOne(premises: Premises, id: string, m: Message, ack: nat, c: Consumer, handed: set<nat>, delivered: nat, o: nat)
    requires c.pending == []
    ensures Leads(premises, Single(id, m, ack, StoredOne(c, o, m), delivered, handed), [Seal(id)],
                  Single(id, m, ack, StoredOne(c, o, m).(receive := Idle), delivered, handed))
  {
    var stored := StoredOne(c, o, m);
    assert SealConsumer(stored).outstanding == stored.outstanding;
    LeadsOne(premises, Single(id, m, ack, stored, delivered, handed), Seal(id), Single(id, m, ack, stored.(receive := Idle), delivered, handed));
  }

  /** The rest of a receive that loaded position `o`. */
  lemma ReadsOne(premises: Premises, id: string, m: Message, ack: nat, c: Consumer, handed: set<nat>, delivered: nat, o: nat)
    requires o <= 1 && delivered <= o && c.receive == Started(o) && c.pending == [] && (premises.untorn ==> c.position == o)
    ensures Leads(premises, Single(id, m, ack, c, delivered, handed), ReadOne(id),
                  Single(id, m, ack, c.(position := o + 1, receive := Idle, outstanding := c.outstanding + [Batch(o, o + 1, c.rewinds, [m])]),
                         o + 1, handed + {o + 1}))
  {
    TwoEventReads(m);
    var s := Single(id, m, ack, c, delivered, handed);
    var fetched := c.(receive := Fetched(o, [StoredEvent(m, o + 1, 0)]));
    var mid := Single(id, m, ack, fetched, delivered, handed);
    StoresOne(premises, id, m, ack, fetched, handed, delivered, o);
    var stored := Single(id, m, ack, StoredOne(fetched, o, m), o + 1, handed + {o + 1});
    LeadsTwo(premises, s, Read(id, 1), mid, Store(id), stored);
    SealsOne(premises, id, m, ack, fetched, handed + {o + 1}, o + 1, o);
    LeadsOn(premises, s, [Read(id, 1), Store(id)], stored, [Seal(id)], Single(id, m, ack, StoredOne(fetched, o, m).(receive := Idle), o + 1, handed + {o + 1}));
  }

  lemma ReceivesOne(premises: Premises, id: string, m: Message, c: Consumer, handed: set<nat>, delivered: nat)
    requires c.position <= 1 && delivered <= c.position && c.receive == Idle && c.pending == []
    ensures var o := c.position;
            Leads(premises, Single(id, m, 0, c, delivered, handed), ReceiveOne(id),
                  Single(id, m, 0, c.(position := o + 1, outstanding := c.outstanding + [Batch(o, o + 1, c.rewinds, [m])]), o + 1, handed + {o + 1}))
  {
    var s := Single(id, m, 0, c, delivered, handed);
    var started := c.(receive := Started(c.position));
    LeadsOne(premises, s, Begin(id, 0), Single(id, m, 0, started, delivered, handed));
    ReadsOne(premises, id, m, 0, started, handed, delivered, c.position);
    var o := c.position;
    var end := Single(id, m, 0, c.(position := o + 1, outstanding := c.outstanding + [Batch(o, o + 1, c.rewinds, [m])]), o + 1, handed + {o + 1});
    LeadsOn(premises, s, [Begin(id, 0)], Single(id, m, 0, started, delivered, handed), ReadOne(id), end);
  }

  /** Both runs start by receiving the first event. */
  lemma FirstReceived(premises: Premises, id: string, m: Message)
    ensures Leads(premises, INITIAL, SetUp(id, m) + ReceiveOne(id),
                  Single(id, m, 0, Consumer(1, 0, [], Idle, [Batch(0, 1, 0, [m])], [], []), 1, {1}))
  {
    var s1 := INITIAL.(log := TwoEvents(m));
    var s2 := s1.(consumers := map[id := FRESH]);
    LeadsTwo(premises, INITIAL, AppendBatch([m, m], 0), s1, NewConsumer(id), s2);
    var started := FRESH.(receive := Started(0));
    var s3 := Single(id, m, 0, started, 0, {});
    assert Next(KEEP_ALL, premises, s2, Begin(id, 0)) == s3;
    LeadsOne(premises, s2, Begin(id, 0), s3);
    ReadsOne(premises, id, m, 0, started, {}, 0, 0);
    assert {} + {1} == {1} && [] + [Batch(0, 1, 0, [m])] == [Batch(0, 1, 0, [m])];
    var end := Single(id, m, 0, Consumer(1, 0, [], Idle, [Batch(0, 1, 0, [m])], [], []), 1, {1});
    LeadsOn(premises, s2, [Begin(id, 0)], s3, ReadOne(id), end);
    LeadsOn(premises, INITIAL, SetUp(id, m), s2, ReceiveOne(id), end);
  }

  /** The frontier theorem is false without in-order commits: acking the second batch first moves
      the frontier past an event nobody processed. */
  lemma OutOfOrderCommitOvertakes(id: string, m: Message)
    ensures Legal(KEEP_ALL, Premises(false, true), INITIAL, OutOfOrderRun(id, m))
    ensures var s := Run(KEEP_ALL, Premises(false, true), INITIAL, OutOfOrderRun(id, m));
            id in s.subs && s.subs[id].lastAck == 2 && id in s.consumers && !Processed(s.consumers[id], 1)
  {
    var premises := Premises(false, true);
    FirstReceived(premises, id, m);
    var first, second := Batch(0, 1, 0, [m]), Batch(1, 2, 0, [m]);
    var c := Consumer(1, 0, [], Idle, [first], [], []);
    ReceivesOne(premises, id, m, c, {1}, 1);
    assert [first] + [second] == [first, second];
    var both := Single(id, m, 0, Consumer(2, 0, [], Idle, [first, second], [], []), 2, {1} + {2});
    var end := Single(id, m, 2, Consumer(2, 0, [], Idle, [first], [second], [[Ack]]), 2, {1} + {2});
    AcksSecond(premises, id, m, first, second);
    LeadsOn(premises, Single(id, m, 0, c, 1, {1}), ReceiveOne(id), both, [Commit(id, 1, [Ack], 0)], end);
    LeadsOn(premises, INITIAL, SetUp(id, m) + ReceiveOne(id), Single(id, m, 0, c, 1, {1}), ReceiveOne(id) + [Commit(id, 1, [Ack], 0)], end);
    assert (SetUp(id, m) + ReceiveOne(id)) + (ReceiveOne(id) + [Commit(id, 1, [Ack], 0)]) == OutOfOrderRun(id, m);
  }

  lemma AcksSecond(premises: Premises, id: string, m: Message, first: Batch, second: Batch)
    requires !premises.inOrder && second.readAt == 0 && second.hi == 2
    ensures Leads(premises, Single(id, m, 0, Consumer(2, 0, [], Idle, [first, second], [], []), 2, {1} + {2}), [Commit(id, 1, [Ack], 0)],
                  Single(id, m, 2, Consumer(2, 0, [], Idle, [first], [second], [[Ack]]), 2, {1} + {2}))
  {
    assert Without([first, second], 1) == [first] && [] + [second] == [second] && [] + [[Ack]] == [[Ack]];
    LeadsOne(premises, Single(id, m, 0, Consumer(2, 0, [], Idle, [first, second], [], []), 2, {1} + {2}), Commit(id, 1, [Ack], 0),
             Single(id, m, 2, Consumer(2, 0, [], Idle, [first], [second], [[Ack]]), 2, {1} + {2}));
  }

  /** The frontier theorem is false when a nack may land inside a receive: the receive stores the
      position it loaded before the rewind, under the epoch after it. */
  lemma NackInsideReceiveOvertakes(id: string, m: Message)
    ensures Legal(KEEP_ALL, Premises(true, false), INITIAL, SplitReceiveRun(id, m))
    ensures var s := Run(KEEP_ALL, Premises(true, false), INITIAL, SplitReceiveRun(id, m));
            id in s.subs && s.subs[id].lastAck == 2 && id in s.consumers && !Processed(s.consumers[id], 1)
  {
    var premises := Premises(true, false);
    FirstReceived(premises, id, m);
    var s0 := Single(id, m, 0, Consumer(1, 0, [], Idle, [Batch(0, 1, 0, [m])], [], []), 1, {1});
    var s1 := Single(id, m, 0, Consumer(0, 1, [], Started(1), [], [], []), 1, {1});
    NacksInside(premises, id, m);
    ReadsOne(premises, id, m, 0, Consumer(0, 1, [], Started(1), [], [], []), {1}, 1, 1);
    var batch := Batch(1, 2, 1, [m]);
    assert [] + [batch] == [batch];
    var s2 := Single(id, m, 0, Consumer(2, 1, [], Idle, [batch], [], []), 2, {1} + {2});
    var end := Single(id, m, 2, Consumer(2, 1, [], Idle, [], [batch], [[Ack]]), 2, {1} + {2});
    AcksOnly(premises, id, m, 2, batch);
    var nack, ack := NackInside(id), [Commit(id, 0, [Ack], 0)];
    LeadsOn(premises, s1, ReadOne(id), s2, ack, end);
    LeadsOn(premises, s0, nack, s1, ReadOne(id) + ack, end);
    LeadsOn(premises, INITIAL, SetUp(id, m) + ReceiveOne(id), s0, nack + (ReadOne(id) + ack), end);
    assert (SetUp(id, m) + ReceiveOne(id)) + (nack + (ReadOne(id) + ack)) == SplitReceiveRun(id, m);
  }

  lemma NackBumps(batch: Batch)
    requires batch.lo == 0
    ensures Nack in [Nack]
    ensures CommitConsumer(Consumer(1, 0, [], Started(1), [batch], [], []), 0, [Nack]) == Consumer(1, 1, [0], Started(1), [], [], [])
  {
    assert [Nack][0].Nack? && Without([batch], 0) == [] && [] + [0] == [0];
  }

  lemma NacksInside(premises: Premises, id: string, m: Message)
    ensures Leads(premises, Single(id, m, 0, Consumer(1, 0, [], Idle, [Batch(0, 1, 0, [m])], [], []), 1, {1}), NackInside(id),
                  Single(id, m, 0, Consumer(0, 1, [], Started(1), [], [], []), 1, {1}))
  {
    var batch := Batch(0, 1, 0, [m]);
    var s0 := Single(id, m, 0, Consumer(1, 0, [], Idle, [batch], [], []), 1, {1});
    var s1 := Single(id, m, 0, Consumer(1, 0, [], Started(1), [batch], [], []), 1, {1});
    var s2 := Single(id, m, 0, Consumer(1, 1, [0], Started(1), [], [], []), 1, {1});
    var s3 := Single(id, m, 0, Consumer(0, 1, [], Started(1), [], [], []), 1, {1});
    NackBumps(batch);
    LeadsTwo(premises, s0, Begin(id, 0), s1, Commit(id, 0, [Nack], 0), s2);
    assert RewindConsumer(s2.consumers[id], 0) == s3.consumers[id] by { assert Without([0], 0) == []; }
    LeadsOne(premises, s2, Rewind(id, 0), s3);
    LeadsOn(premises, s0, [Begin(id, 0), Commit(id, 0, [Nack], 0)], s2, [Rewind(id, 0)], s3);
  }

  lemma AcksOnly(premises: Premises, id: string, m: Message, position: nat, batch: Batch)
    requires batch.readAt == 1 && batch.hi == 2
    ensures Leads(premises, Single(id, m, 0, Consumer(position, 1, [], Idle, [batch], [], []), 2, {1} + {2}), [Commit(id, 0, [Ack], 0)],
                  Single(id, m, 2, Consumer(position, 1, [], Idle, [], [batch], [[Ack]]), 2, {1} + {2}))
  {
    assert Without([batch], 0) == [] && [] + [batch] == [batch] && [] + [[Ack]] == [[Ack]];
    LeadsOne(premises, Single(id, m, 0, Consumer(position, 1, [], Idle, [batch], [], []), 2, {1} + {2}), Commit(id, 0, [Ack], 0),
             Single(id, m, 2, Consumer(position, 1, [], Idle, [], [batch], [[Ack]]), 2, {1} + {2}));
  }

  /** A receive that stored its position and has not loaded the epoch yet. */
  function StoreOnly(id: string): (r: seq<Action>) {
    [Begin(id, 0)] + [Read(id, 1), Store(id)]
  }

  function NackThenSeal(id: string): (r: seq<Action>) {
    [Commit(id, 0, [Nack], 0), Rewind(id, 0)] + [Seal(id)]
  }

  function LateSealRun(id: string, m: Message): (r: seq<Action>) {
    SetUp(id, m) + (ReceiveOne(id) + (StoreOnly(id) + (NackThenSeal(id) + [Commit(id, 0, [Ack], 0)])))
  }

  lemma StoresBehind(premises: Premises, id: string, m: Message)
    ensures Leads(premises, Single(id, m, 0, Consumer(1, 0, [], Idle, [Batch(0, 1, 0, [m])], [], []), 1, {1}), StoreOnly(id),
                  Single(id, m, 0, Consumer(2, 0, [], Sealing, [Batch(0, 1, 0, [m]), Batch(1, 2, 0, [m])], [], []), 2, {1} + {2}))
  {
    TwoEventReads(m);
    var first, second := Batch(0, 1, 0, [m]), Batch(1, 2, 0, [m]);
    var s0 := Single(id, m, 0, Consumer(1, 0, [], Idle, [first], [], []), 1, {1});
    var s1 := Single(id, m, 0, Consumer(1, 0, [], Started(1), [first], [], []), 1, {1});
    var fetched := Consumer(1, 0, [], Fetched(1, [StoredEvent(m, 2, 0)]), [first], [], []);
    var s3 := Single(id, m, 0, Consumer(2, 0, [], Sealing, [first, second], [], []), 2, {1} + {2});
    StoresOne(premises, id, m, 0, fetched, {1}, 1, 1);
    assert [first] + [second] == [first, second];
    LeadsOne(premises, s0, Begin(id, 0), s1);
    LeadsTwo(premises, s1, Read(id, 1), Single(id, m, 0, fetched, 1, {1}), Store(id), s3);
    LeadsOn(premises, s0, [Begin(id, 0)], s1, [Read(id, 1), Store(id)], s3);
  }

  lemma NacksFirst(premises: Premises, id: string, m: Message, first: Batch, second: Batch)
    requires first.lo == 0
    ensures Leads(premises, Single(id, m, 0, Consumer(2, 0, [], Sealing, [first, second], [], []), 2, {1} + {2}),
                  [Commit(id, 0, [Nack], 0), Rewind(id, 0)],
                  Single(id, m, 0, Consumer(0, 1, [], Sealing, [second], [], []), 2, {1} + {2}))
  {
    var s0 := Single(id, m, 0, Consumer(2, 0, [], Sealing, [first, second], [], []), 2, {1} + {2});
    var s1 := Single(id, m, 0, Consumer(2, 1, [0], Sealing, [second], [], []), 2, {1} + {2});
    var s2 := Single(id, m, 0, Consumer(0, 1, [], Sealing, [second], [], []), 2, {1} + {2});
    assert [Nack][0].Nack? && Without([first, second], 0) == [second] && [] + [0] == [0] && Without([0], 0) == [];
    LeadsTwo(premises, s0, Commit(id, 0, [Nack], 0), s1, Rewind(id, 0), s2);
  }

  lemma SealsAfterNack(premises: Premises, id: string, m: Message)
    requires !premises.untorn
    ensures Leads(premises, Single(id, m, 0, Consumer(2, 0, [], Sealing, [Batch(0, 1, 0, [m]), Batch(1, 2, 0, [m])], [], []), 2, {1} + {2}),
                  NackThenSeal(id), Single(id, m, 0, Consumer(0, 1, [], Idle, [Batch(1, 2, 1, [m])], [], []), 2, {1} + {2}))
  {
    var first, second := Batch(0, 1, 0, [m]), Batch(1, 2, 0, [m]);
    var s0 := Single(id, m, 0, Consumer(2, 0, [], Sealing, [first, second], [], []), 2, {1} + {2});
    var s2 := Single(id, m, 0, Consumer(0, 1, [], Sealing, [second], [], []), 2, {1} + {2});
    var s3 := Single(id, m, 0, Consumer(0, 1, [], Idle, [Batch(1, 2, 1, [m])], [], []), 2, {1} + {2});
    NacksFirst(premises, id, m, first, second);
    assert SealConsumer(s2.consumers[id]).outstanding == [Batch(1, 2, 1, [m])];
    LeadsOne(premises, s2, Seal(id), s3);
    LeadsOn(premises, s0, [Commit(id, 0, [Nack], 0), Rewind(id, 0)], s2, [Seal(id)], s3);
  }

  /** It is also false when the nack lands after the position is stored and before the epoch is loaded:
      the batch then carries the epoch of a rewind it does not know of. */
  lemma NackBeforeSealOvertakes(id: string, m: Message)
    ensures Legal(KEEP_ALL, Premises(true, false), INITIAL, LateSealRun(id, m))
    ensures var s := Run(KEEP_ALL, Premises(true, false), INITIAL, LateSealRun(id, m));
            id in s.subs && s.subs[id].lastAck == 2 && id in s.consumers && !Processed(s.consumers[id], 1)
  {
    var premises, batch := Premises(true, false), Batch(1, 2, 1, [m]);
    var s0 := Single(id, m, 0, Consumer(1, 0, [], Idle, [Batch(0, 1, 0, [m])], [], []), 1, {1});
    var s1 := Single(id, m, 0, Consumer(2, 0, [], Sealing, [Batch(0, 1, 0, [m]), Batch(1, 2, 0, [m])], [], []), 2, {1} + {2});
    var s2 := Single(id, m, 0, Consumer(0, 1, [], Idle, [batch], [], []), 2, {1} + {2});
    var end := Single(id, m, 2, Consumer(0, 1, [], Idle, [], [batch], [[Ack]]), 2, {1} + {2});
    FirstReceived(premises, id, m);
    StoresBehind(premises, id, m);
    SealsAfterNack(premises, id, m);
    AcksOnly(premises, id, m, 0, batch);
    var store, seal, ack := StoreOnly(id), NackThenSeal(id), [Commit(id, 0, [Ack], 0)];
    LeadsOn(premises, s1, seal, s2, ack, end);
    LeadsOn(premises, s0, store, s1, seal + ack, end);
    LeadsOn(premises, INITIAL, SetUp(id, m) + ReceiveOne(id), s0, store + (seal + ack), end);
    assert (SetUp(id, m) + ReceiveOne(id)) + (store + (seal + ack)) == LateSealRun(id, m);
  }
}
