/** The value of an in-memory event log and the pure form of every operation on it
    (`src/event_store.rs`). The class in `EventStore.dfy` refines these functions and the
    run model in `EventRuns.dfy` steps through them. */
module EventLog {
  import opened Messages

  const U64_MAX: nat := 0xFFFF_FFFF_FFFF_FFFF

  /** Clock readings are nanoseconds relative to the Unix epoch; `storedAt` is milliseconds. */
  const NANOS_PER_MILLI: nat := 1_000_000

  datatype StoredEvent = StoredEvent(message: Message, offset: nat, storedAt: nat)

  datatype Policy = Policy(maxAge: Option<nat>, maxCount: Option<nat>, subscriberTimeout: nat, gcInterval: nat)

  datatype Subscriber = Subscriber(lastAck: nat, lastSeen: int)

  /** `history`, `dropLog` and `collected` are bookkeeping: everything ever appended (numbered by
      position, not by `next`), everything ever drained in order, and how many of those GC drained. */
  datatype Log = Log(
    events: seq<StoredEvent>,
    base: nat,
    next: nat,
    dropped: nat,
    history: seq<StoredEvent>,
    dropLog: seq<StoredEvent>,
    collected: nat)

  const EMPTY := Log([], 1, 1, 0, [], [], 0)

  /** Conservation: nothing is lost, duplicated or renumbered between the log, its drop log and
      the append history, and the retention bound holds. */
  ghost predicate Conserved(policy: Policy, log: Log) {
    && log.dropLog + log.events == log.history
    && log.next == |log.history| + 1
    && log.base == |log.dropLog| + 1
    && log.dropped + log.collected == |log.dropLog|
    && (forall i :: 0 <= i < |log.history| ==> log.history[i].offset == i + 1)
    && (policy.maxCount.Some? ==> |log.events| <= policy.maxCount.value)
  }

  lemma LiveOffsets(policy: Policy, log: Log, i: nat)
    requires Conserved(policy, log)
    requires i < |log.events|
    ensures log.events[i].offset == log.base + i
    ensures log.events[i] == log.history[log.base + i - 1]
  {
    assert log.events[i] == (log.dropLog + log.events)[|log.dropLog| + i];
  }

  // ---------------------------------------------------------------- append

  function Millis(now: int): (ms: nat) {
    if now < 0 then 0 else (now / NANOS_PER_MILLI) % (U64_MAX + 1)
  }

  function Stamp(messages: seq<Message>, start: nat, storedAt: nat): (r: seq<StoredEvent>) {
    seq(|messages|, i requires 0 <= i < |messages| => StoredEvent(messages[i], start + i, storedAt))
  }

  /** How many of `len` events the count bound pushes out. */
  function Excess(policy: Policy, len: nat): (k: nat)
    ensures k <= len
  {
    if policy.maxCount.Some? && len > policy.maxCount.value then len - policy.maxCount.value else 0
  }

  function AppendOne(policy: Policy, log: Log, message: Message, storedAt: nat): (r: Log) {
    var all := log.events + [StoredEvent(message, log.next, storedAt)];
    var k := Excess(policy, |all|);
    log.(events := all[k..],
         base := log.base + k,
         next := log.next + 1,
         dropped := log.dropped + k,
         dropLog := log.dropLog + all[..k],
         history := log.history + [StoredEvent(message, |log.history| + 1, storedAt)])
  }

  function AppendMany(policy: Policy, log: Log, messages: seq<Message>, storedAt: nat): (r: Log) {
    if messages == [] then log else
      var all := log.events + Stamp(messages, log.next, storedAt);
      var k := Excess(policy, |all|);
      log.(events := all[k..],
           base := log.base + k,
           next := log.next + |messages|,
           dropped := log.dropped + k,
           dropLog := log.dropLog + all[..k],
           history := log.history + Stamp(messages, |log.history| + 1, storedAt))
  }

  /** The reference for a batch append: one append per message at the same timestamp. */
  function AppendEach(policy: Policy, log: Log, messages: seq<Message>, storedAt: nat): (r: Log)
    decreases |messages|
  {
    if messages == [] then log
    else
      var last := |messages| - 1;
      AppendOne(policy, AppendEach(policy, log, messages[..last], storedAt), messages[last], storedAt)
  }

  lemma AppendOneConserves(policy: Policy, log: Log, message: Message, storedAt: nat)
    requires Conserved(policy, log)
    ensures Conserved(policy, AppendOne(policy, log, message, storedAt))
  {
    var all := log.events + [StoredEvent(message, log.next, storedAt)];
    var k := Excess(policy, |all|);
    assert (log.dropLog + all[..k]) + all[k..] == log.dropLog + all;
    assert log.dropLog + all == log.history + [StoredEvent(message, log.next, storedAt)];
  }

  lemma AppendManyConserves(policy: Policy, log: Log, messages: seq<Message>, storedAt: nat)
    requires Conserved(policy, log)
    ensures Conserved(policy, AppendMany(policy, log, messages, storedAt))
  {
    var stamped := Stamp(messages, log.next, storedAt);
    var all := log.events + stamped;
    var k := Excess(policy, |all|);
    assert (log.dropLog + all[..k]) + all[k..] == log.dropLog + all == log.history + stamped;
  }

  /** A batch append is indistinguishable from appending its messages one by one: the events, base,
      next offset, dropped total, drop log and history all agree, for every count bound. */
  lemma {:induction false} AppendManyIsAppendEach(policy: Policy, log: Log, messages: seq<Message>, storedAt: nat)
    ensures AppendMany(policy, log, messages, storedAt) == AppendEach(policy, log, messages, storedAt)
    decreases |messages|
  {
    if messages != [] {
      var last := |messages| - 1;
      AppendManyIsAppendEach(policy, log, messages[..last], storedAt);
      if last == 0 {
        assert Stamp(messages, log.next, storedAt) == [StoredEvent(messages[0], log.next, storedAt)];
        assert Stamp(messages, |log.history| + 1, storedAt) == [StoredEvent(messages[0], |log.history| + 1, storedAt)];
      } else {
        AppendManySnoc(policy, log, messages, storedAt);
      }
    }
  }

  /** Draining before and after one more event drains what draining once at the end would. */
  lemma DrainTwice(policy: Policy, all: seq<StoredEvent>, last: StoredEvent)
    ensures var k := Excess(policy, |all|);
            var rest := all[k..] + [last];
            var k2 := Excess(policy, |rest|);
            && k + k2 == Excess(policy, |all| + 1)
            && rest[k2..] == (all + [last])[k + k2..]
            && all[..k] + rest[..k2] == (all + [last])[..k + k2]
  {
    var k := Excess(policy, |all|);
    assert all[k..] + [last] == (all + [last])[k..];
  }

  /** Appending `messages` at once equals appending all but the last at once, then the last. */
  lemma AppendManySnoc(policy: Policy, log: Log, messages: seq<Message>, storedAt: nat)
    requires |messages| >= 2
    ensures AppendMany(policy, log, messages, storedAt)
         == AppendOne(policy, AppendMany(policy, log, messages[..|messages| - 1], storedAt), messages[|messages| - 1], storedAt)
  {
    var n := |messages| - 1;
    StampSnoc(messages, log.next, storedAt);
    StampSnoc(messages, |log.history| + 1, storedAt);
    var all := log.events + Stamp(messages[..n], log.next, storedAt);
    var last := StoredEvent(messages[n], log.next + n, storedAt);
    DrainTwice(policy, all, last);
    assert log.events + Stamp(messages, log.next, storedAt) == all + [last];
    var k := Excess(policy, |all|);
    var k2 := Excess(policy, |all[k..] + [last]|);
    assert (log.dropLog + all[..k]) + (all[k..] + [last])[..k2] == log.dropLog + (all[..k] + (all[k..] + [last])[..k2]);
    assert (log.history + Stamp(messages[..n], |log.history| + 1, storedAt)) + [StoredEvent(messages[n], |log.history| + 1 + n, storedAt)]
        == log.history + Stamp(messages, |log.history| + 1, storedAt);
  }

  lemma StampSnoc(messages: seq<Message>, start: nat, storedAt: nat)
    requires messages != []
    ensures var n := |messages| - 1;
            Stamp(messages, start, storedAt) == Stamp(messages[..n], start, storedAt) + [StoredEvent(messages[n], start + n, storedAt)]
  {
  }

  // ---------------------------------------------------------------- read

  datatype ReadResult = Events(events: seq<StoredEvent>) | Gap(requested: nat, base: nat)

  /** The stored events above `lastKnown`, by looking at every one of them. */
  function Newer(events: seq<StoredEvent>, lastKnown: nat): (r: seq<StoredEvent>) {
    if events == [] then []
    else if events[0].offset > lastKnown then [events[0]] + Newer(events[1..], lastKnown)
    else Newer(events[1..], lastKnown)
  }

  function FirstOf(events: seq<StoredEvent>, limit: nat): (r: seq<StoredEvent>) {
    if |events| <= limit then events else events[..limit]
  }

  /** What a read promises: a gap exactly when the wanted offset was already removed, otherwise the
      first `limit` stored events above the known offset. */
  function EventsSince(log: Log, lastKnown: nat, limit: nat): (r: ReadResult) {
    if lastKnown + 1 < log.base then Gap(lastKnown + 1, log.base)
    else Events(FirstOf(Newer(log.events, lastKnown), limit))
  }

  lemma {:induction false} NewerIsSuffix(events: seq<StoredEvent>, base: nat, lastKnown: nat)
    requires forall i :: 0 <= i < |events| ==> events[i].offset == base + i
    requires lastKnown + 1 >= base
    ensures Newer(events, lastKnown) == if lastKnown + 1 - base >= |events| then [] else events[lastKnown + 1 - base..]
  {
    if events != [] {
      assert forall i :: 0 <= i < |events[1..]| ==> events[1..][i].offset == base + 1 + i;
      if lastKnown + 1 >= base + 1 {
        NewerIsSuffix(events[1..], base + 1, lastKnown);
      } else {
        NewerIsAll(events[1..], lastKnown);
        assert events == [events[0]] + events[1..];
      }
    }
  }

  lemma {:induction false} NewerIsAll(events: seq<StoredEvent>, lastKnown: nat)
    requires forall i :: 0 <= i < |events| ==> events[i].offset > lastKnown
    ensures Newer(events, lastKnown) == events
  {
    if events != [] {
      NewerIsAll(events[1..], lastKnown);
      assert events == [events[0]] + events[1..];
    }
  }

  /** A read hands out a contiguous piece of the append history directly above `lastKnown`. */
  lemma ReadIsHistorySlice(policy: Policy, log: Log, lastKnown: nat, limit: nat)
    requires Conserved(policy, log)
    requires lastKnown <= |log.history|
    requires EventsSince(log, lastKnown, limit).Events?
    ensures var events := EventsSince(log, lastKnown, limit).events;
            lastKnown + |events| <= |log.history| && events == log.history[lastKnown..lastKnown + |events|]
  {
    NewerIsHistory(policy, log, lastKnown);
    var newer := Newer(log.events, lastKnown);
    assert FirstOf(newer, limit) == newer[..|FirstOf(newer, limit)|];
    assert newer != [] ==> log.history[lastKnown..][..|FirstOf(newer, limit)|] == log.history[lastKnown..lastKnown + |FirstOf(newer, limit)|];
  }

  /** A read counts and numbers what it hands out. */
  lemma ReadIsNumbered(policy: Policy, log: Log, lastKnown: nat, limit: nat)
    requires Conserved(policy, log) && log.base <= lastKnown + 1
    ensures var events := FirstOf(Newer(log.events, lastKnown), limit);
            && |events| == (if log.next - 1 <= lastKnown then 0 else if limit < log.next - 1 - lastKnown then limit else log.next - 1 - lastKnown)
            && forall i :: 0 <= i < |events| ==> events[i] in log.events && events[i].offset == lastKnown + 1 + i
  {
    forall i | 0 <= i < |log.events| ensures log.events[i].offset == log.base + i { LiveOffsets(policy, log, i); }
    NewerIsSuffix(log.events, log.base, lastKnown);
    assert log.base + |log.events| == log.next;
  }

  lemma NewerIsHistory(policy: Policy, log: Log, lastKnown: nat)
    requires Conserved(policy, log)
    requires log.base <= lastKnown + 1 <= |log.history| + 1
    ensures Newer(log.events, lastKnown) == log.history[lastKnown..]
  {
    forall i | 0 <= i < |log.events| ensures log.events[i].offset == log.base + i { LiveOffsets(policy, log, i); }
    NewerIsSuffix(log.events, log.base, lastKnown);
    var from := lastKnown + 1 - log.base;
    assert log.events == log.history[|log.dropLog|..];
    assert log.events[from..] == log.history[lastKnown..];
  }

  // ---------------------------------------------------------------- subscribers and GC

  function Register(subs: map<string, Subscriber>, id: string, now: int): (r: map<string, Subscriber>) {
    if id in subs then subs[id := subs[id].(lastSeen := now)] else subs[id := Subscriber(0, now)]
  }

  function AckUpTo(subs: map<string, Subscriber>, id: string, offset: nat, now: int): (r: map<string, Subscriber>)
    ensures r.Keys == subs.Keys && r - {id} == subs - {id}
    ensures id in subs ==>
              && r[id].lastSeen == now && r[id].lastAck >= offset && r[id].lastAck >= subs[id].lastAck
              && (r[id].lastAck == offset || r[id].lastAck == subs[id].lastAck)
  {
    if id in subs
    then subs[id := Subscriber(if subs[id].lastAck < offset then offset else subs[id].lastAck, now)]
    else subs
  }

  /** A subscriber last seen in the future counts as timed out. */
  predicate Alive(policy: Policy, sub: Subscriber, now: int) {
    now >= sub.lastSeen && now - sub.lastSeen < policy.subscriberTimeout
  }

  function Evict(policy: Policy, subs: map<string, Subscriber>, now: int): (r: map<string, Subscriber>) {
    map id | id in subs && Alive(policy, subs[id], now) :: subs[id]
  }

  function Acks(subs: map<string, Subscriber>): (r: map<string, nat>) {
    map id | id in subs :: subs[id].lastAck
  }

  predicate Aged(policy: Policy, event: StoredEvent, now: int) {
    && policy.maxAge.Some?
    && now >= event.storedAt * NANOS_PER_MILLI
    && now - event.storedAt * NANOS_PER_MILLI > policy.maxAge.value
  }

  predicate AckedByAll(acks: map<string, nat>, offset: nat) {
    acks.Keys != {} && forall id :: id in acks ==> offset <= acks[id]
  }

  predicate Removable(policy: Policy, acks: map<string, nat>, now: int, event: StoredEvent, offset: nat) {
    AckedByAll(acks, offset) || Aged(policy, event, now)
  }

  /** `k` is the length of the longest prefix of removable events. */
  ghost predicate IsLongestRemovable(policy: Policy, events: seq<StoredEvent>, base: nat, acks: map<string, nat>, now: int, k: nat) {
    && k <= |events|
    && (forall i :: 0 <= i < k ==> Removable(policy, acks, now, events[i], base + i))
    && (k < |events| ==> !Removable(policy, acks, now, events[k], base + k))
  }

  function GcCount(policy: Policy, events: seq<StoredEvent>, base: nat, acks: map<string, nat>, now: int): (k: nat)
    ensures IsLongestRemovable(policy, events, base, acks, now, k)
  {
    if events == [] || !Removable(policy, acks, now, events[0], base) then 0
    else
      var k := GcCount(policy, events[1..], base + 1, acks, now);
      assert forall i :: 0 < i < k + 1 ==> events[i] == events[1..][i - 1];
      k + 1
  }

  lemma LongestRemovableUnique(policy: Policy, events: seq<StoredEvent>, base: nat, acks: map<string, nat>, now: int, k: nat)
    requires IsLongestRemovable(policy, events, base, acks, now, k)
    ensures k == GcCount(policy, events, base, acks, now)
  {
    var g := GcCount(policy, events, base, acks, now);
    var least := if k < g then k else g;
    assert least < |events| ==> (Removable(policy, acks, now, events[least], base + least) <==> least < k);
  }

  /** Who is still registered after an eviction, in clock readings. */
  lemma EvictsExactly(policy: Policy, subs: map<string, Subscriber>, now: int)
    ensures forall id :: id in Evict(policy, subs, now) <==>
              id in subs && subs[id].lastSeen <= now < subs[id].lastSeen + policy.subscriberTimeout
    ensures forall id :: id in Evict(policy, subs, now) ==> Evict(policy, subs, now)[id] == subs[id]
  {
  }

  lemma RemovableExactly(policy: Policy, subs: map<string, Subscriber>, now: int, event: StoredEvent, offset: nat)
    ensures Removable(policy, Acks(subs), now, event, offset) <==> MayGo(policy, subs, now, event, offset)
  {
    var acks := Acks(subs);
    assert acks.Keys == subs.Keys;
    if AckedByAll(acks, offset) {
      forall id | id in subs ensures offset <= subs[id].lastAck { assert id in acks; }
    }
  }

  function Collect(policy: Policy, log: Log, acks: map<string, nat>, now: int): (r: Log) {
    var k := GcCount(policy, log.events, log.base, acks, now);
    log.(events := log.events[k..],
         base := log.base + k,
         dropLog := log.dropLog + log.events[..k],
         collected := log.collected + k)
  }

  /** In offsets and clock readings: acked by every subscriber, or over age. */
  ghost predicate MayGo(policy: Policy, subs: map<string, Subscriber>, now: int, event: StoredEvent, offset: nat) {
    || (subs != map[] && forall id :: id in subs ==> offset <= subs[id].lastAck)
    || (policy.maxAge.Some? && now > event.storedAt * 1_000_000 + policy.maxAge.value)
  }

  /** What a collection removes: every removed event may go, and the first one left may not. */
  lemma CollectsExactly(policy: Policy, log: Log, subs: map<string, Subscriber>, now: int)
    ensures var log' := Collect(policy, log, Acks(subs), now);
            && log.base <= log'.base <= log.base + |log.events|
            && log'.events == log.events[log'.base - log.base..]
            && (forall i :: 0 <= i < log'.base - log.base ==> MayGo(policy, subs, now, log.events[i], log.base + i))
            && (log'.events != [] ==> !MayGo(policy, subs, now, log'.events[0], log'.base))
  {
    var k := GcCount(policy, log.events, log.base, Acks(subs), now);
    forall i | 0 <= i < k ensures MayGo(policy, subs, now, log.events[i], log.base + i) {
      assert Removable(policy, Acks(subs), now, log.events[i], log.base + i);
      RemovableExactly(policy, subs, now, log.events[i], log.base + i);
    }
    if k < |log.events| {
      RemovableExactly(policy, subs, now, log.events[k], log.base + k);
    }
  }

  lemma CollectConserves(policy: Policy, log: Log, acks: map<string, nat>, now: int)
    requires Conserved(policy, log)
    ensures Conserved(policy, Collect(policy, log, acks, now))
  {
    var k := GcCount(policy, log.events, log.base, acks, now);
    assert log.dropLog + log.events[..k] + log.events[k..] == log.dropLog + log.events;
  }

  /** GC makes progress: with a live subscriber everything every live subscriber acked is gone. */
  lemma CollectReachesMinAck(policy: Policy, log: Log, acks: map<string, nat>, now: int, minAck: nat)
    requires Conserved(policy, log)
    requires acks.Keys != {} && forall id :: id in acks ==> minAck <= acks[id]
    ensures Collect(policy, log, acks, now).base >= if minAck + 1 <= log.next then minAck + 1 else log.next
  {
    var k := GcCount(policy, log.events, log.base, acks, now);
    assert log.base + |log.events| == log.next;
    assert k < |log.events| ==> !AckedByAll(acks, log.base + k);
  }
}
