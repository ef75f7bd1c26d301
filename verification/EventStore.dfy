/** The event store and its consumer as the objects the source updates in place
    (`src/event_store.rs`). Every method is proved against the functions of `EventLog.dfy`. */
module EventStore {
  import opened Messages
  import opened EventLog

  class EventStore {
    const policy: Policy
    var events: seq<StoredEvent>
    var subscribers: map<string, Subscriber>
    var nextOffset: nat
    var baseOffset: nat
    var droppedEvents: nat
    /** Highest offset handed to any subscriber. */
    var delivered: nat
    var lastGc: int
    ghost var history: seq<StoredEvent>
    ghost var dropLog: seq<StoredEvent>
    ghost var collected: nat

    ghost function Value(): (log: Log)
      reads this
    {
      Log(events, baseOffset, nextOffset, droppedEvents, history, dropLog, collected)
    }

    ghost predicate Valid()
      reads this
    {
      Conserved(policy, Value()) && nextOffset <= U64_MAX && delivered < nextOffset
    }

    constructor (retention: Policy, now: int)
      ensures Valid() && policy == retention && Value() == EMPTY
      ensures subscribers == map[] && delivered == 0 && lastGc == now
    {
      policy := retention;
      events, subscribers := [], map[];
      nextOffset, baseOffset, droppedEvents, delivered := 1, 1, 0, 0;
      lastGc := now;
      history, dropLog, collected := [], [], 0;
    }

    method Append(message: Message, now: int) returns (offset: nat)
      requires Valid() && nextOffset < U64_MAX
      modifies this`events, this`nextOffset, this`baseOffset, this`droppedEvents, this`history, this`dropLog
      ensures Valid()
      ensures Value() == AppendOne(policy, old(Value()), message, Millis(now))
      ensures offset == |history| && history[offset - 1].message == message
      ensures var at := history[offset - 1].storedAt;
              && (now < 0 ==> at == 0)
              && (0 <= now < 0x1_0000_0000_0000_0000 * 1_000_000 ==> at * 1_000_000 <= now < (at + 1) * 1_000_000)
      ensures |events| == if policy.maxCount.Some? && policy.maxCount.value <= |old(events)| then policy.maxCount.value else |old(events)| + 1
      ensures droppedEvents - old(droppedEvents) == |old(events)| + 1 - |events|
    {
      AppendOneConserves(policy, Value(), message, Millis(now));
      offset := nextOffset;
      nextOffset := nextOffset + 1;
      events := events + [StoredEvent(message, offset, Millis(now))];
      history := history + [StoredEvent(message, |history| + 1, Millis(now))];
      EnforceMaxCount();
    }

    method AppendBatch(messages: seq<Message>, now: int) returns (last: nat)
      requires Valid() && nextOffset + |messages| <= U64_MAX
      modifies this`events, this`nextOffset, this`baseOffset, this`droppedEvents, this`history, this`dropLog
      ensures Valid()
      ensures Value() == AppendMany(policy, old(Value()), messages, Millis(now))
      ensures last == |history| == old(|history|) + |messages|
      ensures forall i :: 0 <= i < |messages| ==> history[old(|history|) + i].message == messages[i]
      ensures messages != [] ==>
                |events| == if policy.maxCount.Some? && policy.maxCount.value <= |old(events)| + |messages|
                            then policy.maxCount.value else |old(events)| + |messages|
      ensures droppedEvents - old(droppedEvents) == |old(events)| + |messages| - |events|
    {
      AppendManyConserves(policy, Value(), messages, Millis(now));
      if messages == [] {
        return nextOffset - 1;
      }
      var start := nextOffset;
      nextOffset := nextOffset + |messages|;
      events := events + Stamp(messages, start, Millis(now));
      history := history + Stamp(messages, |history| + 1, Millis(now));
      last := start + |messages| - 1;
      EnforceMaxCount();
    }

    /** The retention block both appends share: drain what exceeds `max_count`. */
    method EnforceMaxCount()
      modifies this`events, this`baseOffset, this`droppedEvents, this`dropLog
      ensures var k := Excess(policy, |old(events)|);
              && events == old(events)[k..]
              && dropLog == old(dropLog) + old(events)[..k]
              && baseOffset == old(baseOffset) + k
              && droppedEvents == old(droppedEvents) + k
      ensures |events| == if policy.maxCount.Some? && policy.maxCount.value < |old(events)| then policy.maxCount.value else |old(events)|
    {
      if policy.maxCount.Some? && |events| > policy.maxCount.value {
        var removeCount := |events| - policy.maxCount.value;
        dropLog := dropLog + events[..removeCount];
        events := events[removeCount..];
        baseOffset := baseOffset + removeCount;
        droppedEvents := droppedEvents + removeCount;
      } else {
        assert events[0..] == events && dropLog + events[..0] == dropLog;
      }
    }

    method RegisterSubscriber(id: string, now: int)
      modifies this`subscribers
      ensures subscribers == Register(old(subscribers), id, now)
      ensures id in subscribers && subscribers[id] == Subscriber(if id in old(subscribers) then old(subscribers)[id].lastAck else 0, now)
      ensures subscribers - {id} == old(subscribers) - {id}
    {
      if id in subscribers {
        subscribers := subscribers[id := subscribers[id].(lastSeen := now)];
      } else {
        subscribers := subscribers[id := Subscriber(0, now)];
      }
    }

    /** Reads through the two slices of the ring buffer; `wrap` is where it wraps around. */
    method GetEventsSince(lastKnown: nat, limit: nat, wrap: nat) returns (r: ReadResult)
      requires Valid() && lastKnown <= U64_MAX && wrap <= |events|
      ensures r == EventsSince(Value(), lastKnown, limit)
      ensures r.Gap? <==> lastKnown + 1 < baseOffset
      ensures r.Gap? ==> r.requested == lastKnown + 1 && r.base == baseOffset
      ensures r.Events? ==>
                && |r.events| == (if nextOffset - 1 <= lastKnown then 0 else if limit < nextOffset - 1 - lastKnown then limit else nextOffset - 1 - lastKnown)
                && forall i :: 0 <= i < |r.events| ==> r.events[i] in events && r.events[i].offset == lastKnown + 1 + i
    {
      var start := if lastKnown < U64_MAX then lastKnown + 1 else U64_MAX;
      if start < baseOffset {
        return Gap(start, baseOffset);
      }
      r := ReadFrom(start, lastKnown, limit, wrap);
      ReadIsNumbered(policy, Value(), lastKnown, limit);
    }

    /** A read that found no gap. */
    method ReadFrom(start: nat, lastKnown: nat, limit: nat, wrap: nat) returns (r: ReadResult)
      requires Valid() && wrap <= |events| && baseOffset <= start <= lastKnown + 1 && (start == lastKnown + 1 || start == U64_MAX == lastKnown)
      ensures r == EventsSince(Value(), lastKnown, limit)
    {
      forall i | 0 <= i < |events| ensures events[i].offset == baseOffset + i { LiveOffsets(policy, Value(), i); }
      NewerIsSuffix(events, baseOffset, lastKnown);
      assert baseOffset + |events| == nextOffset && Value().events == events;
      var startIndex := if start > baseOffset then start - baseOffset else 0;
      if startIndex >= |events| {
        return Events([]);
      }
      var available := |events| - startIndex;
      var count := if limit < available then limit else available;
      var result := CopySlices(events[..wrap], events[wrap..], startIndex, count);
      assert events[..wrap] + events[wrap..] == events;
      assert FirstOf(events[startIndex..], limit) == events[startIndex..startIndex + count];
      r := Events(result);
    }

    /** Copies `count` events from position `startIndex` on out of the two slices. */
    static method CopySlices(s1: seq<StoredEvent>, s2: seq<StoredEvent>, startIndex: nat, count: nat) returns (result: seq<StoredEvent>)
      requires startIndex + count <= |s1| + |s2|
      ensures result == (s1 + s2)[startIndex..startIndex + count]
    {
      result := [];
      if startIndex < |s1| {
        var takeS1 := if count < |s1| - startIndex then count else |s1| - startIndex;
        result := result + s1[startIndex..startIndex + takeS1];
        var remaining := count - takeS1;
        if remaining > 0 {
          result := result + s2[0..remaining];
        }
      } else {
        var s2Index := startIndex - |s1|;
        result := result + s2[s2Index..s2Index + count];
      }
    }

    method Ack(id: string, offset: nat, seenAt: int, now: int, gcNow: int)
      requires Valid()
      modifies this`subscribers, this`lastGc, this`events, this`baseOffset, this`dropLog, this`collected
      ensures Valid()
      ensures var acked := AckUpTo(old(subscribers), id, offset, seenAt);
              if GcDue(policy, old(lastGc), now)
              then lastGc == now && Collected(policy, acked, old(Value()), gcNow, subscribers, Value())
              else lastGc == old(lastGc) && subscribers == acked && Value() == old(Value())
      ensures lastGc == if policy.gcInterval == 0 || now - old(lastGc) >= policy.gcInterval then now else old(lastGc)
    {
      if id in subscribers {
        var sub := subscribers[id];
        subscribers := subscribers[id := Subscriber(if sub.lastAck < offset then offset else sub.lastAck, seenAt)];
      }
      if GcDue(policy, lastGc, now) {
        lastGc := now;
        RunGc(gcNow);
      }
    }

    method RunGc(now: int)
      requires Valid()
      modifies this`subscribers, this`events, this`baseOffset, this`dropLog, this`collected
      ensures Valid()
      ensures Collected(policy, old(subscribers), old(Value()), now, subscribers, Value())
      ensures forall id :: id in subscribers <==>
                id in old(subscribers) && old(subscribers)[id].lastSeen <= now < old(subscribers)[id].lastSeen + policy.subscriberTimeout
      ensures forall id :: id in subscribers ==> subscribers[id] == old(subscribers)[id]
      ensures baseOffset >= old(baseOffset) && baseOffset - old(baseOffset) <= |old(events)|
      ensures events == old(events)[baseOffset - old(baseOffset)..]
      ensures forall i :: 0 <= i < baseOffset - old(baseOffset) ==> MayGo(policy, subscribers, now, old(events)[i], old(baseOffset) + i)
      ensures old(subscribers) != map[] && events != [] ==> !MayGo(policy, subscribers, now, events[0], baseOffset)
    {
      if subscribers == map[] {
        assert events[0..] == events && baseOffset - old(baseOffset) == 0;
        return;
      }
      EvictsExactly(policy, subscribers, now);
      subscribers := Evict(policy, subscribers, now);
      CollectsExactly(policy, Value(), subscribers, now);
      DrainRemovable(now);
    }

    /** Drains the longest prefix the frontiers of the registered subscribers and the age bound allow. */
    method DrainRemovable(now: int)
      requires Valid()
      modifies this`events, this`baseOffset, this`dropLog, this`collected
      ensures Valid() && Value() == Collect(policy, old(Value()), Acks(subscribers), now)
    {
      var hasActive, minAck := MinAck();
      CollectConserves(policy, Value(), Acks(subscribers), now);
      var removeCount := RemovablePrefix(hasActive, minAck, now);
      LongestRemovableUnique(policy, events, baseOffset, Acks(subscribers), now, removeCount);
      DrainPrefix(removeCount);
    }

    /** Removes the first `removeCount` events; `dropped_events` only counts retention drops. */
    method DrainPrefix(removeCount: nat)
      requires removeCount <= |events|
      modifies this`events, this`baseOffset, this`dropLog, this`collected
      ensures events == old(events)[removeCount..] && dropLog == old(dropLog) + old(events)[..removeCount]
      ensures baseOffset == old(baseOffset) + removeCount && collected == old(collected) + removeCount
    {
      if removeCount > 0 {
        dropLog := dropLog + events[..removeCount];
        events := events[removeCount..];
        baseOffset := baseOffset + removeCount;
        collected := collected + removeCount;
      } else {
        assert events[0..] == events && dropLog + events[..0] == dropLog;
      }
    }

    /** The prefix scan of a GC run. */
    method RemovablePrefix(hasActive: bool, minAck: nat, now: int) returns (removeCount: nat)
      requires forall offset: nat :: AckedByAll(Acks(subscribers), offset) <==> hasActive && offset <= minAck
      ensures IsLongestRemovable(policy, events, baseOffset, Acks(subscribers), now, removeCount)
    {
      removeCount := 0;
      while removeCount < |events|
        invariant 0 <= removeCount <= |events|
        invariant forall i :: 0 <= i < removeCount ==> Removable(policy, Acks(subscribers), now, events[i], baseOffset + i)
      {
        var offset := baseOffset + removeCount;
        var remove := hasActive && offset <= minAck;
        if !remove {
          remove := Aged(policy, events[removeCount], now);
        }
        if !remove {
          break;
        }
        removeCount := removeCount + 1;
      }
    }

    /** The smallest ack frontier; an offset is at or below it exactly when every subscriber acked it. */
    method MinAck() returns (hasActive: bool, minAck: nat)
      ensures hasActive == (subscribers != map[])
      ensures forall offset: nat :: AckedByAll(Acks(subscribers), offset) <==> hasActive && offset <= minAck
    {
      hasActive, minAck := false, 0;
      var todo := subscribers.Keys;
      ghost var seen: set<string> := {};
      ghost var least := "";
      while todo != {}
        invariant seen + todo == subscribers.Keys
        invariant hasActive == (seen != {})
        invariant hasActive ==> least in seen && subscribers[least].lastAck == minAck
        invariant forall id :: id in seen ==> minAck <= subscribers[id].lastAck
        decreases todo
      {
        var id :| id in todo;
        if !hasActive || subscribers[id].lastAck < minAck {
          hasActive, minAck := true, subscribers[id].lastAck;
          least := id;
        }
        todo := todo - {id};
        seen := seen + {id};
      }
      assert seen == subscribers.Keys;
      assert hasActive ==> Acks(subscribers)[least] == minAck;
    }

    /** Stored events no subscriber has received yet. */
    method Unread() returns (n: nat)
      requires Valid()
      ensures n == |Newer(events, delivered)|
    {
      var last := nextOffset - 1;
      var seen := if delivered > baseOffset - 1 then delivered else baseOffset - 1;
      n := if last > seen then last - seen else 0;
      forall i | 0 <= i < |events| ensures events[i].offset == baseOffset + i { LiveOffsets(policy, Value(), i); }
      if delivered + 1 >= baseOffset {
        NewerIsSuffix(events, baseOffset, delivered);
      } else {
        NewerIsAll(events, delivered);
      }
      assert baseOffset + |events| == nextOffset;
    }
  }

  predicate GcDue(policy: Policy, lastGc: int, now: int) {
    (if now >= lastGc then now - lastGc else 0) >= policy.gcInterval
  }

  /** One whole GC run: nothing without subscribers, otherwise evict, then drain what the survivors'
      frontiers and the age bound allow. */
  ghost predicate Collected(policy: Policy, subs: map<string, Subscriber>, log: Log, now: int,
                            subs': map<string, Subscriber>, log': Log)
  {
    if subs == map[] then subs' == subs && log' == log
    else subs' == Evict(policy, subs, now) && log' == Collect(policy, log, Acks(subs'), now)
  }

  /** What a received batch carries for its commit: the offsets `(lo, hi]` and the epoch it was read in. */
  datatype Batch = Batch(lo: nat, hi: nat, readAt: nat, messages: seq<Message>)

  datatype Received = Delivered(batch: Batch) | Drained | Missed(requested: nat, base: nat)

  function Payloads(events: seq<StoredEvent>): (r: seq<Message>) {
    seq(|events|, i requires 0 <= i < |events| => events[i].message)
  }

  function BatchOf(from: nat, events: seq<StoredEvent>, rewinds: nat): (b: Batch) {
    Batch(from, if events == [] then from else events[|events| - 1].offset, rewinds, Payloads(events))
  }

  /** Where a nack of a batch that starts at `lo` leaves the position. */
  function RewindTo(position: nat, lo: nat): (r: nat)
    ensures r <= position && r <= lo && (r == position || r == lo)
  {
    if lo < position then lo else position
  }

  /** What a batch carries: the messages right above `from`, as many as there are and are wanted. */
  lemma DeliveredIs(policy: Policy, log: Log, from: nat, limit: nat, rewinds: nat)
    requires Conserved(policy, log) && from <= |log.history| && EventsSince(log, from, limit).Events?
    ensures var events := EventsSince(log, from, limit).events;
            var b := BatchOf(from, events, rewinds);
            && b.lo == from && b.hi == from + |events| <= |log.history| && b.readAt == rewinds && |b.messages| == |events|
            && (forall i :: 0 <= i < |events| ==> b.messages[i] == log.history[from + i].message)
            && |events| == (if log.next - 1 - from < limit then log.next - 1 - from else limit)
  {
    ReadIsHistorySlice(policy, log, from, limit);
    ReadIsNumbered(policy, log, from, limit);
  }

  class EventStoreConsumer {
    const store: EventStore
    const subscriberId: string
    var lastOffset: nat
    /** Bumped by every nack. A batch read before a rewind must not ack past it. */
    var rewinds: nat

    constructor (store: EventStore, subscriberId: string)
      ensures this.store == store && this.subscriberId == subscriberId
      ensures lastOffset == 0 && rewinds == 0
    {
      this.store, this.subscriberId := store, subscriberId;
      lastOffset, rewinds := 0, 0;
    }

    ghost predicate Valid()
      reads this, store
    {
      store.Valid() && lastOffset <= store.delivered
    }

    /** One receive without interference; `timedOut` says whether an idle wait ran into the drain
        timeout. Reads with interference are the steps of `EventRuns.dfy`. */
    method ReceiveBatch(maxMessages: nat, now: int, wrap: nat, timedOut: bool) returns (r: Received)
      requires Valid() && wrap <= |store.events|
      modifies this`lastOffset, store`subscribers, store`delivered
      ensures Valid()
      ensures store.subscribers == Register(old(store.subscribers), subscriberId, now)
      ensures match EventsSince(store.Value(), old(lastOffset), maxMessages)
              case Gap(requested, base) =>
                r == Missed(requested, base) && lastOffset == old(lastOffset) && store.delivered == old(store.delivered)
              case Events(events) =>
                if events == [] && timedOut
                then r == Drained && lastOffset == old(lastOffset) && store.delivered == old(store.delivered)
                else
                  && r == Delivered(BatchOf(old(lastOffset), events, rewinds))
                  && lastOffset == r.batch.hi == old(lastOffset) + |events|
                  && r.batch.lo == old(lastOffset) && r.batch.readAt == rewinds
                  && |r.batch.messages| == r.batch.hi - r.batch.lo
                  && (forall i :: 0 <= i < |r.batch.messages| ==> r.batch.messages[i] == store.history[r.batch.lo + i].message)
                  && |events| == (if store.nextOffset - 1 - r.batch.lo < maxMessages then store.nextOffset - 1 - r.batch.lo else maxMessages)
                  && store.delivered == if r.batch.hi > old(store.delivered) then r.batch.hi else old(store.delivered)
    {
      store.RegisterSubscriber(subscriberId, now);
      var from := lastOffset;
      var read := store.GetEventsSince(from, maxMessages, wrap);
      if read.Gap? {
        return Missed(read.requested, read.base);
      }
      if read.events == [] {
        if timedOut {
          return Drained;
        }
        read := store.GetEventsSince(from, maxMessages, wrap);
      }
      DeliveredIs(store.policy, store.Value(), from, maxMessages, rewinds);
      var events := read.events;
      var newOffset := from;
      if events != [] {
        newOffset := events[|events| - 1].offset;
        if newOffset > store.delivered {
          store.delivered := newOffset;
        }
      }
      lastOffset := newOffset;
      r := Delivered(Batch(from, newOffset, rewinds, Payloads(events)));
    }

    /** The commit closure of a received batch. */
    method Commit(batch: Batch, dispositions: seq<Disposition>, seenAt: int, now: int, gcNow: int)
      requires Valid()
      modifies this, store`subscribers, store`lastGc, store`events, store`baseOffset, store`dropLog, store`collected
      ensures Valid()
      ensures Nack in dispositions ==>
                && rewinds == old(rewinds) + 1
                && lastOffset == RewindTo(old(lastOffset), batch.lo)
                && lastOffset <= batch.lo && (lastOffset == batch.lo || lastOffset == old(lastOffset))
                && store.subscribers == old(store.subscribers)
                && store.lastGc == old(store.lastGc)
      ensures Nack !in dispositions ==> rewinds == old(rewinds) && lastOffset == old(lastOffset)
      ensures Nack !in dispositions && batch.readAt != rewinds ==>
                store.subscribers == old(store.subscribers) && store.lastGc == old(store.lastGc)
      ensures store.Value() != old(store.Value()) ==> Nack !in dispositions && batch.readAt == rewinds
      ensures Nack !in dispositions && batch.readAt == rewinds && !GcDue(store.policy, old(store.lastGc), now) ==>
                && store.subscribers == AckUpTo(old(store.subscribers), subscriberId, batch.hi, seenAt)
                && store.lastGc == old(store.lastGc) && store.Value() == old(store.Value())
      ensures Nack !in dispositions && batch.readAt == rewinds && GcDue(store.policy, old(store.lastGc), now) ==>
                && store.lastGc == now
                && Collected(store.policy, AckUpTo(old(store.subscribers), subscriberId, batch.hi, seenAt), old(store.Value()), gcNow,
                             store.subscribers, store.Value())
    {
      if Nack in dispositions {
        rewinds := rewinds + 1;
        if batch.lo < lastOffset {
          lastOffset := batch.lo;
        }
      } else if rewinds == batch.readAt {
        store.Ack(subscriberId, batch.hi, seenAt, now, gcNow);
      }
    }
  }
}
