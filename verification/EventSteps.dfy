/** The objects of `EventStore.dfy` take the steps of `EventRuns.dfy`: a call nobody interferes with is
    a legal sequence of steps, under both premises, from the system the objects show to the one they
    show afterwards. */
module EventSteps {
  import opened Messages
  import opened EventLog
  import opened EventRuns
  import ES = EventStore

  ghost predicate Shows(store: ES.EventStore, s: System)
    reads store
  {
    store.Value() == s.log && store.subscribers == s.subs && store.delivered == s.delivered
  }

  ghost predicate ShowsConsumer(c: ES.EventStoreConsumer, s: System)
    reads c
  {
    && c.subscriberId in s.consumers
    && var shown := s.consumers[c.subscriberId];
       shown.position == c.lastOffset && shown.rewinds == c.rewinds && shown.receive.Idle? && shown.pending == []
  }

  ghost predicate Takes(policy: Policy, s: System, run: seq<Action>, s': System) {
    Legal(policy, BOTH, s, run) && Run(policy, BOTH, s, run) == s'
  }

  lemma {:induction false} TakesOne(policy: Policy, s: System, a: Action)
    requires Enabled(BOTH, s, a)
    ensures Takes(policy, s, [a], Next(policy, BOTH, s, a))
  {
    assert [a][1..] == [];
  }

  lemma {:induction false} TakesThen(policy: Policy, s: System, first: seq<Action>, mid: System, a: Action)
    requires Takes(policy, s, first, mid) && Enabled(BOTH, mid, a)
    ensures Takes(policy, s, first + [a], Next(policy, BOTH, mid, a))
    decreases |first|
  {
    if first == [] {
      assert first + [a] == [a];
      TakesOne(policy, s, a);
    } else {
      assert (first + [a])[1..] == first[1..] + [a];
      TakesThen(policy, Next(policy, BOTH, s, first[0]), first[1..], mid, a);
    }
  }

  method AppendTakes(store: ES.EventStore, message: Message, now: int, ghost s: System) returns (offset: nat)
    requires store.Valid() && store.nextOffset < U64_MAX && Shows(store, s)
    modifies store
    ensures store.Valid() && Enabled(BOTH, s, Append(message, now)) && Shows(store, Next(store.policy, BOTH, s, Append(message, now)))
  {
    offset := store.Append(message, now);
  }

  method AppendBatchTakes(store: ES.EventStore, messages: seq<Message>, now: int, ghost s: System) returns (last: nat)
    requires store.Valid() && store.nextOffset + |messages| <= U64_MAX && Shows(store, s)
    modifies store
    ensures store.Valid() && Enabled(BOTH, s, AppendBatch(messages, now)) && Shows(store, Next(store.policy, BOTH, s, AppendBatch(messages, now)))
  {
    last := store.AppendBatch(messages, now);
  }

  method RegisterTakes(store: ES.EventStore, id: string, now: int, ghost s: System)
    requires store.Valid() && Shows(store, s)
    modifies store
    ensures store.Valid() && Shows(store, Next(store.policy, BOTH, s, RegisterSubscriber(id, now)))
  {
    store.RegisterSubscriber(id, now);
  }

  method ConsumerTakes(store: ES.EventStore, id: string, ghost s: System) returns (c: ES.EventStoreConsumer)
    requires store.Valid() && Shows(store, s)
    ensures c.Valid() && c.store == store && c.subscriberId == id
    ensures var s' := Next(store.policy, BOTH, s, NewConsumer(id));
            Shows(store, s') && ShowsConsumer(c, s') && s'.consumers[id].outstanding == []
  {
    c := new ES.EventStoreConsumer(store, id);
  }

  /** The steps of a receive, by what it returned. */
  function ReceiveActions(id: string, limit: nat, now: int, r: ES.Received): (run: seq<Action>) {
    match r
    case Missed(_, _) => [Begin(id, now)] + [Read(id, limit)]
    case Drained => [Begin(id, now)] + [Read(id, limit)] + [GiveUp(id)]
    case Delivered(_) => [Begin(id, now)] + [Read(id, limit)] + [Store(id)] + [Seal(id)]
  }

  method ReceiveTakes(c: ES.EventStoreConsumer, limit: nat, now: int, wrap: nat, timedOut: bool, ghost s: System)
    returns (r: ES.Received, ghost s': System)
    requires c.Valid() && wrap <= |c.store.events| && Shows(c.store, s) && ShowsConsumer(c, s)
    modifies c, c.store
    ensures c.Valid() && Takes(c.store.policy, s, ReceiveActions(c.subscriberId, limit, now, r), s')
    ensures Shows(c.store, s') && ShowsConsumer(c, s')
    ensures s'.consumers[c.subscriberId].outstanding
         == s.consumers[c.subscriberId].outstanding + if r.Delivered? then [r.batch] else []
  {
    ghost var policy, id := c.store.policy, c.subscriberId;
    r := c.ReceiveBatch(limit, now, wrap, timedOut);
    ghost var s2 := Reads(policy, s, id, limit, now);
    s' := s2;
    if r.Drained? {
      TakesThen(policy, s, [Begin(id, now)] + [Read(id, limit)], s2, GiveUp(id));
      s' := Next(policy, BOTH, s2, GiveUp(id));
    } else if r.Delivered? {
      s' := Delivers(policy, s, [Begin(id, now)] + [Read(id, limit)], s2, id);
    }
  }

  /** The front half of a receive. */
  lemma Reads(policy: Policy, s: System, id: string, limit: nat, now: int) returns (s2: System)
    requires id in s.consumers && s.consumers[id].receive.Idle?
    ensures Takes(policy, s, [Begin(id, now)] + [Read(id, limit)], s2)
    ensures var c := s.consumers[id];
            && s2.log == s.log && s2.subs == Register(s.subs, id, now) && s2.delivered == s.delivered && id in s2.consumers
            && s2.consumers[id] == match EventsSince(s.log, c.position, limit)
                                   case Events(events) => c.(receive := Fetched(c.position, events))
                                   case Gap(_, _) => c
  {
    var s1 := Next(policy, BOTH, s, Begin(id, now));
    TakesOne(policy, s, Begin(id, now));
    TakesThen(policy, s, [Begin(id, now)], s1, Read(id, limit));
    s2 := Next(policy, BOTH, s1, Read(id, limit));
  }

  /** The back half of an undisturbed receive. */
  lemma Delivers(policy: Policy, s: System, first: seq<Action>, s2: System, id: string) returns (s4: System)
    requires Takes(policy, s, first, s2) && id in s2.consumers
    requires var c := s2.consumers[id]; c.receive.Fetched? && c.receive.from == c.position && c.pending == []
    ensures Takes(policy, s, first + [Store(id)] + [Seal(id)], s4)
    ensures var c := s2.consumers[id];
            var b := ES.BatchOf(c.position, c.receive.events, c.rewinds);
            && s4.log == s2.log && s4.subs == s2.subs && id in s4.consumers
            && s4.delivered == (if b.hi > s2.delivered then b.hi else s2.delivered)
            && s4.consumers[id] == c.(position := b.hi, receive := Idle, outstanding := c.outstanding + [b])
  {
    var s3 := Next(policy, BOTH, s2, Store(id));
    TakesThen(policy, s, first, s2, Store(id));
    TakesThen(policy, s, first + [Store(id)], s3, Seal(id));
    s4 := Next(policy, BOTH, s3, Seal(id));
  }

  /** The steps of a commit: a nack rewinds; an ack may be followed by a garbage collection. */
  function CommitActions(id: string, dispositions: seq<Disposition>, seenAt: int, collects: bool, gcNow: int, gcs: nat): (run: seq<Action>) {
    if Nack in dispositions then [Commit(id, 0, dispositions, seenAt)] + [Rewind(id, 0)]
    else if collects then [Commit(id, 0, dispositions, seenAt)] + [GcSnapshot(gcNow)] + [GcDrain(gcs)]
    else [Commit(id, 0, dispositions, seenAt)]
  }

  method CommitTakes(c: ES.EventStoreConsumer, dispositions: seq<Disposition>, seenAt: int, now: int, gcNow: int, batch: ES.Batch, ghost s: System)
    returns (ghost collects: bool, ghost s': System)
    requires c.Valid() && Shows(c.store, s) && ShowsConsumer(c, s)
    requires var shown := s.consumers[c.subscriberId]; shown.outstanding != [] && shown.outstanding[0] == batch
    modifies c, c.store
    ensures c.Valid() && Takes(c.store.policy, s, CommitActions(c.subscriberId, dispositions, seenAt, collects, gcNow, |s.gcs|), s')
    ensures Shows(c.store, s') && ShowsConsumer(c, s')
    ensures s'.consumers[c.subscriberId].outstanding == s.consumers[c.subscriberId].outstanding[1..]
  {
    ghost var policy, id, commit := c.store.policy, c.subscriberId, Commit(c.subscriberId, 0, dispositions, seenAt);
    ghost var s1 := Next(policy, BOTH, s, commit);
    TakesOne(policy, s, commit);
    assert s1.consumers[id].outstanding == s.consumers[id].outstanding[1..];
    collects := Nack !in dispositions && batch.readAt == c.rewinds && ES.GcDue(policy, c.store.lastGc, now) && s1.subs != map[];
    c.Commit(batch, dispositions, seenAt, now, gcNow);
    s' := s1;
    if Nack in dispositions {
      assert s1.consumers[id].pending == [batch.lo];
      TakesThen(policy, s, [commit], s1, Rewind(id, 0));
      s' := Next(policy, BOTH, s1, Rewind(id, 0));
      assert s'.consumers[id].pending == [];
    } else if collects {
      ghost var s2 := Next(policy, BOTH, s1, GcSnapshot(gcNow));
      TakesThen(policy, s, [commit], s1, GcSnapshot(gcNow));
      TakesThen(policy, s, [commit] + [GcSnapshot(gcNow)], s2, GcDrain(|s.gcs|));
      s' := Next(policy, BOTH, s2, GcDrain(|s.gcs|));
    }
  }
}
