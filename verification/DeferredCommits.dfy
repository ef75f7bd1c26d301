/** Commits of batches a middleware emptied, held back on sources with cumulative acks
    (`src/middleware/deferred_commit.rs`): the hold queue, its bound and its drain loops. */
module DeferredCommits {
  import opened Messages

  /** How many emptied-batch commits may be held before the oldest are released. */
  const MAX_DEFERRED_COMMITS: nat := 1024

  /** What a held commit settles its dropped messages with. */
  datatype Emptied = Acked(dropped: nat) | Settled(dispositions: seq<Disposition>)

  function Dispositions(emptied: Emptied): (r: seq<Disposition>) {
    match emptied
    case Acked(dropped) => seq(dropped, _ => Ack)
    case Settled(dispositions) => dispositions
  }

  /** A held commit; `read` numbers the source batch it belongs to in read order. */
  datatype Held = Held(read: nat, emptied: Emptied)

  predicate AllAcks(dispositions: seq<Disposition>) {
    forall i :: 0 <= i < |dispositions| ==> dispositions[i].Ack?
  }

  function Classify(dispositions: seq<Disposition>): (e: Emptied)
    ensures Dispositions(e) == dispositions
    ensures e.Acked? <==> AllAcks(dispositions)
  {
    if AllAcks(dispositions) then Acked(|dispositions|) else Settled(dispositions)
  }

  // ---------------------------------------------------------------- the bounded queue as a value

  /** The oldest plain ack, or the length of the queue when there is none. */
  function OldestAck(queue: seq<Held>): (k: nat)
    ensures k <= |queue|
    ensures k < |queue| ==> queue[k].emptied.Acked?
    ensures forall i :: 0 <= i < k ==> queue[i].emptied.Settled?
  {
    if queue == [] || queue[0].emptied.Acked? then 0 else 1 + OldestAck(queue[1..])
  }

  function EvictOldestAck(queue: seq<Held>): (r: seq<Held>) {
    var k := OldestAck(queue);
    if k < |queue| then queue[..k] + queue[k + 1..] else queue
  }

  function Push(queue: seq<Held>, entry: Held): (r: seq<Held>) {
    (if |queue| >= MAX_DEFERRED_COMMITS then EvictOldestAck(queue) else queue) + [entry]
  }

  /** The queue after holding `entries` one after the other. */
  function HoldAll(entries: seq<Held>): (r: seq<Held>)
    decreases |entries|
  {
    if entries == [] then [] else Push(HoldAll(entries[..|entries| - 1]), entries[|entries| - 1])
  }

  function Replies(queue: seq<Held>): (r: seq<Held>) {
    if queue == [] then []
    else (if queue[0].emptied.Settled? then [queue[0]] else []) + Replies(queue[1..])
  }

  function Reads(queue: seq<Held>): (r: seq<nat>) {
    seq(|queue|, i requires 0 <= i < |queue| => queue[i].read)
  }

  ghost predicate Increasing(s: seq<nat>) {
    forall i, j :: 0 <= i < j < |s| ==> s[i] < s[j]
  }

  /** Where a cumulative-ack source stands after the commits of `queue`, starting at `position`. */
  function PositionAfter(position: nat, queue: seq<Held>): (r: nat)
    decreases |queue|
  {
    if queue == [] then position
    else PositionAfter(if queue[0].read > position then queue[0].read else position, queue[1..])
  }

  lemma {:induction false} RepliesConcat(a: seq<Held>, b: seq<Held>)
    ensures Replies(a + b) == Replies(a) + Replies(b)
  {
    if a == [] {
      assert a + b == b;
    } else {
      RepliesConcat(a[1..], b);
      assert (a + b)[0] == a[0] && (a + b)[1..] == a[1..] + b;
      var head := if a[0].emptied.Settled? then [a[0]] else [];
      assert Replies(a + b) == head + (Replies(a[1..]) + Replies(b));
      assert Replies(a) == head + Replies(a[1..]);
    }
  }

  lemma EvictKeepsReplies(queue: seq<Held>)
    ensures Replies(EvictOldestAck(queue)) == Replies(queue)
  {
    var k := OldestAck(queue);
    if k < |queue| {
      assert queue == queue[..k] + ([queue[k]] + queue[k + 1..]);
      RepliesConcat(queue[..k], [queue[k]] + queue[k + 1..]);
      RepliesConcat([queue[k]], queue[k + 1..]);
      RepliesConcat(queue[..k], queue[k + 1..]);
    }
  }

  lemma PushKeepsReplies(queue: seq<Held>, entry: Held)
    ensures Replies(Push(queue, entry)) == Replies(queue) + Replies([entry])
  {
    EvictKeepsReplies(queue);
    RepliesConcat(EvictOldestAck(queue), [entry]);
    RepliesConcat(queue, [entry]);
  }

  lemma {:induction false} RepliesCount(queue: seq<Held>)
    ensures |Replies(queue)| <= |queue|
    ensures OldestAck(queue) == |queue| ==> Replies(queue) == queue
  {
    if queue != [] {
      RepliesCount(queue[1..]);
      assert queue == [queue[0]] + queue[1..];
    }
  }

  /** Over the bound the queue holds at most one plain ack. */
  ghost predicate Bounded(queue: seq<Held>) {
    |queue| <= MAX_DEFERRED_COMMITS || |queue| <= |Replies(queue)| + 1
  }

  lemma PushKeepsBound(queue: seq<Held>, entry: Held)
    requires Bounded(queue)
    ensures Bounded(Push(queue, entry))
  {
    PushKeepsReplies(queue, entry);
    RepliesCount(queue);
    RepliesCount([entry]);
  }

  /** A reply is never discarded, the newest commit always survives, and the queue stays within
      `max(1024, replies + 1)`, however many commits are held. */
  lemma {:induction false} HoldAllKeeps(entries: seq<Held>)
    ensures Replies(HoldAll(entries)) == Replies(entries)
    ensures entries != [] ==> HoldAll(entries) != [] && HoldAll(entries)[|HoldAll(entries)| - 1] == entries[|entries| - 1]
    ensures |HoldAll(entries)| <= MAX_DEFERRED_COMMITS || |HoldAll(entries)| <= |Replies(entries)| + 1
    ensures forall e :: e in HoldAll(entries) ==> e in entries
    ensures |entries| <= 1024 ==> HoldAll(entries) == entries
    decreases |entries|
  {
    if entries != [] {
      var n := |entries| - 1;
      HoldAllKeeps(entries[..n]);
      PushKeepsReplies(HoldAll(entries[..n]), entries[n]);
      PushKeepsBound(HoldAll(entries[..n]), entries[n]);
      assert entries == entries[..n] + [entries[n]];
      RepliesConcat(entries[..n], [entries[n]]);
    }
  }

  lemma {:induction false} PositionIsLargest(position: nat, queue: seq<Held>)
    ensures PositionAfter(position, queue) >= position
    ensures forall e :: e in queue ==> e.read <= PositionAfter(position, queue)
    ensures PositionAfter(position, queue) == position || exists e :: e in queue && e.read == PositionAfter(position, queue)
    decreases |queue|
  {
    if queue != [] {
      var p := if queue[0].read > position then queue[0].read else position;
      PositionIsLargest(p, queue[1..]);
      assert queue[0] in queue && forall e :: e in queue[1..] ==> e in queue;
      forall e | e in queue ensures e.read <= PositionAfter(position, queue) {
        assert e == queue[0] || e in queue[1..];
      }
    }
  }

  /** The bound costs a cumulative-ack source nothing: running what the bounded queue still holds
      leaves it where running every held commit would. */
  lemma BoundedQueueReachesSamePosition(position: nat, entries: seq<Held>)
    requires Increasing(Reads(entries))
    ensures PositionAfter(position, HoldAll(entries)) == PositionAfter(position, entries)
  {
    HoldAllKeeps(entries);
    PositionIsLargest(position, entries);
    PositionIsLargest(position, HoldAll(entries));
    if entries != [] {
      var newest := entries[|entries| - 1];
      assert newest in HoldAll(entries) && newest in entries;
      forall e | e in entries ensures e.read <= newest.read {
        var i :| 0 <= i < |entries| && entries[i] == e;
        assert Reads(entries)[i] == e.read && Reads(entries)[|entries| - 1] == newest.read;
      }
    }
  }

  // ---------------------------------------------------------------- the objects

  datatype Call = Call(read: nat, dispositions: seq<Disposition>)

  function CallOf(entry: Held): (c: Call) {
    Call(entry.read, Dispositions(entry.emptied))
  }

  /** What the source sees of a queue: one call per entry, for its read, with its dispositions. */
  function CallsOf(queue: seq<Held>): (r: seq<Call>)
    ensures |r| == |queue| && forall i :: 0 <= i < |r| ==> r[i].read == queue[i].read
    ensures forall i :: 0 <= i < |r| && queue[i].emptied.Settled? ==> r[i].dispositions == queue[i].emptied.dispositions
    ensures forall i :: 0 <= i < |r| && queue[i].emptied.Acked? ==> r[i].dispositions == seq(queue[i].emptied.dropped, _ => Ack)
  {
    seq(|queue|, i requires 0 <= i < |queue| => CallOf(queue[i]))
  }

  lemma CallsOfSnoc(queue: seq<Held>, n: nat)
    requires n < |queue|
    ensures CallsOf(queue[..n + 1]) == CallsOf(queue[..n]) + [CallOf(queue[n])]
  {
  }

  /** How many of the queued commits are called: all, or up to and including the first that fails. */
  function Attempted(accepts: nat -> bool, queue: seq<Held>): (n: nat)
    ensures n <= |queue|
    ensures forall i :: 0 <= i < n - 1 ==> accepts(queue[i].read)
    ensures n < |queue| ==> n > 0 && !accepts(queue[n - 1].read)
  {
    if queue == [] then 0
    else if !accepts(queue[0].read) then 1
    else 1 + Attempted(accepts, queue[1..])
  }

  predicate AllAccepted(accepts: nat -> bool, queue: seq<Held>) {
    forall i :: 0 <= i < |queue| ==> accepts(queue[i].read)
  }

  /** The source as its commits see it; `accepts` decides which commits succeed. */
  class Source {
    const accepts: nat -> bool
    var calls: seq<Call>

    constructor (accepts: nat -> bool)
      ensures this.accepts == accepts && calls == []
    {
      this.accepts := accepts;
      calls := [];
    }

    method Commit(entry: Held) returns (ok: bool)
      modifies this
      ensures calls == old(calls) + [CallOf(entry)]
      ensures ok == accepts(entry.read)
    {
      calls := calls + [CallOf(entry)];
      ok := accepts(entry.read);
    }
  }

  /** Runs commits handed over by `Take`, oldest first, stopping at the first failure. */
  method RunAll(source: Source, held: seq<Held>) returns (ok: bool)
    modifies source
    ensures source.calls == old(source.calls) + CallsOf(held[..Attempted(source.accepts, held)])
    ensures ok == AllAccepted(source.accepts, held)
    ensures ok <==> forall i :: 0 <= i < |held| ==> source.accepts(held[i].read)
  {
    var i := 0;
    while i < |held|
      invariant 0 <= i <= |held|
      invariant source.calls == old(source.calls) + CallsOf(held[..i])
      invariant AllAccepted(source.accepts, held[..i])
      invariant Attempted(source.accepts, held) == i + Attempted(source.accepts, held[i..])
    {
      assert held[..i + 1] == held[..i] + [held[i]] && held[i..][1..] == held[i + 1..];
      ok := source.Commit(held[i]);
      if !ok {
        return;
      }
      i := i + 1;
    }
    assert held[..i] == held;
    ok := true;
  }

  class DeferredCommits {
    var held: seq<Held>
    var inFlight: nat

    constructor ()
      ensures held == [] && inFlight == 0
    {
      held, inFlight := [], 0;
    }

    /** Counts a retained delivery as uncommitted until `Settle`. */
    method Track()
      modifies this`inFlight
      ensures inFlight == old(inFlight) + 1
    {
      inFlight := inFlight + 1;
    }

    /** A tracked delivery's commit succeeded. */
    method Settle()
      requires inFlight > 0
      modifies this`inFlight
      ensures inFlight == old(inFlight) - 1
    {
      inFlight := inFlight - 1;
    }

    method AckEmptied(source: Source, ordered: bool, read: nat, dropped: nat) returns (ok: bool)
      modifies this`held, source
      ensures Disposed(source.accepts, ordered, inFlight, Held(read, Acked(dropped)),
                       old(held), old(source.calls), held, source.calls, ok)
      ensures !ordered ==> source.calls == old(source.calls) + [Call(read, seq(dropped, _ => Ack))] && held == old(held)
    {
      ok := Hold(source, ordered, Held(read, Acked(dropped)));
    }

    method SettleEmptied(source: Source, ordered: bool, read: nat, dispositions: seq<Disposition>) returns (ok: bool)
      modifies this`held, source
      ensures Disposed(source.accepts, ordered, inFlight, Held(read, Classify(dispositions)),
                       old(held), old(source.calls), held, source.calls, ok)
      ensures !ordered ==> source.calls == old(source.calls) + [Call(read, dispositions)] && held == old(held)
    {
      var plain := true;
      var i := 0;
      while i < |dispositions| && plain
        invariant 0 <= i <= |dispositions|
        invariant plain == AllAcks(dispositions[..i])
        invariant !plain ==> !AllAcks(dispositions)
      {
        assert dispositions[..i + 1] == dispositions[..i] + [dispositions[i]];
        plain := dispositions[i].Ack?;
        i := i + 1;
      }
      assert plain ==> dispositions[..i] == dispositions;
      ok := Hold(source, ordered, Held(read, if plain then Acked(|dispositions|) else Settled(dispositions)));
    }

    method Hold(source: Source, ordered: bool, entry: Held) returns (ok: bool)
      modifies this`held, source
      ensures Disposed(source.accepts, ordered, inFlight, entry, old(held), old(source.calls), held, source.calls, ok)
      ensures ordered && inFlight > 0 && |old(held)| < 1024 ==> held == old(held) + [entry]
      ensures ordered && inFlight > 0 && |old(held)| >= 1024 && (forall i :: 0 <= i < |old(held)| ==> old(held)[i].emptied.Settled?) ==>
                held == old(held) + [entry]
      ensures forall k :: (ordered && inFlight > 0 && 1024 <= |old(held)| && 0 <= k < |old(held)| && old(held)[k].emptied.Acked?
                           && forall i :: 0 <= i < k ==> old(held)[i].emptied.Settled?) ==>
                held == old(held)[..k] + old(held)[k + 1..] + [entry]
      ensures ordered && inFlight > 0 ==> source.calls == old(source.calls) && ok
      ensures ordered && inFlight == 0 && ok ==> held == [] && source.calls == old(source.calls) + CallsOf(old(held) + [entry])
    {
      if !ordered {
        ok := source.Commit(entry);
        return;
      }
      var idle := inFlight == 0;
      if !idle && |held| >= MAX_DEFERRED_COMMITS {
        RemoveOldestAck();
      }
      held := held + [entry];
      ok := true;
      if idle {
        ok := DrainHeld(source);
      }
    }

    /** The eviction scan: removes the first plain ack, if there is one. */
    method RemoveOldestAck()
      modifies this`held
      ensures held == EvictOldestAck(old(held))
    {
      var k := 0;
      while k < |held| && held[k].emptied.Settled?
        invariant 0 <= k <= |held|
        invariant forall i :: 0 <= i < k ==> held[i].emptied.Settled?
      {
        k := k + 1;
      }
      if k < |held| {
        held := held[..k] + held[k + 1..];
      }
    }

    /** Pops one at a time, so a failure or a cancelled caller loses at most the one running. */
    method DrainHeld(source: Source) returns (ok: bool)
      modifies this`held, source
      ensures var n := Attempted(source.accepts, old(held));
              && held == old(held)[n..]
              && source.calls == old(source.calls) + CallsOf(old(held)[..n])
      ensures ok == AllAccepted(source.accepts, old(held))
    {
      ghost var queue, before := held, source.calls;
      ghost var n := 0;
      while held != []
        invariant 0 <= n <= |queue| && held == queue[n..]
        invariant source.calls == before + CallsOf(queue[..n])
        invariant AllAccepted(source.accepts, queue[..n])
        invariant Attempted(source.accepts, queue) == n + Attempted(source.accepts, held)
        decreases |held|
      {
        CallsOfSnoc(queue, n);
        assert queue[n..][1..] == queue[n + 1..] && queue[..n + 1] == queue[..n] + [queue[n]];
        var entry := held[0];
        held := held[1..];
        n := n + 1;
        ok := source.Commit(entry);
        if !ok {
          return;
        }
      }
      assert queue[..n] == queue;
      ok := true;
    }

    method Take() returns (taken: seq<Held>)
      modifies this`held
      ensures taken == old(held) && held == []
    {
      taken := held;
      held := [];
    }
  }

  /** Everything `hold` does: run now on an unordered source; hold within the bound behind an
      uncommitted batch; otherwise queue it and drain, oldest first, until a commit fails. */
  ghost predicate Disposed(accepts: nat -> bool, ordered: bool, inFlight: nat, entry: Held,
                           held: seq<Held>, calls: seq<Call>, held': seq<Held>, calls': seq<Call>, ok: bool)
  {
    if !ordered then
      held' == held && calls' == calls + [CallOf(entry)] && ok == accepts(entry.read)
    else if inFlight > 0 then
      held' == Push(held, entry) && calls' == calls && ok
    else
      var queue := held + [entry];
      var n := Attempted(accepts, queue);
      held' == queue[n..] && calls' == calls + CallsOf(queue[..n]) && ok == AllAccepted(accepts, queue)
  }
}
