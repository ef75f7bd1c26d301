/** Cancellation by correlation id with a bounded memory and a cached generation
    (`src/blocking_handler.rs`). `CancelState` and `HandlerContext` are the objects;
    `CancellationRuns.dfy` interleaves their sub-steps. */
module Cancellation {
  import opened Messages

  /** How many cancelled correlation ids are remembered; older ones are forgotten. */
  const CANCEL_MEMORY: nat := 1024

  function Elements(order: seq<string>): (r: set<string>) {
    set id | id in order
  }

  ghost predicate Distinct(order: seq<string>) {
    forall i, j :: 0 <= i < j < |order| ==> order[i] != order[j]
  }

  /** The remembered ids after cancelling `id`: a remembered id stays where it is, a new one joins at
      the back and may push the oldest out. */
  function Remember(order: seq<string>, id: string): (r: seq<string>) {
    if id in order then order
    else
      var longer := order + [id];
      if |longer| > CANCEL_MEMORY then longer[1..] else longer
  }

  /** The remembered ids after cancelling `ids` one after the other. */
  function RememberAll(order: seq<string>, ids: seq<string>): (r: seq<string>)
    decreases |ids|
  {
    if ids == [] then order
    else Remember(RememberAll(order, ids[..|ids| - 1]), ids[|ids| - 1])
  }

  /** The memory after a history of cancels. */
  function Memory(history: seq<string>): (r: seq<string>) {
    RememberAll([], history)
  }

  /** The cancels of a history whose id was not remembered at that moment. */
  function Insertions(history: seq<string>): (r: seq<string>)
    decreases |history|
  {
    if history == [] then []
    else
      var n := |history| - 1;
      Insertions(history[..n]) + if history[n] in Memory(history[..n]) then [] else [history[n]]
  }

  function Newest(log: seq<string>): (r: seq<string>) {
    if |log| > CANCEL_MEMORY then log[|log| - CANCEL_MEMORY..] else log
  }

  /** How many entries follow the last occurrence of `id`. */
  function Since(log: seq<string>, id: string): (n: nat)
    requires id in log
    ensures n < |log| && log[|log| - 1 - n] == id
    ensures forall i :: |log| - 1 - n < i < |log| ==> log[i] != id
    decreases |log|
  {
    var last := |log| - 1;
    if log[last] == id then 0 else
      assert log == log[..last] + [log[last]];
      1 + Since(log[..last], id)
  }

  lemma RememberKeepsDistinct(order: seq<string>, id: string)
    requires Distinct(order) && |order| <= CANCEL_MEMORY
    ensures Distinct(Remember(order, id)) && |Remember(order, id)| <= 1024
    ensures id in Remember(order, id)
    ensures Elements(Remember(order, id)) <= Elements(order) + {id}
  {
    var longer := order + [id];
    assert id !in order ==> longer[|order|] == id;
    assert id !in order && |longer| > CANCEL_MEMORY ==> longer[1..][|order| - 1] == id;
  }

  /** After every history the memory is exactly the newest 1024 cancels of ids that were not remembered
      when they were cancelled. */
  lemma {:induction false} MemoryIsNewest(history: seq<string>)
    ensures Memory(history) == Newest(Insertions(history))
    decreases |history|
  {
    if history != [] {
      var n := |history| - 1;
      MemoryIsNewest(history[..n]);
      var log := Insertions(history[..n]);
      if history[n] !in Memory(history[..n]) {
        NewestGrows(log, history[n]);
      }
    }
  }

  lemma NewestGrows(log: seq<string>, id: string)
    requires id !in Newest(log)
    ensures Remember(Newest(log), id) == Newest(log + [id])
  {
  }

  lemma {:induction false} EveryCancelWasInserted(history: seq<string>, id: string)
    ensures id in Insertions(history) <==> id in history
    decreases |history|
  {
    if history != [] {
      var n := |history| - 1;
      EveryCancelWasInserted(history[..n], id);
      assert history == history[..n] + [history[n]];
      if history[n] == id && id in Memory(history[..n]) {
        MemoryIsNewest(history[..n]);
        assert id in Insertions(history[..n]);
      }
    }
  }

  /** For every history, an id is remembered exactly when it was cancelled and fewer than 1024 ids were
      newly inserted since its own last insertion. */
  lemma RememberedExactly(history: seq<string>, id: string)
    ensures id in Insertions(history) <==> id in history
    ensures id in Memory(history) <==> id in Insertions(history) && Since(Insertions(history), id) < 1024
  {
    var log := Insertions(history);
    MemoryIsNewest(history);
    EveryCancelWasInserted(history, id);
    if id in history {
      var k := |log| - 1 - Since(log, id);
      if k >= |log| - CANCEL_MEMORY && |log| > CANCEL_MEMORY {
        assert Newest(log)[k - (|log| - CANCEL_MEMORY)] == id;
      }
    }
  }

  /** Cancelling a remembered id again inserts nothing, so the next new id still pushes it out when it
      is the oldest: it is forgotten although it was cancelled just before. */
  lemma RecancelDoesNotRefresh(history: seq<string>, id: string, newcomer: string)
    requires id in Insertions(history) && Since(Insertions(history), id) == CANCEL_MEMORY - 1
    requires newcomer !in Memory(history)
    ensures id in Memory(history + [id]) && id !in Memory(history + [id] + [newcomer])
  {
    var again := history + [id];
    RememberedExactly(history, id);
    assert again[..|history|] == history && (again + [newcomer])[..|again|] == again;
    var log := Insertions(history);
    assert Insertions(again) == log && Memory(again) == Memory(history);
    assert Insertions(again + [newcomer]) == log + [newcomer];
    SinceGrows(log, id, newcomer);
    RememberedExactly(again + [newcomer], id);
  }

  function Id(i: nat): (id: string) {
    seq(i, _ => 'x')
  }

  /** Cancelling `n` different ids, one after the other. */
  function Ids(n: nat): (r: seq<string>) {
    seq(n, i requires 0 <= i => Id(i))
  }

  lemma {:induction false} DistinctAreInserted(history: seq<string>)
    requires Distinct(history) && |history| <= CANCEL_MEMORY
    ensures Insertions(history) == history && Memory(history) == history
    decreases |history|
  {
    if history != [] {
      var n := |history| - 1;
      var front := history[..n];
      DistinctAreInserted(front);
      assert history[n] !in front by { assert forall i :: 0 <= i < n ==> front[i] == history[i]; }
      assert history == front + [history[n]] == Remember(front, history[n]);
    }
  }

  /** 1024 different cancels, the first id cancelled again, then a new one: the id just cancelled again is
      forgotten. */
  lemma RecancelledIsForgotten()
    ensures var history := Ids(CANCEL_MEMORY);
            && Id(0) in Memory(history + [Id(0)])
            && Id(0) !in Memory(history + [Id(0)] + [Id(CANCEL_MEMORY)])
  {
    var history := Ids(CANCEL_MEMORY);
    assert forall i :: 0 <= i < |history| ==> |history[i]| == i;
    DistinctAreInserted(history);
    assert history[0] == Id(0) && Since(history, Id(0)) == CANCEL_MEMORY - 1;
    assert |Id(CANCEL_MEMORY)| == CANCEL_MEMORY;
    RecancelDoesNotRefresh(history, Id(0), Id(CANCEL_MEMORY));
  }

  lemma SinceGrows(log: seq<string>, id: string, other: string)
    requires id in log && other != id
    ensures id in log + [other] && Since(log + [other], id) == Since(log, id) + 1
  {
    assert (log + [other])[..|log|] == log;
  }

  lemma OldestIsGone(order: seq<string>)
    requires order != [] && Distinct(order)
    ensures Elements(order[1..]) == Elements(order) - {order[0]}
  {
    forall id ensures id in order[1..] <==> id in order && id != order[0] {
      if id in order && id != order[0] {
        var i :| 0 <= i < |order| && order[i] == id;
        assert order[1..][i - 1] == id;
      }
    }
  }

  class CancelState {
    var generation: nat
    var ids: set<string>
    var order: seq<string>

    ghost predicate Valid()
      reads this
    {
      ids == Elements(order) && Distinct(order) && |order| <= CANCEL_MEMORY
    }

    constructor ()
      ensures Valid() && generation == 0 && order == []
    {
      generation, ids, order := 0, {}, [];
    }

    method Cancel(id: string)
      requires Valid()
      modifies this
      ensures Valid()
      ensures order == Remember(old(order), id) && id in ids
      ensures generation == old(generation) + 1
    {
      RememberKeepsDistinct(order, id);
      if id !in ids {
        ids := ids + {id};
        order := order + [id];
        assert ids == Elements(order);
        if |order| > CANCEL_MEMORY {
          var oldest := order[0];
          OldestIsGone(order);
          order := order[1..];
          ids := ids - {oldest};
        }
      }
      generation := generation + 1;
    }

    method IsCancelled(id: string) returns (r: bool)
      requires Valid()
      ensures r == (id in order)
    {
      r := id in ids;
    }
  }

  /** The per-message context. Its cache is sound because with the id remembered and nothing latched
      the cached generation is behind. */
  class HandlerContext {
    const correlationId: Option<string>
    const state: CancelState
    var seenGeneration: nat
    var cancelled: bool

    ghost predicate Valid()
      reads this, state
    {
      && state.Valid()
      && seenGeneration <= state.generation
      && (cancelled ==> correlationId.Some?)
      && (!cancelled && correlationId.Some? && correlationId.value in state.order ==> seenGeneration < state.generation)
    }

    /** The worker reads the generation before it checks the id. */
    constructor (correlationId: Option<string>, state: CancelState)
      requires state.Valid() && (correlationId.Some? ==> correlationId.value !in state.order)
      ensures Valid() && this.correlationId == correlationId && this.state == state && !cancelled
      ensures seenGeneration == state.generation
    {
      this.correlationId, this.state := correlationId, state;
      seenGeneration, cancelled := state.generation, false;
    }

    /** Undisturbed, a poll is the direct lookup, or-ed with what an earlier poll already answered. */
    method IsCancelled() returns (r: bool)
      requires Valid()
      modifies this
      ensures Valid() && cancelled == r
      ensures r == (old(cancelled) || (correlationId.Some? && correlationId.value in state.order))
      ensures seenGeneration == if old(cancelled) || correlationId.None? then old(seenGeneration) else state.generation
    {
      if cancelled {
        return true;
      }
      if correlationId.None? {
        return false;
      }
      var now := state.generation;
      var seen := seenGeneration;
      seenGeneration := now;
      if seen == now {
        return false;
      }
      cancelled := state.IsCancelled(correlationId.value);
      r := cancelled;
    }
  }

  datatype Verdict = Skipped | Ran(sawCancelled: bool)

  /** A job with the cancels that arrive since the last one, before the worker checks it, and those that
      arrive before its handler polls. */
  datatype Job = Job(before: seq<string>, id: Option<string>, during: seq<string>)

  /** The remembered ids when the first `n` jobs are done. */
  function OrderAfter(order: seq<string>, jobs: seq<Job>, n: nat): (r: seq<string>)
    requires n <= |jobs|
  {
    if n == 0 then order
    else RememberAll(RememberAll(OrderAfter(order, jobs, n - 1), jobs[n - 1].before), jobs[n - 1].during)
  }

  /** A job whose id is remembered is acknowledged without running; otherwise its handler sees whether
      the id was cancelled meanwhile. */
  function VerdictOf(order: seq<string>, job: Job): (v: Verdict) {
    var checked := RememberAll(order, job.before);
    if job.id.Some? && job.id.value in checked then Skipped
    else Ran(job.id.Some? && job.id.value in RememberAll(checked, job.during))
  }

  /** What becomes of the `i`-th job. */
  function VerdictAt(order: seq<string>, jobs: seq<Job>, i: nat): (v: Verdict)
    requires i < |jobs|
  {
    VerdictOf(OrderAfter(order, jobs, i), jobs[i])
  }

  method CancelAll(state: CancelState, ids: seq<string>)
    requires state.Valid()
    modifies state
    ensures state.Valid() && state.order == RememberAll(old(state.order), ids)
    ensures state.generation == old(state.generation) + |ids|
  {
    for k := 0 to |ids|
      invariant state.Valid() && state.order == RememberAll(old(state.order), ids[..k])
      invariant state.generation == old(state.generation) + k
    {
      assert ids[..k + 1][..k] == ids[..k];
      state.Cancel(ids[k]);
    }
    assert ids[..|ids|] == ids;
  }

  /** One job: the worker reads the generation before it checks the id. */
  method ServeJob(state: CancelState, job: Job) returns (verdict: Verdict)
    requires state.Valid()
    modifies state
    ensures state.Valid() && state.order == RememberAll(RememberAll(old(state.order), job.before), job.during)
    ensures verdict == VerdictOf(old(state.order), job)
    ensures verdict.Skipped? <==> job.id.Some? && job.id.value in RememberAll(old(state.order), job.before)
    ensures verdict.Ran? ==> (verdict.sawCancelled <==> job.id.Some? && job.id.value in state.order)
  {
    CancelAll(state, job.before);
    var skip := false;
    if job.id.Some? {
      skip := state.IsCancelled(job.id.value);
    }
    if skip {
      CancelAll(state, job.during);
      return Skipped;
    }
    var context := new HandlerContext(job.id, state);
    CancelAll(state, job.during);
    var seen := context.IsCancelled();
    verdict := Ran(seen);
  }

  /** The worker loop with cancels arriving between its accesses. */
  method ServeJobs(state: CancelState, jobs: seq<Job>) returns (verdicts: seq<Verdict>)
    requires state.Valid()
    modifies state
    ensures state.Valid() && state.order == OrderAfter(old(state.order), jobs, |jobs|)
    ensures |verdicts| == |jobs|
    ensures forall i :: 0 <= i < |jobs| ==> verdicts[i] == VerdictAt(old(state.order), jobs, i)
  {
    verdicts := [];
    ghost var start := state.order;
    for k := 0 to |jobs|
      invariant |verdicts| == k && state.Valid() && state.order == OrderAfter(start, jobs, k)
      invariant forall i :: 0 <= i < k ==> verdicts[i] == VerdictAt(start, jobs, i)
    {
      var verdict := ServeJob(state, jobs[k]);
      verdicts := verdicts + [verdict];
    }
  }
}
