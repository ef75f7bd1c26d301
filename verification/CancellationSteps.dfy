/** The objects of `Cancellation.dfy` take the steps of `CancellationRuns.dfy`: an undisturbed cancel,
    intake or poll is a legal sequence of atomic accesses between the states they show. */
module CancellationSteps {
  import opened Messages
  import C = Cancellation
  import opened CancellationRuns

  ghost predicate Shows(state: C.CancelState, s: State)
    reads state
  {
    state.order == s.order && state.generation == s.generation && s.lock.Free?
  }

  ghost predicate ShowsContext(context: C.HandlerContext, k: nat, s: State)
    reads context
  {
    && k in s.contexts && context.correlationId == Some(s.contexts[k].id)
    && s.contexts[k].seen == context.seenGeneration && s.contexts[k].latch == context.cancelled
  }

  ghost predicate Takes(s: State, run: seq<Action>, s': State) {
    Legal(true, s, run) && Run(true, s, run) == s'
  }

  lemma {:induction false} TakesThen(s: State, first: seq<Action>, mid: State, a: Action)
    requires Takes(s, first, mid) && Enabled(true, mid, a)
    ensures Takes(s, first + [a], Next(true, mid, a))
    decreases |first|
  {
    if first == [] {
      assert first + [a] == [a] && [a][1..] == [];
    } else {
      assert (first + [a])[1..] == first[1..] + [a];
      TakesThen(Next(true, s, first[0]), first[1..], mid, a);
    }
  }

  lemma TakesOne(s: State, a: Action)
    requires Enabled(true, s, a)
    ensures Takes(s, [a], Next(true, s, a))
  {
    TakesThen(s, [], s, a);
    assert [] + [a] == [a];
  }

  method CancelTakes(state: C.CancelState, id: string, ghost s: State) returns (ghost s': State)
    requires state.Valid() && Shows(state, s)
    modifies state
    ensures state.Valid() && Takes(s, [CancelInsert(id)] + [CancelBump] + [CancelReturn], s') && Shows(state, s')
    ensures s'.everCancelled == s.everCancelled + {id} && s'.contexts == s.contexts && s'.answers == s.answers
  {
    ghost var s1 := Next(true, s, CancelInsert(id));
    ghost var s2 := Next(true, s1, CancelBump);
    TakesOne(s, CancelInsert(id));
    TakesThen(s, [CancelInsert(id)], s1, CancelBump);
    TakesThen(s, [CancelInsert(id)] + [CancelBump], s2, CancelReturn);
    s' := Next(true, s2, CancelReturn);
    state.Cancel(id);
  }

  /** The worker's front half of a job with an id: generation, check, context. */
  method IntakeTakes(state: C.CancelState, id: string, ghost s: State, ghost worker: nat, ghost k: nat)
    returns (context: C.HandlerContext?, ghost s': State)
    requires state.Valid() && Shows(state, s) && worker !in s.intakes && k !in s.contexts
    ensures Takes(s, [IntakeLoad(worker, id)] + [IntakeCheck(worker, k)], s') && Shows(state, s')
    ensures context == null <==> id in state.order
    ensures context == null ==> s'.contexts == s.contexts
    ensures context != null ==> context.Valid() && context.state == state && ShowsContext(context, k, s')
  {
    ghost var s1 := Next(true, s, IntakeLoad(worker, id));
    TakesOne(s, IntakeLoad(worker, id));
    TakesThen(s, [IntakeLoad(worker, id)], s1, IntakeCheck(worker, k));
    s' := Next(true, s1, IntakeCheck(worker, k));
    var skip := state.IsCancelled(id);
    context := null;
    if !skip {
      context := new C.HandlerContext(Some(id), state);
    }
  }

  /** The accesses of a poll, by what it finds. */
  function PollRun(poll: nat, context: nat, latched: bool, quiet: bool): (run: seq<Action>) {
    if latched then [PollBegin(poll, context)]
    else if quiet then [PollBegin(poll, context)] + [PollLoad(poll)] + [PollSwap(poll)]
    else [PollBegin(poll, context)] + [PollLoad(poll)] + [PollSwap(poll)] + [PollLookup(poll)] + [PollStore(poll)]
  }

  /** One undisturbed poll on values. */
  lemma Polls(s: State, poll: nat, k: nat) returns (s': State)
    requires s.lock.Free? && Enabled(true, s, PollBegin(poll, k))
    ensures var c := s.contexts[k];
            var found := c.latch || (c.seen != s.generation && c.id in s.order);
            && Takes(s, PollRun(poll, k, c.latch, c.seen == s.generation), s')
            && s'.order == s.order && s'.generation == s.generation && s'.lock == s.lock
            && k in s'.contexts && s'.contexts[k].id == c.id && s'.contexts[k].latch == found
            && s'.contexts[k].seen == (if c.latch then c.seen else s.generation)
            && |s'.answers| == |s.answers| + 1 && s'.answers[|s.answers|].context == k && s'.answers[|s.answers|].result == found
  {
    var c, s1 := s.contexts[k], Next(true, s, PollBegin(poll, k));
    TakesOne(s, PollBegin(poll, k));
    s' := s1;
    if !c.latch {
      s' := PollsOn(s, s1, poll, k);
    }
  }

  lemma PollsOn(s: State, s1: State, poll: nat, k: nat) returns (s': State)
    requires s.lock.Free? && Enabled(true, s, PollBegin(poll, k)) && !s.contexts[k].latch && s1 == Next(true, s, PollBegin(poll, k))
    requires Takes(s, [PollBegin(poll, k)], s1)
    ensures var c := s.contexts[k];
            var found := c.seen != s.generation && c.id in s.order;
            && Takes(s, PollRun(poll, k, false, c.seen == s.generation), s')
            && s'.order == s.order && s'.generation == s.generation && s'.lock == s.lock
            && k in s'.contexts && s'.contexts[k].id == c.id && s'.contexts[k].latch == found && s'.contexts[k].seen == s.generation
            && |s'.answers| == |s.answers| + 1 && s'.answers[|s.answers|].context == k && s'.answers[|s.answers|].result == found
  {
    var first := [PollBegin(poll, k)] + [PollLoad(poll)];
    TakesThen(s, [PollBegin(poll, k)], s1, PollLoad(poll));
    var s2 := Next(true, s1, PollLoad(poll));
    TakesThen(s, first, s2, PollSwap(poll));
    var s3 := Next(true, s2, PollSwap(poll));
    s' := s3;
    if s.contexts[k].seen != s.generation {
      TakesThen(s, first + [PollSwap(poll)], s3, PollLookup(poll));
      var s4 := Next(true, s3, PollLookup(poll));
      TakesThen(s, first + [PollSwap(poll)] + [PollLookup(poll)], s4, PollStore(poll));
      s' := Next(true, s4, PollStore(poll));
    }
  }

  method PollTakes(context: C.HandlerContext, ghost s: State, ghost poll: nat, ghost k: nat) returns (r: bool, ghost s': State)
    requires context.Valid() && Shows(context.state, s) && ShowsContext(context, k, s) && Enabled(true, s, PollBegin(poll, k))
    modifies context
    ensures context.Valid() && Shows(context.state, s') && ShowsContext(context, k, s')
    ensures Takes(s, PollRun(poll, k, s.contexts[k].latch, s.contexts[k].seen == s.generation), s')
    ensures |s'.answers| == |s.answers| + 1 && s'.answers[|s.answers|].context == k && s'.answers[|s.answers|].result == r
  {
    s' := Polls(s, poll, k);
    r := context.IsCancelled();
  }
}
