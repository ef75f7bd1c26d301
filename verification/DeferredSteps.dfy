/** The objects of `DeferredCommits.dfy` take the steps of `DeferredRuns.dfy`: what a caller does with
    them, when nobody interferes, is a sequence of steps between the states they show. The callers are
    those of `src/middleware/filter.rs` and `src/middleware/deduplication.rs`. */
module DeferredSteps {
  import opened Messages
  import DC = DeferredCommits
  import opened DeferredRuns

  function View(calls: seq<SourceCall>): (r: seq<DC.Call>) {
    seq(|calls|, i requires 0 <= i < |calls| => DC.Call(calls[i].read, calls[i].dispositions))
  }

  ghost predicate Shows(d: DC.DeferredCommits, source: DC.Source, s: State)
    reads d, source
  {
    d.held == s.held && d.inFlight == s.inFlight && source.calls == View(s.calls)
  }

  ghost predicate Takes(s: State, run: seq<Action>, s': State) {
    Leads(NONE, s, run, s')
  }

  lemma TakesOn(s: State, a: Action, rest: seq<Action>, s': State)
    requires Enabled(NONE, s, a) && Takes(Next(NONE, s, a), rest, s')
    ensures Takes(s, [a] + rest, s')
  {
    Prepend(NONE, s, a, Next(NONE, s, a), rest, s');
  }

  // ---------------------------------------------------------------- holding an emptied batch

  /** The drain loop: one step per commit up to the first failure, and one to notice the empty queue. */
  function DrainRun(accepts: nat -> bool, queue: seq<DC.Held>): (run: seq<Action>)
    decreases |queue|
  {
    if queue == [] then [DrainStep(true)]
    else if !accepts(queue[0].read) then [DrainStep(false)]
    else [DrainStep(true)] + DrainRun(accepts, queue[1..])
  }

  lemma ViewSnoc(s: State, call: SourceCall)
    ensures View(s.calls + [call]) == View(s.calls) + [DC.Call(call.read, call.dispositions)]
  {
  }

  lemma CallsCons(queue: seq<DC.Held>, n: nat)
    requires 0 < n <= |queue|
    ensures DC.CallsOf(queue[..n]) == [DC.CallOf(queue[0])] + DC.CallsOf(queue[1..][..n - 1])
  {
  }

  /** `n` of the queued commits were called, in order. */
  ghost predicate CallsMade(s: State, queue: seq<DC.Held>, n: nat, s': State)
    requires n <= |queue|
  {
    View(s'.calls) == View(s.calls) + DC.CallsOf(queue[..n])
  }

  ghost predicate Drained(accepts: nat -> bool, s: State, s': State) {
    var n := DC.Attempted(accepts, s.held);
    s' == s.(reader := Ready, held := s.held[n..], calls := s'.calls, failed := s'.failed) && CallsMade(s, s.held, n, s')
  }

  lemma DrainStepIs(s: State, ok: bool)
    requires s.reader.Draining? && s.held != []
    ensures var s1 := Next(NONE, s, DrainStep(ok));
            && s1 == s.(reader := if ok then Draining else Ready, held := s.held[1..], calls := s1.calls, failed := s1.failed)
            && View(s1.calls) == View(s.calls) + [DC.CallOf(s.held[0])]
  {
    ViewSnoc(s, Next(NONE, s, DrainStep(ok)).calls[|s.calls|]);
  }

  lemma DrainedOn(accepts: nat -> bool, s: State, s1: State, s': State)
    requires s.held != [] && accepts(s.held[0].read) && Drained(accepts, s1, s')
    requires s1 == s.(held := s.held[1..], calls := s1.calls, failed := s1.failed)
    requires View(s1.calls) == View(s.calls) + [DC.CallOf(s.held[0])]
    ensures Drained(accepts, s, s')
  {
    var n := DC.Attempted(accepts, s.held);
    assert s.held[n..] == s1.held[n - 1..];
    CallsMadeOn(s, s.held, n, s1, s');
  }

  lemma CallsMadeOn(s: State, queue: seq<DC.Held>, n: nat, s1: State, s': State)
    requires 0 < n <= |queue| && CallsMade(s1, queue[1..], n - 1, s') && View(s1.calls) == View(s.calls) + [DC.CallOf(queue[0])]
    ensures CallsMade(s, queue, n, s')
  {
    CallsCons(queue, n);
  }

  lemma {:induction false} DrainTakes(accepts: nat -> bool, s: State) returns (s': State)
    requires s.reader.Draining?
    ensures Takes(s, DrainRun(accepts, s.held), s') && Drained(accepts, s, s')
    decreases |s.held|
  {
    if s.held == [] {
      s' := Next(NONE, s, DrainStep(true));
      LeadsOne(NONE, s, DrainStep(true), s');
    } else {
      var ok := accepts(s.held[0].read);
      var s1 := Next(NONE, s, DrainStep(ok));
      DrainStepIs(s, ok);
      if ok {
        s' := DrainTakes(accepts, s1);
        DrainedOn(accepts, s, s1, s');
        TakesOn(s, DrainStep(true), DrainRun(accepts, s.held[1..]), s');
      } else {
        LeadsOne(NONE, s, DrainStep(false), s1);
        CallsCons(s.held, 1);
        s' := s1;
      }
    }
  }

  function HoldRun(accepts: nat -> bool, emptied: DC.Emptied, idle: bool, queue: seq<DC.Held>): (run: seq<Action>) {
    [ReadEmptied(emptied)] + ([PushHeld] + if idle then DrainRun(accepts, queue) else [])
  }

  /** An emptied batch on an ordered source. */
  method HoldTakes(d: DC.DeferredCommits, source: DC.Source, read: nat, emptied: DC.Emptied, ghost s: State) returns (ok: bool, ghost s': State)
    requires Shows(d, source, s) && s.reader.Ready? && read == s.nextRead
    modifies d, source
    ensures Takes(s, HoldRun(source.accepts, emptied, s.inFlight == 0, s.held + [DC.Held(s.nextRead, emptied)]), s')
    ensures Shows(d, source, s') && s'.reader.Ready?
  {
    ghost var s1 := Next(NONE, s, ReadEmptied(emptied));
    ghost var s2 := Next(NONE, s1, PushHeld);
    ok := d.Hold(source, true, DC.Held(read, emptied));
    s' := s2;
    ghost var rest: seq<Action> := [];
    if s.inFlight == 0 {
      s' := DrainTakes(source.accepts, s2);
      rest := DrainRun(source.accepts, s2.held);
    } else {
      assert Takes(s2, [], s2);
    }
    TakesOn(s1, PushHeld, rest, s');
    TakesOn(s, ReadEmptied(emptied), [PushHeld] + rest, s');
  }

  // ---------------------------------------------------------------- delivering a retained batch

  /** A batch with something kept, delivered on its own: take what is held, count, hand over. */
  method DeliverTakes(d: DC.DeferredCommits, source: DC.Source, ghost s: State) returns (taken: seq<DC.Held>, ghost s': State)
    requires Shows(d, source, s) && s.reader.Ready? && s.collected == []
    modifies d
    ensures Takes(s, [Collect] + [Deliver(false)], s') && Shows(d, source, s') && s'.reader.Ready?
    ensures taken == s.held && s'.route == s.route + [Delivery(s.nextDelivery, Items(taken) + [Own(s.nextRead)], {s.nextRead})]
  {
    taken := d.Take();
    d.Track();
    ghost var s1 := Next(NONE, s, Collect);
    s' := Next(NONE, s1, Deliver(false));
    assert s1.collected == Items(s.held) + [Own(s.nextRead)] && s1.collected + [] == s1.collected;
    OnlyOwn(s.held, s.nextRead);
    LeadsOne(NONE, s1, Deliver(false), s');
    TakesOn(s, Collect, [Deliver(false)], s');
  }

  lemma OnlyOwn(held: seq<DC.Held>, read: nat)
    ensures Owns(Items(held) + [Own(read)]) == {read}
  {
    var items := Items(held) + [Own(read)];
    assert items[|held|] == Own(read);
    assert forall i :: 0 <= i < |held| ==> items[i].Kept?;
  }

  // ---------------------------------------------------------------- committing a retained batch

  /** The head delivery's commit: one step per commit up to the first failure, and one to settle it. */
  function RouteRun(accepts: nat -> bool, work: seq<Item>, dispositions: seq<Disposition>): (run: seq<Action>)
    decreases |work|
  {
    if work == [] then [RouteStep(true, dispositions)]
    else if !accepts(ReadOf(work[0])) then [RouteStep(false, dispositions)]
    else [RouteStep(true, dispositions)] + RouteRun(accepts, work[1..], dispositions)
  }

  function WorkCalls(accepts: nat -> bool, work: seq<Item>, dispositions: seq<Disposition>): (r: seq<DC.Call>)
    decreases |work|
  {
    if work == [] then []
    else [DC.Call(ReadOf(work[0]), ItemDispositions(work[0], dispositions))]
         + if accepts(ReadOf(work[0])) then WorkCalls(accepts, work[1..], dispositions) else []
  }

  predicate AllGo(accepts: nat -> bool, work: seq<Item>) {
    forall i :: 0 <= i < |work| ==> accepts(ReadOf(work[i]))
  }

  /** The head is gone; it stays counted unless all its commits went through. */
  ghost predicate Routed(accepts: nat -> bool, dispositions: seq<Disposition>, s: State, s': State)
    requires s.route != []
  {
    && View(s'.calls) == View(s.calls) + WorkCalls(accepts, s.route[0].work, dispositions)
    && s'.route == s.route[1..] && s'.held == s.held && s'.reader == s.reader
    && s'.inFlight == (if AllGo(accepts, s.route[0].work) && s.inFlight > 0 then s.inFlight - 1 else s.inFlight)
  }

  lemma RouteStepIs(s: State, ok: bool, dispositions: seq<Disposition>)
    requires s.route != [] && s.route[0].work != []
    ensures var s1 := NextRoute(s, ok, dispositions);
            var head := s.route[0];
            && View(s1.calls) == View(s.calls) + [DC.Call(ReadOf(head.work[0]), ItemDispositions(head.work[0], dispositions))]
            && s1.route == (if ok then [head.(work := head.work[1..])] + s.route[1..] else s.route[1..])
            && s1.held == s.held && s1.reader == s.reader && s1.inFlight == s.inFlight
  {
    ViewSnoc(s, NextRoute(s, ok, dispositions).calls[|s.calls|]);
  }

  lemma {:induction false} RoutedOn(accepts: nat -> bool, dispositions: seq<Disposition>, s: State, s1: State, s': State)
    requires s.route != [] && s.route[0].work != [] && accepts(ReadOf(s.route[0].work[0]))
    requires s1 == NextRoute(s, true, dispositions) && s1.route != [] && Routed(accepts, dispositions, s1, s')
    ensures Routed(accepts, dispositions, s, s')
  {
    RouteStepIs(s, true, dispositions);
    var work := s.route[0].work;
    assert s1.route[0].work == work[1..] && s1.route[1..] == s.route[1..];
    assert AllGo(accepts, work) <==> AllGo(accepts, work[1..]) by {
      assert work == [work[0]] + work[1..];
    }
  }

  lemma {:induction false} RouteTakes(accepts: nat -> bool, dispositions: seq<Disposition>, s: State) returns (s': State)
    requires s.route != []
    ensures Takes(s, RouteRun(accepts, s.route[0].work, dispositions), s') && Routed(accepts, dispositions, s, s')
    decreases |s.route[0].work|
  {
    var work := s.route[0].work;
    if work == [] {
      s' := NextRoute(s, true, dispositions);
      LeadsOne(NONE, s, RouteStep(true, dispositions), s');
    } else {
      var ok := accepts(ReadOf(work[0]));
      var s1 := NextRoute(s, ok, dispositions);
      RouteStepIs(s, ok, dispositions);
      if ok {
        s' := RouteTakes(accepts, dispositions, s1);
        RoutedOn(accepts, dispositions, s, s1, s');
        TakesOn(s, RouteStep(true, dispositions), RouteRun(accepts, work[1..], dispositions), s');
      } else {
        LeadsOne(NONE, s, RouteStep(false, dispositions), s1);
        s' := s1;
      }
    }
  }

  /** What a commit with held commits in front calls, by the loop that runs them. */
  lemma {:induction false} HeldThenOwn(accepts: nat -> bool, held: seq<DC.Held>, read: nat, dispositions: seq<Disposition>)
    ensures var work := Items(held) + [Own(read)];
            && WorkCalls(accepts, work, dispositions)
               == DC.CallsOf(held[..DC.Attempted(accepts, held)]) + (if DC.AllAccepted(accepts, held) then [DC.Call(read, dispositions)] else [])
            && (AllGo(accepts, work) <==> DC.AllAccepted(accepts, held) && accepts(read))
    decreases |held|
  {
    var work := Items(held) + [Own(read)];
    if held == [] {
      assert work == [Own(read)] && work[1..] == [];
    } else {
      HeldThenOwn(accepts, held[1..], read, dispositions);
      assert work[0] == Kept(held[0]) && work[1..] == Items(held[1..]) + [Own(read)];
      CallsCons(held, DC.Attempted(accepts, held));
      AllFirst(accepts, held);
      assert work == [work[0]] + work[1..];
    }
  }

  lemma AllFirst(accepts: nat -> bool, held: seq<DC.Held>)
    requires held != []
    ensures DC.AllAccepted(accepts, held) <==> accepts(held[0].read) && DC.AllAccepted(accepts, held[1..])
  {
    assert held == [held[0]] + held[1..];
  }

  /** The commit of a retained batch: the taken commits first, then its own, then it is settled. */
  method CommitTakes(d: DC.DeferredCommits, source: DC.Source, taken: seq<DC.Held>, read: nat, dispositions: seq<Disposition>, ghost s: State)
    returns (ok: bool, ghost s': State)
    requires Shows(d, source, s) && s.route != [] && s.route[0].work == Items(taken) + [Own(read)] && d.inFlight > 0
    modifies d, source
    ensures Takes(s, RouteRun(source.accepts, s.route[0].work, dispositions), s') && Shows(d, source, s')
    ensures ok == AllGo(source.accepts, s.route[0].work) && s'.route == s.route[1..]
  {
    s' := RouteTakes(source.accepts, dispositions, s);
    HeldThenOwn(source.accepts, taken, read, dispositions);
    ok := DC.RunAll(source, taken);
    if ok {
      ok := source.Commit(DC.Held(read, DC.Settled(dispositions)));
    }
    if ok {
      d.Settle();
    }
  }

  // ---------------------------------------------------------------- the end of a drain

  function FlushRun(accepts: nat -> bool, queue: seq<DC.Held>): (run: seq<Action>)
    decreases |queue|
  {
    if queue == [] then [FlushStep(true)]
    else if !accepts(queue[0].read) then [FlushStep(false)]
    else [FlushStep(true)] + FlushRun(accepts, queue[1..])
  }

  ghost predicate Flushed(accepts: nat -> bool, s: State, s': State)
    requires s.reader.Flushing?
  {
    var n := DC.Attempted(accepts, s.reader.queue);
    s' == s.(reader := Ready, calls := s'.calls, failed := s'.failed) && CallsMade(s, s.reader.queue, n, s')
  }

  lemma FlushStepIs(s: State, ok: bool)
    requires s.reader.Flushing? && s.reader.queue != []
    ensures var s1 := Next(NONE, s, FlushStep(ok));
            && s1 == s.(reader := if ok then Flushing(s.reader.queue[1..]) else Ready, calls := s1.calls, failed := s1.failed)
            && View(s1.calls) == View(s.calls) + [DC.CallOf(s.reader.queue[0])]
  {
    ViewSnoc(s, Next(NONE, s, FlushStep(ok)).calls[|s.calls|]);
  }

  lemma {:induction false} FlushTakes(accepts: nat -> bool, s: State) returns (s': State)
    requires s.reader.Flushing?
    ensures Takes(s, FlushRun(accepts, s.reader.queue), s') && Flushed(accepts, s, s')
    decreases |s.reader.queue|
  {
    var queue := s.reader.queue;
    if queue == [] {
      s' := Next(NONE, s, FlushStep(true));
      LeadsOne(NONE, s, FlushStep(true), s');
    } else {
      var ok := accepts(queue[0].read);
      var s1 := Next(NONE, s, FlushStep(ok));
      FlushStepIs(s, ok);
      if ok {
        s' := FlushTakes(accepts, s1);
        CallsMadeOn(s, queue, DC.Attempted(accepts, queue), s1, s');
        TakesOn(s, FlushStep(true), FlushRun(accepts, queue[1..]), s');
      } else {
        LeadsOne(NONE, s, FlushStep(false), s1);
        CallsCons(queue, 1);
        s' := s1;
      }
    }
  }

  /** The empty batch that ends a drain: run what is held. */
  method DrainEndTakes(d: DC.DeferredCommits, source: DC.Source, ghost s: State) returns (ok: bool, ghost s': State)
    requires Shows(d, source, s) && s.reader.Ready? && s.collected == []
    modifies d, source
    ensures Takes(s, [StartFlush] + FlushRun(source.accepts, s.held), s') && Shows(d, source, s') && s'.reader.Ready?
  {
    ghost var s1 := Next(NONE, s, StartFlush);
    s' := FlushTakes(source.accepts, s1);
    TakesOn(s, StartFlush, FlushRun(source.accepts, s.held), s');
    var taken := d.Take();
    ok := DC.RunAll(source, taken);
  }
}
