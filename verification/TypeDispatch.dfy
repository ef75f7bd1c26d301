/** Dispatch by message type (`src/type_handler.rs`): per message, and per batch by grouping
    neighbouring messages with the same target into runs. */
module TypeDispatch {
  import opened Messages
  import opened Dispatch

  /** A registered handler: its single and its batch form. */
  datatype Handler = Handler(one: Message -> HandlerResult, many: seq<Message> -> seq<HandlerResult>)

  datatype TypeHandler = TypeHandler(handlers: map<string, Handler>, typeKey: string, fallback: Option<Handler>)

  datatype Target = Typed(name: string) | Fallback

  const NO_HANDLER := Failure(ProcessingError(NonRetryable, "No handler registered and no fallback provided"))
  const WRONG_COUNT := Failure(ProcessingError(NonRetryable, "handler returned a wrong number of results"))
  const NO_RESULT := Failure(ProcessingError(NonRetryable, "Handler batch dispatch did not produce a result"))

  function Handle(th: TypeHandler, m: Message): (r: HandlerResult) {
    if th.typeKey in m.metadata && m.metadata[th.typeKey] in th.handlers then th.handlers[m.metadata[th.typeKey]].one(m)
    else if th.fallback.Some? then th.fallback.value.one(m)
    else NO_HANDLER
  }

  function TargetOf(th: TypeHandler, m: Message): (t: Option<Target>) {
    if th.typeKey in m.metadata && m.metadata[th.typeKey] in th.handlers then Some(Typed(m.metadata[th.typeKey]))
    else if th.fallback.Some? then Some(Fallback)
    else None
  }

  function HandlerOf(th: TypeHandler, t: Target): (h: Option<Handler>) {
    match t
    case Typed(name) => if name in th.handlers then Some(th.handlers[name]) else None
    case Fallback => th.fallback
  }

  /** Neighbouring positions with one target. */
  datatype Run = Run(target: Target, indices: seq<nat>)

  /** Position `i` joins the last run if that has its target, and starts a new one otherwise. */
  function Extend(runs: seq<Run>, target: Target, i: nat): (r: seq<Run>) {
    var last := |runs| - 1;
    if runs != [] && runs[last].target == target
    then runs[last := Run(target, runs[last].indices + [i])]
    else runs + [Run(target, [i])]
  }

  /** The runs of the first `n` messages; a message nobody handles belongs to none and does not end
      the run around it. */
  function Runs(th: TypeHandler, messages: seq<Message>, n: nat): (r: seq<Run>)
    requires n <= |messages|
  {
    if n == 0 then []
    else
      var front := Runs(th, messages, n - 1);
      match TargetOf(th, messages[n - 1])
      case None => front
      case Some(target) => Extend(front, target, n - 1)
  }

  /** All indices of the runs, one run after the other. */
  function Flatten(runs: seq<Run>): (r: seq<nat>)
    decreases |runs|
  {
    if runs == [] then [] else Flatten(runs[..|runs| - 1]) + runs[|runs| - 1].indices
  }

  /** The positions below `n` some handler or the fallback takes, in order. */
  function Routable(th: TypeHandler, messages: seq<Message>, n: nat): (r: seq<nat>)
    requires n <= |messages|
    ensures forall k :: 0 <= k < |r| ==> r[k] < n
  {
    if n == 0 then []
    else Routable(th, messages, n - 1) + if TargetOf(th, messages[n - 1]).Some? then [n - 1] else []
  }

  ghost predicate RunOk(th: TypeHandler, messages: seq<Message>, run: Run) {
    && HandlerOf(th, run.target).Some?
    && run.indices != []
    && forall j :: 0 <= j < |run.indices| ==> run.indices[j] < |messages| && TargetOf(th, messages[run.indices[j]]) == Some(run.target)
  }

  /** Flattened, the runs are everything routable in input order. */
  lemma {:induction false} RunsKeepOrder(th: TypeHandler, messages: seq<Message>, n: nat)
    requires n <= |messages|
    ensures Flatten(Runs(th, messages, n)) == Routable(th, messages, n)
  {
    if n > 0 {
      RunsKeepOrder(th, messages, n - 1);
      var front := Runs(th, messages, n - 1);
      var target := TargetOf(th, messages[n - 1]);
      if target.Some? {
        ExtendFlattens(front, target.value, n - 1);
        assert Runs(th, messages, n) == Extend(front, target.value, n - 1);
      } else {
        assert Routable(th, messages, n) == Routable(th, messages, n - 1);
      }
    }
  }

  lemma {:induction false} ExtendFlattens(runs: seq<Run>, target: Target, i: nat)
    ensures Flatten(Extend(runs, target, i)) == Flatten(runs) + [i]
  {
    var runs', last := Extend(runs, target, i), |runs| - 1;
    if runs != [] && runs[last].target == target {
      assert runs'[..last] == runs[..last];
    } else {
      assert runs'[..|runs|] == runs;
    }
  }

  /** Every run is for its own target, and grouping is maximal: neighbouring runs differ in target. */
  lemma {:induction false} RunsAreOk(th: TypeHandler, messages: seq<Message>, n: nat)
    requires n <= |messages|
    ensures forall k :: 0 <= k < |Runs(th, messages, n)| ==> RunOk(th, messages, Runs(th, messages, n)[k])
    ensures forall k :: 0 < k < |Runs(th, messages, n)| ==> Runs(th, messages, n)[k - 1].target != Runs(th, messages, n)[k].target
  {
    if n > 0 {
      RunsAreOk(th, messages, n - 1);
    }
  }

  ghost predicate Sorted(indices: seq<nat>) {
    forall i, j :: 0 <= i < j < |indices| ==> indices[i] < indices[j]
  }

  ghost predicate Before(a: seq<nat>, b: seq<nat>) {
    forall x, y :: x in a && y in b ==> x < y
  }

  ghost predicate Below(indices: seq<nat>, n: nat) {
    forall x :: x in indices ==> x < n
  }

  /** Indices below `n`, growing within a run and from run to run, so that no slot belongs to two runs. */
  ghost predicate Ascending(runs: seq<Run>, n: nat) {
    && (forall k :: 0 <= k < |runs| ==> Below(runs[k].indices, n) && Sorted(runs[k].indices))
    && (forall k, l :: 0 <= k < l < |runs| ==> Before(runs[k].indices, runs[l].indices))
  }

  lemma {:induction false} RunsAscend(th: TypeHandler, messages: seq<Message>, n: nat)
    requires n <= |messages|
    ensures Ascending(Runs(th, messages, n), n)
  {
    if n > 0 {
      RunsAscend(th, messages, n - 1);
      RunsStep(th, messages, n);
      var front := Runs(th, messages, n - 1);
      var target := TargetOf(th, messages[n - 1]);
      if target.Some? {
        ExtendAscends(front, target.value, n - 1);
        assert Ascending(Extend(front, target.value, n - 1), n);
      } else {
        AscendingStays(front, n - 1);
        assert Ascending(front, n);
      }
    }
  }

  lemma {:induction false} RunsStep(th: TypeHandler, messages: seq<Message>, n: nat)
    requires 0 < n <= |messages|
    ensures var front, target := Runs(th, messages, n - 1), TargetOf(th, messages[n - 1]);
            Runs(th, messages, n) == if target.Some? then Extend(front, target.value, n - 1) else front
  {
  }

  lemma AscendingStays(runs: seq<Run>, n: nat)
    requires Ascending(runs, n)
    ensures Ascending(runs, n + 1)
  {
  }

  lemma SnocSorted(indices: seq<nat>, n: nat)
    requires Below(indices, n) && Sorted(indices)
    ensures Below(indices + [n], n + 1) && Sorted(indices + [n])
  {
    forall i | 0 <= i < |indices| ensures indices[i] < n { assert indices[i] in indices; }
  }

  lemma ExtendAscends(runs: seq<Run>, target: Target, n: nat)
    requires Ascending(runs, n)
    ensures Ascending(Extend(runs, target, n), n + 1)
  {
    var runs' := Extend(runs, target, n);
    forall k | 0 <= k < |runs'| ensures Below(runs'[k].indices, n + 1) && Sorted(runs'[k].indices) {
      if k < |runs| {
        assert Below(runs[k].indices, n) && Sorted(runs[k].indices);
        SnocSorted(runs[k].indices, n);
      }
    }
    forall k, l | 0 <= k < l < |runs'| ensures Before(runs'[k].indices, runs'[l].indices) {
      assert Below(runs[k].indices, n) && runs'[k] == runs[k];
      assert l < |runs| ==> Before(runs[k].indices, runs[l].indices);
    }
  }

  lemma {:induction false} InSomeRun(runs: seq<Run>, i: nat)
    requires i in Flatten(runs)
    ensures exists k :: 0 <= k < |runs| && i in runs[k].indices
    decreases |runs|
  {
    var n := |runs| - 1;
    if i in runs[n].indices {
    } else {
      InSomeRun(runs[..n], i);
      var k :| 0 <= k < n && i in runs[..n][k].indices;
      assert i in runs[k].indices;
    }
  }

  lemma {:induction false} RoutableAre(th: TypeHandler, messages: seq<Message>, n: nat)
    requires n <= |messages|
    ensures forall i: nat :: i in Routable(th, messages, n) <==> i < n && TargetOf(th, messages[i]).Some?
    ensures forall i, j :: 0 <= i < j < |Routable(th, messages, n)| ==> Routable(th, messages, n)[i] < Routable(th, messages, n)[j]
  {
    if n > 0 {
      RoutableAre(th, messages, n - 1);
    }
  }

  function Group(messages: seq<Message>, indices: seq<nat>): (r: seq<Message>)
    requires forall j :: 0 <= j < |indices| ==> indices[j] < |messages|
  {
    seq(|indices|, j requires 0 <= j < |indices| => messages[indices[j]])
  }

  /** What a run's handler makes of its `j`-th message. */
  function RunResult(th: TypeHandler, messages: seq<Message>, run: Run, j: nat): (r: HandlerResult)
    requires forall j :: 0 <= j < |run.indices| ==> run.indices[j] < |messages|
    requires HandlerOf(th, run.target).Some? && j < |run.indices|
  {
    var out := HandlerOf(th, run.target).value.many(Group(messages, run.indices));
    if |out| == |run.indices| then out[j] else WRONG_COUNT
  }

  ghost predicate RunAnswered(th: TypeHandler, messages: seq<Message>, run: Run, slots: seq<Option<HandlerResult>>) {
    && RunOk(th, messages, run)
    && |slots| == |messages|
    && forall j :: 0 <= j < |run.indices| ==> slots[run.indices[j]] == Some(RunResult(th, messages, run, j))
  }

  /** Every slot holds what its own run produced for its own message. */
  ghost predicate Answered(th: TypeHandler, messages: seq<Message>, slots: seq<Option<HandlerResult>>) {
    && |slots| == |messages|
    && (forall i :: 0 <= i < |messages| && TargetOf(th, messages[i]).None? ==> slots[i] == Some(NO_HANDLER))
    && forall k :: 0 <= k < |Runs(th, messages, |messages|)| ==> RunAnswered(th, messages, Runs(th, messages, |messages|)[k], slots)
  }

  /** Every slot is filled, so the "did not produce a result" fallback is unreachable. */
  lemma AnsweredIsTotal(th: TypeHandler, messages: seq<Message>, slots: seq<Option<HandlerResult>>, i: nat)
    requires Answered(th, messages, slots) && i < |messages|
    ensures slots[i].Some?
  {
    if TargetOf(th, messages[i]).Some? {
      var k, j := SlotOf(th, messages, i);
      assert RunAnswered(th, messages, Runs(th, messages, |messages|)[k], slots);
    }
  }

  lemma SlotOf(th: TypeHandler, messages: seq<Message>, i: nat) returns (k: nat, j: nat)
    requires i < |messages| && TargetOf(th, messages[i]).Some?
    ensures var runs := Runs(th, messages, |messages|); k < |runs| && j < |runs[k].indices| && runs[k].indices[j] == i
  {
    var runs := Runs(th, messages, |messages|);
    RoutableAre(th, messages, |messages|);
    RunsKeepOrder(th, messages, |messages|);
    InSomeRun(runs, i);
    k :| 0 <= k < |runs| && i in runs[k].indices;
    j :| 0 <= j < |runs[k].indices| && runs[k].indices[j] == i;
  }

  /** A batch form that handles each message as the single form would. */
  ghost predicate Pointwise(h: Handler) {
    forall ms: seq<Message> :: |h.many(ms)| == |ms| && forall j :: 0 <= j < |ms| ==> h.many(ms)[j] == h.one(ms[j])
  }

  /** Dispatch by runs equals dispatch per message whenever every batch form is pointwise. */
  lemma RunsEqualPerMessage(th: TypeHandler, messages: seq<Message>, slots: seq<Option<HandlerResult>>, i: nat)
    requires AllPointwise(th) && Answered(th, messages, slots) && i < |messages|
    ensures slots[i] == Some(Handle(th, messages[i]))
  {
    if TargetOf(th, messages[i]).Some? {
      var k, j := SlotOf(th, messages, i);
      var run := Runs(th, messages, |messages|)[k];
      assert RunAnswered(th, messages, run, slots);
      RunResultIsOwn(th, messages, run, j);
    }
  }

  // ---------------------------------------------------------------- aborting together

  /** The results of dispatching each message on its own. */
  function PerMessage(th: TypeHandler, messages: seq<Message>): (r: seq<HandlerResult>) {
    seq(|messages|, i requires 0 <= i < |messages| => Handle(th, messages[i]))
  }

  ghost predicate AllPointwise(th: TypeHandler) {
    && (forall name :: name in th.handlers ==> Pointwise(th.handlers[name]))
    && (th.fallback.Some? ==> Pointwise(th.fallback.value))
  }

  /** With pointwise batch forms these are results dispatch by runs may return. */
  lemma PerMessageAnswers(th: TypeHandler, messages: seq<Message>)
    requires AllPointwise(th)
    ensures Answered(th, messages, Filled(PerMessage(th, messages)))
  {
    var runs, slots := Runs(th, messages, |messages|), Filled(PerMessage(th, messages));
    RunsAreOk(th, messages, |messages|);
    forall k | 0 <= k < |runs| ensures RunAnswered(th, messages, runs[k], slots) {
      assert RunOk(th, messages, runs[k]);
      forall j | 0 <= j < |runs[k].indices| ensures slots[runs[k].indices[j]] == Some(RunResult(th, messages, runs[k], j)) {
        RunResultIsOwn(th, messages, runs[k], j);
      }
    }
  }

  lemma RunResultIsOwn(th: TypeHandler, messages: seq<Message>, run: Run, j: nat)
    requires AllPointwise(th) && RunOk(th, messages, run) && j < |run.indices|
    ensures RunResult(th, messages, run, j) == Handle(th, messages[run.indices[j]])
  {
    var h := HandlerOf(th, run.target).value;
    assert Pointwise(h);
    assert Group(messages, run.indices)[j] == messages[run.indices[j]];
  }

  /** Every batch form aborts together, whatever batch it gets. */
  ghost predicate FormsAbort(th: TypeHandler) {
    && (forall name :: name in th.handlers ==> FormAborts(th.handlers[name]))
    && (th.fallback.Some? ==> FormAborts(th.fallback.value))
  }

  ghost predicate FormAborts(h: Handler) {
    forall ms: seq<Message> :: AbortsTogether(h.many(ms))
  }

  /** Both send every message to the same target. */
  predicate SameRouting(a: TypeHandler, b: TypeHandler) {
    a.typeKey == b.typeKey && a.handlers.Keys == b.handlers.Keys && a.fallback.Some? == b.fallback.Some?
  }

  /** Whatever handlers stand behind this routing, as long as their batch forms abort together the
      dispatched batch does. */
  ghost predicate AlwaysAborts(th: TypeHandler, messages: seq<Message>) {
    forall other, results ::
      SameRouting(th, other) && FormsAbort(other) && Answered(other, messages, Filled(results)) ==> AbortsTogether(results)
  }

  /** From the first routable message on, every message goes to the same target. */
  predicate OneTarget(th: TypeHandler, messages: seq<Message>) {
    forall i, j :: 0 <= i < j < |messages| && TargetOf(th, messages[i]).Some? ==> TargetOf(th, messages[j]) == TargetOf(th, messages[i])
  }

  /** "A transient failure aborts the rest of the batch" holds for dispatch by type exactly when, from
      the first routable message on, all messages have one target: a second type or a message nobody
      handles behind it breaks it for some handlers. */
  lemma AbortsTogetherExactly(th: TypeHandler, messages: seq<Message>)
    ensures AlwaysAborts(th, messages) <==> OneTarget(th, messages)
  {
    if OneTarget(th, messages) {
      forall other, results | SameRouting(th, other) && FormsAbort(other) && Answered(other, messages, Filled(results))
        ensures AbortsTogether(results)
      {
        assert OneTarget(other, messages);
        OneTargetAborts(other, messages, results);
      }
    } else {
      var i, j :| 0 <= i < j < |messages| && TargetOf(th, messages[i]).Some? && TargetOf(th, messages[j]) != TargetOf(th, messages[i]);
      TwoTargetsDoNotAbort(th, messages, i, j);
    }
  }

  /** In terms of runs: at most one, with every message nobody handles in front of it. */
  lemma OneTargetIsOneRun(th: TypeHandler, messages: seq<Message>)
    ensures OneTarget(th, messages) <==>
            && |Runs(th, messages, |messages|)| <= 1
            && forall i, j :: 0 <= i < j < |messages| && TargetOf(th, messages[i]).Some? ==> TargetOf(th, messages[j]).Some?
  {
    OneTargetOneRun(th, messages);
    if |Runs(th, messages, |messages|)| <= 1 {
      forall i, j | 0 <= i < j < |messages| && TargetOf(th, messages[i]).Some? && TargetOf(th, messages[j]).Some?
        ensures TargetOf(th, messages[j]) == TargetOf(th, messages[i])
      {
        var k, a := SlotOf(th, messages, i);
        var l, b := SlotOf(th, messages, j);
        RunsAreOk(th, messages, |messages|);
        assert RunOk(th, messages, Runs(th, messages, |messages|)[0]);
      }
    }
  }

  lemma OneTargetOneRun(th: TypeHandler, messages: seq<Message>)
    ensures OneTarget(th, messages) ==> |Runs(th, messages, |messages|)| <= 1
  {
    var runs := Runs(th, messages, |messages|);
    RunsAreOk(th, messages, |messages|);
    RunsAscend(th, messages, |messages|);
    if |runs| > 1 {
      assert RunOk(th, messages, runs[0]) && RunOk(th, messages, runs[1]);
      var i, j := runs[0].indices[0], runs[1].indices[0];
      assert Before(runs[0].indices, runs[1].indices);
      assert TargetOf(th, messages[i]) == Some(runs[0].target) && TargetOf(th, messages[j]) == Some(runs[1].target);
      assert runs[1 - 1].target != runs[1].target;
    }
  }

  lemma OneTargetAborts(th: TypeHandler, messages: seq<Message>, results: seq<HandlerResult>)
    requires OneTarget(th, messages) && FormsAbort(th) && Answered(th, messages, Filled(results))
    ensures AbortsTogether(results)
  {
    forall i, j | 0 <= i < j < |results| && IsTransient(results[i])
      ensures IsTransient(results[j]) && results[j].error.kind == results[i].error.kind
    {
      SlotsAbort(th, messages, results, i, j);
    }
  }

  lemma SlotsAbort(th: TypeHandler, messages: seq<Message>, results: seq<HandlerResult>, i: nat, j: nat)
    requires OneTarget(th, messages) && FormsAbort(th) && Answered(th, messages, Filled(results))
    requires i < j < |results| && IsTransient(results[i])
    ensures IsTransient(results[j]) && results[j].error.kind == results[i].error.kind
  {
    assert Filled(results)[i] == Some(results[i]) && Filled(results)[j] == Some(results[j]);
    assert TargetOf(th, messages[i]).Some?;
    var k, a := SlotOf(th, messages, i);
    var l, b := SlotOf(th, messages, j);
    OneTargetOneRun(th, messages);
    var run := Runs(th, messages, |messages|)[0];
    assert RunAnswered(th, messages, run, Filled(results));
    RunsAscend(th, messages, |messages|);
    assert a < b;
    assert FormAborts(HandlerOf(th, run.target).value);
    assert AbortsTogether(HandlerOf(th, run.target).value.many(Group(messages, run.indices)));
  }

  function Always(r: HandlerResult): (h: Handler) {
    Handler(_ => r, (ms: seq<Message>) => seq(|ms|, _ => r))
  }

  const BUSY := Failure(ProcessingError(Retryable, "busy"))

  lemma AlwaysIsFine(r: HandlerResult)
    ensures Pointwise(Always(r)) && FormAborts(Always(r))
  {
    forall ms: seq<Message> ensures AbortsTogether(Always(r).many(ms)) {
      var out := Always(r).many(ms);
      assert forall i :: 0 <= i < |out| ==> out[i] == r;
    }
  }

  function BusyOnly(target: Target, other: Target): (h: Handler) {
    Always(if other == target then BUSY else Success(Acked))
  }

  /** The same routing with handlers that ask for a retry for one target and ack everything else. */
  function BusyFor(th: TypeHandler, target: Target): (r: TypeHandler) {
    TypeHandler(map name | name in th.handlers :: BusyOnly(target, Typed(name)), th.typeKey,
                if th.fallback.Some? then Some(BusyOnly(target, Fallback)) else None)
  }

  lemma BusyForFits(th: TypeHandler, target: Target)
    ensures SameRouting(th, BusyFor(th, target)) && AllPointwise(BusyFor(th, target)) && FormsAbort(BusyFor(th, target))
  {
    var other := BusyFor(th, target);
    forall t: Target ensures Pointwise(BusyOnly(target, t)) && FormAborts(BusyOnly(target, t)) {
      AlwaysIsFine(if t == target then BUSY else Success(Acked));
    }
    assert forall name :: name in other.handlers ==> other.handlers[name] == BusyOnly(target, Typed(name));
  }

  lemma BusyForHandles(th: TypeHandler, target: Target, m: Message)
    ensures IsTransient(Handle(BusyFor(th, target), m)) <==> TargetOf(th, m) == Some(target)
  {
  }

  lemma TwoTargetsDoNotAbort(th: TypeHandler, messages: seq<Message>, i: nat, j: nat)
    requires i < j < |messages| && TargetOf(th, messages[i]).Some? && TargetOf(th, messages[j]) != TargetOf(th, messages[i])
    ensures !AlwaysAborts(th, messages)
  {
    var target := TargetOf(th, messages[i]).value;
    BusyForFits(th, target);
    BusyForHandles(th, target, messages[i]);
    BusyForHandles(th, target, messages[j]);
    Refutes(th, BusyFor(th, target), messages, i, j);
  }

  lemma Refutes(th: TypeHandler, other: TypeHandler, messages: seq<Message>, i: nat, j: nat)
    requires SameRouting(th, other) && AllPointwise(other) && FormsAbort(other) && i < j < |messages|
    requires IsTransient(Handle(other, messages[i])) && !IsTransient(Handle(other, messages[j]))
    ensures !AlwaysAborts(th, messages)
  {
    PerMessageAnswers(other, messages);
    RefutedBy(th, other, messages, PerMessage(other, messages), i, j);
  }

  lemma RefutedBy(th: TypeHandler, other: TypeHandler, messages: seq<Message>, results: seq<HandlerResult>, i: nat, j: nat)
    requires SameRouting(th, other) && FormsAbort(other) && Answered(other, messages, Filled(results))
    requires i < j < |results| && IsTransient(results[i]) && !IsTransient(results[j])
    ensures !AlwaysAborts(th, messages)
  {
    assert !AbortsTogether(results);
  }

  /** Two types in one batch: the first type's retryable failure does not stop the second. */
  lemma RunsDoNotAbortTogether(th: TypeHandler, a: string, b: string, first: Message, second: Message)
    requires a != b && a in th.handlers && b in th.handlers
    requires first.metadata == map[th.typeKey := a] && second.metadata == map[th.typeKey := b]
    ensures !AlwaysAborts(th, [first, second])
  {
    TwoTargetsDoNotAbort(th, [first, second], 0, 1);
  }

  // ---------------------------------------------------------------- the batch method

  method HandleMany(th: TypeHandler, messages: seq<Message>) returns (results: seq<HandlerResult>)
    ensures |results| == |messages|
    ensures Answered(th, messages, Filled(results))
    ensures AllPointwise(th) ==> forall i :: 0 <= i < |messages| ==>
              var m := messages[i];
              if th.typeKey in m.metadata && m.metadata[th.typeKey] in th.handlers then results[i] == th.handlers[m.metadata[th.typeKey]].one(m)
              else if th.fallback.Some? then results[i] == th.fallback.value.one(m)
              else results[i].Failure? && results[i].error.kind == NonRetryable
  {
    var n := |messages|;
    var slots := new Option<HandlerResult>[n](_ => None);
    var runs: seq<Run> := [];
    for i := 0 to n
      invariant runs == Runs(th, messages, i)
      invariant forall k :: 0 <= k < i && TargetOf(th, messages[k]).None? ==> slots[k] == Some(NO_HANDLER)
    {
      var target := TargetOf(th, messages[i]);
      if target.Some? {
        var last := |runs| - 1;
        if runs != [] && runs[last].target == target.value {
          runs := runs[last := Run(target.value, runs[last].indices + [i])];
        } else {
          runs := runs + [Run(target.value, [i])];
        }
      } else {
        slots[i] := Some(NO_HANDLER);
      }
    }

    RunsAreOk(th, messages, n);
    RunsAscend(th, messages, n);
    DispatchRuns(th, messages, runs, slots);
    results := Unslot(th, messages, slots);
    PointwiseResults(th, messages, results);
  }

  /** Turns the filled slots into results. */
  method Unslot(th: TypeHandler, messages: seq<Message>, slots: array<Option<HandlerResult>>) returns (results: seq<HandlerResult>)
    requires Answered(th, messages, slots[..])
    ensures |results| == |messages| && Filled(results) == slots[..]
  {
    results := [];
    for i := 0 to slots.Length
      invariant |results| == i
      invariant forall k :: 0 <= k < i ==> slots[k] == Some(results[k])
    {
      AnsweredIsTotal(th, messages, slots[..], i);
      results := results + [if slots[i].Some? then slots[i].value else NO_RESULT];
    }
  }

  lemma PointwiseResults(th: TypeHandler, messages: seq<Message>, results: seq<HandlerResult>)
    requires Answered(th, messages, Filled(results)) && |results| == |messages|
    ensures AllPointwise(th) ==> forall i :: 0 <= i < |messages| ==>
              var m := messages[i];
              if th.typeKey in m.metadata && m.metadata[th.typeKey] in th.handlers then results[i] == th.handlers[m.metadata[th.typeKey]].one(m)
              else if th.fallback.Some? then results[i] == th.fallback.value.one(m)
              else results[i].Failure? && results[i].error.kind == NonRetryable
  {
    if AllPointwise(th) {
      forall i | 0 <= i < |messages| ensures results[i] == Handle(th, messages[i]) {
        RunsEqualPerMessage(th, messages, Filled(results), i);
        assert Filled(results)[i] == Some(results[i]);
      }
    }
  }

  function Filled(results: seq<HandlerResult>): (r: seq<Option<HandlerResult>>) {
    seq(|results|, i requires 0 <= i < |results| => Some(results[i]))
  }

  /** Every run in turn; a slot nobody runs for keeps what it had. */
  method DispatchRuns(th: TypeHandler, messages: seq<Message>, runs: seq<Run>, slots: array<Option<HandlerResult>>)
    requires slots.Length == |messages| && Ascending(runs, |messages|)
    requires forall k :: 0 <= k < |runs| ==> RunOk(th, messages, runs[k])
    modifies slots
    ensures forall k :: 0 <= k < |runs| ==> RunAnswered(th, messages, runs[k], slots[..])
    ensures forall i :: 0 <= i < slots.Length && TargetOf(th, messages[i]).None? ==> slots[i] == old(slots[i])
  {
    for k := 0 to |runs|
      invariant forall l :: 0 <= l < k ==> RunAnswered(th, messages, runs[l], slots[..])
      invariant forall i :: 0 <= i < slots.Length && TargetOf(th, messages[i]).None? ==> slots[i] == old(slots[i])
    {
      ghost var before := slots[..];
      assert RunOk(th, messages, runs[k]);
      DispatchRun(th, messages, runs[k], slots);
      ghost var after := slots[..];
      forall l | 0 <= l < k ensures RunAnswered(th, messages, runs[l], after) {
        assert Before(runs[l].indices, runs[k].indices);
        OtherRunStays(th, messages, runs[l], runs[k], before, after);
      }
    }
  }

  lemma OtherRunStays(th: TypeHandler, messages: seq<Message>, run: Run, other: Run,
                      before: seq<Option<HandlerResult>>, after: seq<Option<HandlerResult>>)
    requires RunAnswered(th, messages, run, before) && Before(run.indices, other.indices)
    requires |after| == |before| && forall i :: 0 <= i < |before| && i !in other.indices ==> after[i] == before[i]
    ensures RunAnswered(th, messages, run, after)
  {
    forall j | 0 <= j < |run.indices| ensures after[run.indices[j]] == before[run.indices[j]] {
      assert run.indices[j] in run.indices;
    }
  }

  /** Hands one run to its handler and spreads the answers over the run's slots. */
  method DispatchRun(th: TypeHandler, messages: seq<Message>, run: Run, slots: array<Option<HandlerResult>>)
    requires slots.Length == |messages| && RunOk(th, messages, run)
    requires Sorted(run.indices)
    modifies slots
    ensures RunAnswered(th, messages, run, slots[..])
    ensures forall i :: 0 <= i < slots.Length && i !in run.indices ==> slots[i] == old(slots[i])
    ensures |HandlerOf(th, run.target).value.many(Group(messages, run.indices))| != |run.indices| ==>
              forall j :: 0 <= j < |run.indices| ==>
                slots[run.indices[j]].Some? && slots[run.indices[j]].value.Failure? && slots[run.indices[j]].value.error.kind == NonRetryable
  {
    var out := HandlerOf(th, run.target).value.many(Group(messages, run.indices));
    for j := 0 to |run.indices|
      invariant forall i :: 0 <= i < j ==> slots[run.indices[i]] == Some(RunResult(th, messages, run, i))
      invariant forall i :: 0 <= i < slots.Length && i !in run.indices ==> slots[i] == old(slots[i])
    {
      slots[run.indices[j]] := Some(if |out| == |run.indices| then out[j] else WRONG_COUNT);
    }
  }
}
