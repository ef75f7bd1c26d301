/** The batch send helper (`src/traits.rs`, `send_batch_helper`): up to a window of sends in flight,
    completing in any order, reported in input order. */
module SendBatch {
  import opened Messages

  /** Default number of per-message sends kept in flight. */
  const SEND_BATCH_CONCURRENCY: nat := 128

  datatype Sent = Acked | Response(message: Message)
  datatype SendResult = Ok(sent: Sent) | Err(error: ProcessingError)
  datatype SentBatch = AllAcked | Partial(responses: Option<seq<Message>>, failed: seq<(Message, ProcessingError)>)

  function FromFailures(failed: seq<(Message, ProcessingError)>): (r: SentBatch)
    ensures FailuresIn(r) == failed && ResponsesIn(r) == [] && (r.AllAcked? <==> failed == [])
  {
    if failed == [] then AllAcked else Partial(None, failed)
  }

  // ---------------------------------------------------------------- the in-flight window

  datatype Event = Start | Done(index: nat)

  function Starts(events: seq<Event>): (n: nat)
    decreases |events|
  {
    if events == [] then 0
    else Starts(events[..|events| - 1]) + if events[|events| - 1].Start? then 1 else 0
  }

  /** The indices in completion order. */
  function Completions(events: seq<Event>): (r: seq<nat>)
    decreases |events|
  {
    if events == [] then []
    else
      var last := events[|events| - 1];
      Completions(events[..|events| - 1]) + if last.Done? then [last.index] else []
  }

  /** Sends start in input order while fewer than `window` are in flight; any send in flight may be
      the next to complete. */
  ghost predicate Legal(n: nat, window: nat, events: seq<Event>)
    decreases |events|
  {
    events == [] ||
    (var before := events[..|events| - 1];
     && Legal(n, window, before)
     && match events[|events| - 1]
        case Start => Starts(before) < n && Starts(before) - |Completions(before)| < window
        case Done(i) => i < Starts(before) && i !in Completions(before))
  }

  ghost predicate Distinct(s: seq<nat>) {
    forall i, j :: 0 <= i < j < |s| ==> s[i] != s[j]
  }

  lemma {:induction false} WindowHolds(n: nat, window: nat, events: seq<Event>)
    requires Legal(n, window, events)
    ensures Starts(events) <= n
    ensures |Completions(events)| <= Starts(events) <= |Completions(events)| + window
    ensures Distinct(Completions(events)) && forall i :: i in Completions(events) ==> i < Starts(events)
    ensures forall k :: 0 <= k < |Completions(events)| ==> Completions(events)[k] < k + window
    decreases |events|
  {
    if events != [] {
      var before, last := events[..|events| - 1], events[|events| - 1];
      WindowHolds(n, window, before);
      if last.Done? {
        WithinRange(Completions(events), Starts(before));
      }
    }
  }

  /** Distinct numbers below `n` are at most `n` many, and with `n` of them none is missing. */
  lemma WithinRange(s: seq<nat>, n: nat)
    requires Distinct(s) && forall i :: i in s ==> i < n
    ensures |s| <= n
    ensures |s| == n ==> forall i: nat :: i < n ==> i in s
  {
    DistinctCount(s);
    SubsetCount(ElementsOf(s), Below(n));
    if |s| == n {
      forall i: nat | i < n ensures i in s {
        assert i in Below(n) && i in ElementsOf(s);
      }
    }
  }

  function ElementsOf(s: seq<nat>): (r: set<nat>) {
    set i | i in s
  }

  function Below(n: nat): (r: set<nat>)
    ensures |r| == n
    ensures forall i: nat :: i in r <==> i < n
  {
    if n == 0 then {} else Below(n - 1) + {n - 1}
  }

  lemma {:induction false} DistinctCount(s: seq<nat>)
    requires Distinct(s)
    ensures |ElementsOf(s)| == |s|
  {
    if s != [] {
      DistinctCount(s[1..]);
      assert s[0] !in s[1..];
      assert ElementsOf(s) == ElementsOf(s[1..]) + {s[0]};
    }
  }

  lemma SubsetCount(a: set<nat>, b: set<nat>)
    requires a <= b
    ensures |a| <= |b|
    ensures |a| == |b| ==> a == b
  {
    assert |b - a| == |b| - |a| by {
      assert b == a + (b - a) && a !! b - a;
    }
  }

  lemma {:induction false} StartMore(n: nat, window: nat, events: seq<Event>, k: nat) returns (more: seq<Event>)
    requires Legal(n, window, events) && Starts(events) + k <= n && Starts(events) + k <= |Completions(events)| + window
    ensures Legal(n, window, more) && Starts(more) == Starts(events) + k && Completions(more) == Completions(events)
    decreases k
  {
    if k == 0 {
      more := events;
    } else {
      var before := StartMore(n, window, events, k - 1);
      more := before + [Start];
      assert more[..|more| - 1] == before;
    }
  }

  /** The other half of `WindowHolds`: every order of distinct sends in which the `k`-th completion is
      among the first `k + window` sends can happen. */
  lemma {:induction false} EveryOrderInTheWindowHappens(n: nat, window: nat, order: seq<nat>) returns (events: seq<Event>)
    requires Distinct(order) && forall k :: 0 <= k < |order| ==> order[k] < n && order[k] < k + window
    ensures Legal(n, window, events) && Completions(events) == order
    decreases |order|
  {
    if order == [] {
      events := [];
    } else {
      var k := |order| - 1;
      var before := EveryOrderInTheWindowHappens(n, window, order[..k]);
      WindowHolds(n, window, before);
      var started := StartMore(n, window, before, if Starts(before) <= order[k] then order[k] + 1 - Starts(before) else 0);
      events := started + [Done(order[k])];
      assert events[..|events| - 1] == started && order == order[..k] + [order[k]];
      assert order[k] !in order[..k];
    }
  }

  /** With a window of one the sends run strictly one after the other: whenever one starts, every
      earlier one has completed, and they complete in input order. */
  lemma {:induction false} OrderedSendsDoNotOverlap(n: nat, events: seq<Event>)
    requires Legal(n, 1, events)
    ensures forall k :: 0 <= k < |Completions(events)| ==> Completions(events)[k] == k
    ensures forall e :: 0 <= e < |events| && events[e].Start? ==> |Completions(events[..e])| == Starts(events[..e])
    decreases |events|
  {
    if events != [] {
      var m := |events| - 1;
      var before := events[..m];
      OrderedSendsDoNotOverlap(n, before);
      WindowHolds(n, 1, before);
      WindowHolds(n, 1, events);
      forall e | 0 <= e < |events| && events[e].Start? ensures |Completions(events[..e])| == Starts(events[..e]) {
        if e < m { assert before[..e] == events[..e] && before[e] == events[e]; }
      }
      if events[m].Done? {
        OnlyNextCanComplete(Completions(before), events[m].index, Starts(before));
      }
    }
  }

  lemma OnlyNextCanComplete(done: seq<nat>, index: nat, started: nat)
    requires forall i :: 0 <= i < |done| ==> done[i] == i
    requires index < started <= |done| + 1 && index !in done
    ensures index == |done|
  {
    forall i | 0 <= i < |done| ensures i in done { assert done[i] == i; }
  }

  // ---------------------------------------------------------------- input order

  /** The positions from `from` on whose result satisfies a test, tagged and in order. */
  function TaggedResponses(results: seq<SendResult>, from: nat): (r: seq<(nat, Message)>)
    requires from <= |results|
    decreases |results| - from
  {
    if from == |results| then []
    else (if results[from] == Ok(Acked) || results[from].Err? then [] else [(from, results[from].sent.message)])
         + TaggedResponses(results, from + 1)
  }

  function TaggedFailures(messages: seq<Message>, results: seq<SendResult>, from: nat): (r: seq<(nat, (Message, ProcessingError))>)
    requires from <= |results| == |messages|
    decreases |results| - from
  {
    if from == |results| then []
    else (if results[from].Err? then [(from, (messages[from], results[from].error))] else [])
         + TaggedFailures(messages, results, from + 1)
  }

  function Untag<T>(tagged: seq<(nat, T)>): (r: seq<T>) {
    seq(|tagged|, i requires 0 <= i < |tagged| => tagged[i].1)
  }

  /** What callers are told, as a function of the messages and their results alone. */
  function Report(messages: seq<Message>, results: seq<SendResult>): (r: SentBatch)
    requires |results| == |messages|
  {
    var responses := Untag(TaggedResponses(results, 0));
    var failed := Untag(TaggedFailures(messages, results, 0));
    if failed == [] && responses == [] then AllAcked
    else Partial(if responses == [] then None else Some(responses), failed)
  }

  ghost predicate Ascending<T>(tagged: seq<(nat, T)>) {
    forall i, j :: 0 <= i < j < |tagged| ==> tagged[i].0 < tagged[j].0
  }

  predicate IsResponse(results: seq<SendResult>, x: (nat, Message)) {
    x.0 < |results| && results[x.0] == Ok(Response(x.1))
  }

  predicate IsFailure(messages: seq<Message>, results: seq<SendResult>, x: (nat, (Message, ProcessingError))) {
    x.0 < |results| && x.0 < |messages| && results[x.0] == Err(x.1.1) && messages[x.0] == x.1.0
  }

  /** Tagged responses are exactly the response positions, in order. */
  lemma {:induction false} TaggedResponsesAre(results: seq<SendResult>, from: nat)
    requires from <= |results|
    ensures Ascending(TaggedResponses(results, from))
    ensures forall x :: x in TaggedResponses(results, from) <==> from <= x.0 && IsResponse(results, x)
    decreases |results| - from
  {
    if from < |results| {
      TaggedResponsesAre(results, from + 1);
      var rest := TaggedResponses(results, from + 1);
      PrependAscends(if results[from] == Ok(Acked) || results[from].Err? then [] else [(from, results[from].sent.message)], rest, from);
    }
  }

  lemma {:induction false} TaggedFailuresAre(messages: seq<Message>, results: seq<SendResult>, from: nat)
    requires from <= |results| == |messages|
    ensures Ascending(TaggedFailures(messages, results, from))
    ensures forall x :: x in TaggedFailures(messages, results, from) <==> from <= x.0 && IsFailure(messages, results, x)
    decreases |results| - from
  {
    if from < |results| {
      TaggedFailuresAre(messages, results, from + 1);
      var rest := TaggedFailures(messages, results, from + 1);
      PrependAscends(if results[from].Err? then [(from, (messages[from], results[from].error))] else [], rest, from);
    }
  }

  lemma PrependAscends<T(!new)>(head: seq<(nat, T)>, rest: seq<(nat, T)>, from: nat)
    requires |head| <= 1 && (head != [] ==> head[0].0 == from)
    requires Ascending(rest) && forall x :: x in rest ==> from < x.0
    ensures Ascending(head + rest)
    ensures forall x :: x in head + rest <==> (head != [] && x == head[0]) || x in rest
  {
    assert forall k :: 0 <= k < |rest| ==> rest[k] in rest;
  }

  function ResponsesIn(r: SentBatch): (m: seq<Message>) {
    if r.Partial? && r.responses.Some? then r.responses.value else []
  }

  function FailuresIn(r: SentBatch): (f: seq<(Message, ProcessingError)>) {
    if r.Partial? then r.failed else []
  }

  ghost predicate Rising(positions: seq<nat>) {
    forall i, j :: 0 <= i < j < |positions| ==> positions[i] < positions[j]
  }

  /** `answered` and `lost` say which message each reported response and failure belongs to: one entry
      each, in input order, and every message is in exactly the one its result calls for. */
  ghost predicate Shares(messages: seq<Message>, results: seq<SendResult>, r: SentBatch, answered: seq<nat>, lost: seq<nat>)
    requires |results| == |messages|
  {
    && Rising(answered) && |answered| == |ResponsesIn(r)|
    && Rising(lost) && |lost| == |FailuresIn(r)|
    && (forall k :: 0 <= k < |answered| ==> answered[k] < |results| && results[answered[k]] == Ok(Response(ResponsesIn(r)[k])))
    && (forall k :: 0 <= k < |lost| ==>
          lost[k] < |results| && results[lost[k]] == Err(FailuresIn(r)[k].1) && messages[lost[k]] == FailuresIn(r)[k].0)
    && (forall i :: 0 <= i < |results| ==>
          (i in answered <==> results[i].Ok? && results[i].sent.Response?) && (i in lost <==> results[i].Err?))
  }

  function Tags<T>(tagged: seq<(nat, T)>): (r: seq<nat>) {
    seq(|tagged|, i requires 0 <= i < |tagged| => tagged[i].0)
  }

  /** Each message is in exactly one of the reported responses, the acks or the reported failures, at
      one index of its own. */
  lemma EveryMessageOnce(messages: seq<Message>, results: seq<SendResult>) returns (answered: seq<nat>, lost: seq<nat>)
    requires |results| == |messages|
    ensures Shares(messages, results, Report(messages, results), answered, lost)
  {
    var responses, failures := TaggedResponses(results, 0), TaggedFailures(messages, results, 0);
    TaggedResponsesAre(results, 0);
    TaggedFailuresAre(messages, results, 0);
    answered, lost := Tags(responses), Tags(failures);
    assert ResponsesIn(Report(messages, results)) == Untag(responses);
    assert FailuresIn(Report(messages, results)) == Untag(failures);
    forall k | 0 <= k < |responses| ensures IsResponse(results, responses[k]) { assert responses[k] in responses; }
    forall k | 0 <= k < |failures| ensures IsFailure(messages, results, failures[k]) { assert failures[k] in failures; }
    forall i | 0 <= i < |results|
      ensures (i in answered <==> results[i].Ok? && results[i].sent.Response?) && (i in lost <==> results[i].Err?)
    {
      TaggedPosition(messages, results, i);
    }
  }

  /** The plain answer means that every message was acked without a response. */
  lemma AllAckedExactly(messages: seq<Message>, results: seq<SendResult>)
    requires |results| == |messages|
    ensures Report(messages, results).AllAcked? <==> forall i :: 0 <= i < |results| ==> results[i] == Ok(Acked)
  {
    var r := Report(messages, results);
    var answered, lost := EveryMessageOnce(messages, results);
    if r.AllAcked? {
      forall i | 0 <= i < |results| ensures results[i] == Ok(Acked) { assert i !in answered && i !in lost; }
    } else if answered != [] {
      assert answered[0] in answered;
    } else {
      assert lost[0] in lost;
    }
  }

  lemma TaggedPosition(messages: seq<Message>, results: seq<SendResult>, i: nat)
    requires i < |results| == |messages|
    ensures i in Tags(TaggedResponses(results, 0)) <==> results[i].Ok? && results[i].sent.Response?
    ensures i in Tags(TaggedFailures(messages, results, 0)) <==> results[i].Err?
  {
    var responses, failures := TaggedResponses(results, 0), TaggedFailures(messages, results, 0);
    TaggedResponsesAre(results, 0);
    TaggedFailuresAre(messages, results, 0);
    if results[i].Err? {
      var x := (i, (messages[i], results[i].error));
      assert x in failures;
      var k :| 0 <= k < |failures| && failures[k] == x;
      assert Tags(failures)[k] == i;
    } else if results[i].sent.Response? {
      var x := (i, results[i].sent.message);
      assert x in responses;
      var k :| 0 <= k < |responses| && responses[k] == x;
      assert Tags(responses)[k] == i;
    }
    if i in Tags(responses) {
      var k :| 0 <= k < |responses| && Tags(responses)[k] == i;
      assert responses[k] in responses;
    }
    if i in Tags(failures) {
      var k :| 0 <= k < |failures| && Tags(failures)[k] == i;
      assert failures[k] in failures;
    }
  }

  // ---------------------------------------------------------------- sorting by index

  function Insert<T(!new)>(item: (nat, T), sorted: seq<(nat, T)>): (r: seq<(nat, T)>)
    ensures forall x :: x in r <==> x == item || x in sorted
    ensures |r| == |sorted| + 1
  {
    if sorted == [] || item.0 < sorted[0].0 then [item] + sorted
    else
      var r := [sorted[0]] + Insert(item, sorted[1..]);
      assert sorted == [sorted[0]] + sorted[1..];
      r
  }

  /** `sort_by_key` on the index. */
  function SortByIndex<T(!new)>(items: seq<(nat, T)>): (r: seq<(nat, T)>)
    ensures forall x :: x in r <==> x in items
  {
    if items == [] then []
    else
      assert items == [items[0]] + items[1..];
      Insert(items[0], SortByIndex(items[1..]))
  }

  lemma {:induction false} InsertAscends<T(!new)>(item: (nat, T), sorted: seq<(nat, T)>)
    requires Ascending(sorted) && forall x :: x in sorted ==> x.0 != item.0
    ensures Ascending(Insert(item, sorted))
  {
    if sorted == [] || item.0 < sorted[0].0 {
      AscendingFrom([item], sorted);
    } else {
      var tail := sorted[1..];
      assert sorted == [sorted[0]] + tail && sorted[0] in sorted;
      InsertAscends(item, tail);
      forall x | x in Insert(item, tail) ensures sorted[0].0 < x.0 {
        if x in tail { var k :| 0 <= k < |tail| && tail[k] == x; assert sorted[k + 1] == x; }
      }
      AscendingFrom([sorted[0]], Insert(item, tail));
    }
  }

  lemma AscendingFrom<T(!new)>(head: seq<(nat, T)>, rest: seq<(nat, T)>)
    requires |head| == 1 && Ascending(rest)
    requires (forall x :: x in rest ==> head[0].0 < x.0) || (rest != [] && head[0].0 < rest[0].0)
    ensures Ascending(head + rest)
  {
    assert forall k :: 0 <= k < |rest| ==> rest[k] in rest;
  }

  ghost predicate DistinctTags<T>(items: seq<(nat, T)>) {
    forall i, j :: 0 <= i < j < |items| ==> items[i].0 != items[j].0
  }

  lemma {:induction false} SortAscends<T(!new)>(items: seq<(nat, T)>)
    requires DistinctTags(items)
    ensures Ascending(SortByIndex(items))
  {
    if items != [] {
      SortAscends(items[1..]);
      forall x | x in SortByIndex(items[1..]) ensures x.0 != items[0].0 {
        var k :| 0 <= k < |items[1..]| && items[1..][k] == x;
        assert items[k + 1] == x;
      }
      InsertAscends(items[0], SortByIndex(items[1..]));
    }
  }

  /** There is only one ascending way to list the same tagged items. */
  lemma {:induction false} AscendingUnique<T(!new)>(a: seq<(nat, T)>, b: seq<(nat, T)>)
    requires Ascending(a) && Ascending(b) && forall x :: x in a <==> x in b
    ensures a == b
  {
    if a != [] || b != [] {
      assert a != [] ==> a[0] in b;
      assert b != [] ==> b[0] in a;
      AscendingHeads(a, b);
      forall x ensures x in a[1..] <==> x in b[1..] {
        TailMembers(a, x);
        TailMembers(b, x);
      }
      AscendingUnique(a[1..], b[1..]);
      assert a == [a[0]] + a[1..] && b == [b[0]] + b[1..];
    }
  }

  lemma AscendingHeads<T>(a: seq<(nat, T)>, b: seq<(nat, T)>)
    requires Ascending(a) && Ascending(b) && a != [] && b != [] && a[0] in b && b[0] in a
    ensures a[0] == b[0]
  {
    var i :| 0 <= i < |b| && b[i] == a[0];
    var j :| 0 <= j < |a| && a[j] == b[0];
    assert b[0].0 <= b[i].0 && a[0].0 <= a[j].0;
    assert i == 0;
  }

  lemma TailMembers<T>(a: seq<(nat, T)>, x: (nat, T))
    requires Ascending(a) && a != []
    ensures x in a[1..] <==> x in a && x != a[0]
  {
    assert forall k :: 0 <= k < |a[1..]| ==> a[1..][k] == a[k + 1] && a[k + 1].0 > a[0].0;
    if x in a && x != a[0] {
      var k :| 0 <= k < |a| && a[k] == x;
      assert a[1..][k - 1] == x;
    }
  }

  // ---------------------------------------------------------------- the helper

  /** Takes the results as they complete, each tagged with its index. */
  method CollectResults(messages: seq<Message>, results: seq<SendResult>, schedule: seq<nat>)
    returns (responses: seq<(nat, Message)>, failed: seq<(nat, (Message, ProcessingError))>)
    requires |results| == |messages| && Distinct(schedule) && forall i :: i in schedule ==> i < |messages|
    ensures DistinctTags(responses) && DistinctTags(failed)
    ensures forall x :: x in responses <==> x.0 in schedule && IsResponse(results, x)
    ensures forall x :: x in failed <==> x.0 in schedule && IsFailure(messages, results, x)
  {
    responses, failed := [], [];
    for k := 0 to |schedule|
      invariant DistinctTags(responses) && DistinctTags(failed)
      invariant forall x :: x in responses <==> x.0 in schedule[..k] && IsResponse(results, x)
      invariant forall x :: x in failed <==> x.0 in schedule[..k] && IsFailure(messages, results, x)
    {
      var idx := schedule[k];
      assert idx in schedule && schedule[..k + 1] == schedule[..k] + [idx];
      assert idx !in schedule[..k];
      assert forall j :: 0 <= j < |responses| ==> responses[j] in responses;
      assert forall j :: 0 <= j < |failed| ==> failed[j] in failed;
      match results[idx] {
        case Ok(Response(m)) => responses := responses + [(idx, m)];
        case Ok(Acked) =>
        case Err(e) => failed := failed + [(idx, (messages[idx], e))];
      }
    }
    assert schedule[..|schedule|] == schedule;
  }

  /** Collects the results as they complete, then sorts them back. What it returns does not depend on
      the schedule the window allowed. */
  method SendBatchHelper(messages: seq<Message>, results: seq<SendResult>, ordered: bool, events: seq<Event>) returns (r: SentBatch)
    requires |results| == |messages|
    requires Legal(|messages|, if ordered then 1 else 128, events)
    requires |Completions(events)| == |messages|
    ensures r == Report(messages, results)
    ensures r.AllAcked? <==> forall i :: 0 <= i < |results| ==> results[i] == Ok(Acked)
    ensures r.Partial? && r.responses.Some? ==> r.responses.value != []
  {
    AllAckedExactly(messages, results);
    var schedule := Completions(events);
    WindowHolds(|messages|, if ordered then 1 else SEND_BATCH_CONCURRENCY, events);
    WithinRange(schedule, |messages|);
    var responses, failed := CollectResults(messages, results, schedule);
    SortedIsInputOrder(messages, results, schedule, responses, failed);
    var inOrder := Untag(SortByIndex(responses));
    var failures := Untag(SortByIndex(failed));
    if failures == [] && inOrder == [] {
      r := AllAcked;
    } else {
      r := Partial(if inOrder == [] then None else Some(inOrder), failures);
    }
  }

  lemma SortedIsInputOrder(messages: seq<Message>, results: seq<SendResult>, schedule: seq<nat>,
                           responses: seq<(nat, Message)>, failed: seq<(nat, (Message, ProcessingError))>)
    requires |results| == |messages|
    requires forall i :: 0 <= i < |messages| ==> i in schedule
    requires DistinctTags(responses) && DistinctTags(failed)
    requires forall x :: x in responses <==> x.0 in schedule && IsResponse(results, x)
    requires forall x :: x in failed <==> x.0 in schedule && IsFailure(messages, results, x)
    ensures SortByIndex(responses) == TaggedResponses(results, 0)
    ensures SortByIndex(failed) == TaggedFailures(messages, results, 0)
  {
    SortAscends(responses);
    SortAscends(failed);
    TaggedResponsesAre(results, 0);
    TaggedFailuresAre(messages, results, 0);
    AscendingUnique(SortByIndex(responses), TaggedResponses(results, 0));
    AscendingUnique(SortByIndex(failed), TaggedFailures(messages, results, 0));
  }
}
