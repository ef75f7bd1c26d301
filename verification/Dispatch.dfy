/** Handling a batch and reporting what became of each message: the default `handle_many`
    (`src/traits.rs`), the command publisher (`src/command_handler.rs`) and the event publisher
    (`src/event_handler.rs`). */
module Dispatch {
  import opened Messages
  import SB = SendBatch

  datatype Handled = Acked | Publish(message: Message)
  datatype HandlerResult = Success(handled: Handled) | Failure(error: ProcessingError)

  /** A retryable or connection failure: its message is nacked and redelivered. */
  predicate IsTransient(r: HandlerResult) {
    r.Failure? && !r.error.kind.NonRetryable?
  }

  // ---------------------------------------------------------------- default handle_many

  function AbortReason(kind: ErrorClass): (r: string) {
    if kind.Retryable? then "batch aborted after earlier retryable handler failure"
    else "batch aborted after earlier handler connection failure"
  }

  /** After a transient failure every later result is a failure of the same class. */
  ghost predicate AbortsTogether(results: seq<HandlerResult>) {
    forall i, j :: 0 <= i < j < |results| && IsTransient(results[i]) ==>
      IsTransient(results[j]) && results[j].error.kind == results[i].error.kind
  }

  /** How many messages are handled: up to and including the first transient failure. `handle` may
      depend on the position, so it stands for any stateful handler. */
  function Calls(handle: (nat, Message) -> HandlerResult, messages: seq<Message>, from: nat): (n: nat)
    requires from <= |messages|
    ensures from <= n <= |messages|
    ensures forall i :: from <= i < n - 1 ==> !IsTransient(handle(i, messages[i]))
    ensures n < |messages| ==> n > from && IsTransient(handle(n - 1, messages[n - 1]))
    decreases |messages| - from
  {
    if from == |messages| then from
    else if IsTransient(handle(from, messages[from])) then from + 1
    else Calls(handle, messages, from + 1)
  }

  function Aborted(kind: ErrorClass): (r: HandlerResult) {
    Failure(ProcessingError(kind, AbortReason(kind)))
  }

  /** Each handled message has its own answer; the rest fails like the last one handled. */
  function DefaultResults(handle: (nat, Message) -> HandlerResult, messages: seq<Message>): (r: seq<HandlerResult>)
    ensures |r| == |messages|
    ensures var n := Calls(handle, messages, 0);
            && (forall i :: 0 <= i < n ==> r[i] == handle(i, messages[i]))
            && (forall i :: n <= i < |messages| ==> r[i] == Aborted(r[n - 1].error.kind))
  {
    var n := Calls(handle, messages, 0);
    seq(|messages|, i requires 0 <= i < |messages| =>
      if i < n then handle(i, messages[i]) else Aborted(handle(n - 1, messages[n - 1]).error.kind))
  }

  /** The default batch handling. `calls` counts the messages the handler saw. */
  method HandleMany(handle: (nat, Message) -> HandlerResult, messages: seq<Message>) returns (results: seq<HandlerResult>, calls: nat)
    ensures results == DefaultResults(handle, messages) && calls == Calls(handle, messages, 0)
    ensures |results| == |messages| && calls <= |messages|
    ensures forall i :: 0 <= i < calls ==> results[i] == handle(i, messages[i])
    ensures forall i :: 0 <= i < calls - 1 ==> results[i].Success? || results[i].error.kind == NonRetryable
    ensures calls < |messages| ==>
              calls > 0 && results[calls - 1].Failure? && (results[calls - 1].error.kind == Retryable || results[calls - 1].error.kind == Connection)
    ensures forall i :: calls <= i < |messages| ==>
              && results[i].Failure? && results[i].error.kind == results[calls - 1].error.kind
              && results[i].error.reason == if results[i].error.kind == Connection
                                            then "batch aborted after earlier handler connection failure"
                                            else "batch aborted after earlier retryable handler failure"
  {
    results, calls := [], 0;
    while calls < |messages|
      invariant calls == |results| <= |messages|
      invariant forall i :: 0 <= i < calls ==> results[i] == handle(i, messages[i])
      invariant Calls(handle, messages, 0) == Calls(handle, messages, calls)
    {
      var result := handle(calls, messages[calls]);
      results := results + [result];
      calls := calls + 1;
      if IsTransient(result) {
        var rest := FailRest(result.error.kind, |messages| - calls);
        results := results + rest;
        return;
      }
    }
  }

  method FailRest(kind: ErrorClass, remaining: nat) returns (results: seq<HandlerResult>)
    ensures |results| == remaining && forall i :: 0 <= i < remaining ==> results[i] == Aborted(kind)
  {
    results := [];
    for k := 0 to remaining
      invariant |results| == k && forall i :: 0 <= i < k ==> results[i] == Aborted(kind)
    {
      results := results + [Aborted(kind)];
    }
  }

  lemma DefaultAbortsTogether(handle: (nat, Message) -> HandlerResult, messages: seq<Message>)
    ensures AbortsTogether(DefaultResults(handle, messages))
  {
    var results, n := DefaultResults(handle, messages), Calls(handle, messages, 0);
    forall i, j | 0 <= i < j < |results| && IsTransient(results[i])
      ensures IsTransient(results[j]) && results[j].error.kind == results[i].error.kind
    {
      assert i >= n - 1;
    }
  }

  /** Nothing behind the first transient failure is handled: what a handler would have answered there
      makes no difference. */
  lemma {:induction false} NothingHandledAfter(handle: (nat, Message) -> HandlerResult, other: (nat, Message) -> HandlerResult, messages: seq<Message>)
    requires forall i :: 0 <= i < Calls(handle, messages, 0) ==> other(i, messages[i]) == handle(i, messages[i])
    ensures Calls(other, messages, 0) == Calls(handle, messages, 0)
    ensures DefaultResults(other, messages) == DefaultResults(handle, messages)
  {
    SameCalls(handle, other, messages, 0);
  }

  lemma {:induction false} SameCalls(handle: (nat, Message) -> HandlerResult, other: (nat, Message) -> HandlerResult, messages: seq<Message>, from: nat)
    requires from <= |messages|
    requires forall i :: from <= i < Calls(handle, messages, from) ==> other(i, messages[i]) == handle(i, messages[i])
    ensures Calls(other, messages, from) == Calls(handle, messages, from)
    decreases |messages| - from
  {
    if from < |messages| && !IsTransient(handle(from, messages[from])) {
      SameCalls(handle, other, messages, from + 1);
    }
  }

  // ---------------------------------------------------------------- fates

  datatype Fate = HandlerAcked | Published | Failed

  function FateOf(r: HandlerResult): (f: Fate) {
    match r
    case Success(Acked) => HandlerAcked
    case Success(Publish(_)) => Published
    case Failure(_) => Failed
  }

  /** The positions below `n` with one fate, in order. */
  function Positions(results: seq<HandlerResult>, fate: Fate, n: nat): (r: seq<nat>)
    requires n <= |results|
    ensures forall k :: 0 <= k < |r| ==> r[k] < n && FateOf(results[r[k]]) == fate
  {
    if n == 0 then []
    else Positions(results, fate, n - 1) + if FateOf(results[n - 1]) == fate then [n - 1] else []
  }

  lemma {:induction false} PositionsAre(results: seq<HandlerResult>, fate: Fate, n: nat)
    requires n <= |results|
    ensures forall i: nat :: i in Positions(results, fate, n) <==> i < n && FateOf(results[i]) == fate
    ensures forall i, j :: 0 <= i < j < |Positions(results, fate, n)| ==> Positions(results, fate, n)[i] < Positions(results, fate, n)[j]
  {
    if n > 0 {
      PositionsAre(results, fate, n - 1);
    }
  }

  // ---------------------------------------------------------------- responses

  const CORRELATION_ID_KEY := "correlation_id"

  function SourceMetadata(message: Message): (r: map<string, string>) {
    map k | k in message.metadata && IsSourceMetadataKey(k) :: message.metadata[k]
  }

  predicate HasSourceMetadata(message: Message) {
    exists k :: k in message.metadata && IsSourceMetadataKey(k)
  }

  function KeepSourceMetadata(response: Message, source: map<string, string>): (r: Message) {
    if HasSourceMetadata(response) then response else response.(metadata := response.metadata + source)
  }

  function SetCorrelationId(response: Message, inbound: Option<string>, fallback: string): (r: Message) {
    if CORRELATION_ID_KEY in response.metadata then response
    else response.(metadata := response.metadata[CORRELATION_ID_KEY := if inbound.Some? then inbound.value else fallback])
  }

  function Inbound(message: Message): (r: Option<string>) {
    if CORRELATION_ID_KEY in message.metadata then Some(message.metadata[CORRELATION_ID_KEY]) else None
  }

  /** The message published for a handler's response to `original`. */
  function Prepared(original: Message, response: Message, hex: nat -> string): (r: Message) {
    var owned := response.(id := original.id);
    SetCorrelationId(KeepSourceMetadata(owned, SourceMetadata(original)), Inbound(original), hex(original.id))
  }

  /** A published response carries the original's id and the handler's payload; everything the handler
      set stays; the correlation id comes from the response, else the request, else the id; the source
      position is the handler's own if it set any, else the original's. Nothing else is added. */
  lemma PreparedIs(original: Message, response: Message, hex: nat -> string)
    ensures var r := Prepared(original, response, hex);
            && r.id == original.id && r.payload == response.payload
            && (forall k :: k in response.metadata ==> k in r.metadata && r.metadata[k] == response.metadata[k])
            && CORRELATION_ID_KEY in r.metadata
            && (CORRELATION_ID_KEY !in response.metadata ==>
                  r.metadata[CORRELATION_ID_KEY] == (if CORRELATION_ID_KEY in original.metadata then original.metadata[CORRELATION_ID_KEY] else hex(original.id)))
            && SourceMetadata(r) == (if HasSourceMetadata(response) then SourceMetadata(response) else SourceMetadata(original))
            && ((exists j :: j in response.metadata && "mqb.src." <= j) ==>
                  forall k :: k in r.metadata && "mqb.src." <= k ==> k in response.metadata)
            && ((forall j :: j in response.metadata ==> !("mqb.src." <= j)) ==>
                  forall k :: k in original.metadata && "mqb.src." <= k ==> k in r.metadata && r.metadata[k] == original.metadata[k])
            && (forall k :: k in r.metadata ==> k in response.metadata || k == "correlation_id" || (k in original.metadata && "mqb.src." <= k))
  {
    CorrelationIsNoSource();
    var owned := response.(id := original.id);
    assert HasSourceMetadata(owned) == HasSourceMetadata(response);
    var kept := KeepSourceMetadata(owned, SourceMetadata(original));
    assert SourceMetadata(kept) == if HasSourceMetadata(response) then SourceMetadata(response) else SourceMetadata(original);
    assert SourceMetadata(Prepared(original, response, hex)) == SourceMetadata(kept);
  }

  lemma CorrelationIsNoSource()
    ensures !IsSourceMetadataKey(CORRELATION_ID_KEY)
  {
    assert CORRELATION_ID_KEY[0] == 'c' && SOURCE_METADATA_PREFIX[0] == 'm';
  }

  // ---------------------------------------------------------------- the publishers

  datatype Passthrough = Forward | AckAll
  datatype Outcome = Reported(batch: SB.SentBatch) | Refused(error: ProcessingError)

  const COUNT_MISMATCH := ProcessingError(NonRetryable, "handler result count differs from the messages'")

  function FailedPairs(messages: seq<Message>, results: seq<HandlerResult>, n: nat): (r: seq<(Message, ProcessingError)>)
    requires n <= |results| == |messages|
  {
    var positions := Positions(results, Failed, n);
    seq(|positions|, k requires 0 <= k < |positions| =>
      (messages[positions[k]], results[positions[k]].error))
  }

  lemma FailedSnoc(messages: seq<Message>, results: seq<HandlerResult>, n: nat)
    requires n < |results| == |messages|
    ensures FailedPairs(messages, results, n + 1)
         == FailedPairs(messages, results, n) + if results[n].Failure? then [(messages[n], results[n].error)] else []
  {
    assert Positions(results, Failed, n + 1) == Positions(results, Failed, n) + if results[n].Failure? then [n] else [];
  }

  function ToPublish(messages: seq<Message>, results: seq<HandlerResult>, hex: nat -> string, n: nat): (r: seq<Message>)
    requires n <= |results| == |messages|
  {
    var positions := Positions(results, Published, n);
    seq(|positions|, k requires 0 <= k < |positions| =>
      Prepared(messages[positions[k]], results[positions[k]].handled.message, hex))
  }

  /** What reaches the inner publisher is one message per published position, in input order, under
      the id of the message it answers. */
  lemma PublishedKeepIds(messages: seq<Message>, results: seq<HandlerResult>, hex: nat -> string, k: nat)
    requires |results| == |messages| && k < |ToPublish(messages, results, hex, |messages|)|
    ensures var positions := Positions(results, Published, |messages|);
            && |positions| == |ToPublish(messages, results, hex, |messages|)|
            && ToPublish(messages, results, hex, |messages|)[k].id == messages[positions[k]].id
  {
    var i := Positions(results, Published, |messages|)[k];
    PreparedIs(messages[i], results[i].handled.message, hex);
  }

  /** How the inner publisher's answer and the handler failures are reported together. */
  function Merge(inner: Outcome, failed: seq<(Message, ProcessingError)>): (r: Outcome) {
    match inner
    case Refused(error) => Refused(error)
    case Reported(AllAcked) => Reported(SB.FromFailures(failed))
    case Reported(Partial(responses, innerFailed)) => Reported(SB.Partial(responses, failed + innerFailed))
  }

  /** The command publisher's batch send. `published` is what reaches the inner publisher, in one call. */
  method CommandSendBatch(observed: Option<Passthrough>, messages: seq<Message>, results: seq<HandlerResult>,
                          hex: nat -> string, inner: seq<Message> -> Outcome)
    returns (r: Outcome, published: seq<Message>)
    ensures observed == Some(Forward) ==> published == messages && r == inner(messages)
    ensures observed == Some(AckAll) ==> published == [] && r == Reported(SB.AllAcked)
    ensures observed == None && |results| != |messages| ==> published == [] && r == Refused(COUNT_MISMATCH) && r.error.kind == NonRetryable
    ensures observed == None && |results| == |messages| ==>
              var failed := FailedPairs(messages, results, |messages|);
              && published == ToPublish(messages, results, hex, |messages|)
              && r == if published == [] then Reported(SB.FromFailures(failed)) else Merge(inner(published), failed)
    ensures observed == None && |results| == |messages| && published == [] ==>
              && r.Reported? && SB.FailuresIn(r.batch) == FailedPairs(messages, results, |messages|) && SB.ResponsesIn(r.batch) == []
    ensures observed == None && |results| == |messages| && published != [] ==>
              match inner(published)
              case Refused(error) => r == Refused(error)
              case Reported(sent) =>
                && r.Reported?
                && SB.FailuresIn(r.batch) == FailedPairs(messages, results, |messages|) + SB.FailuresIn(sent)
                && SB.ResponsesIn(r.batch) == SB.ResponsesIn(sent)
  {
    published := [];
    if observed.Some? {
      if observed.value.Forward? {
        return inner(messages), messages;
      }
      return Reported(SB.AllAcked), [];
    }
    if |results| != |messages| {
      return Refused(COUNT_MISMATCH), [];
    }
    var failed: seq<(Message, ProcessingError)> := [];
    for k := 0 to |messages|
      invariant published == ToPublish(messages, results, hex, k)
      invariant failed == FailedPairs(messages, results, k)
    {
      match results[k] {
        case Success(Acked) =>
        case Success(Publish(response)) => published := published + [Prepared(messages[k], response, hex)];
        case Failure(error) => failed := failed + [(messages[k], error)];
      }
    }
    if published == [] {
      return Reported(SB.FromFailures(failed)), published;
    }
    match inner(published) {
      case Refused(error) => r := Refused(error);
      case Reported(AllAcked) => r := Reported(SB.FromFailures(failed));
      case Reported(Partial(responses, innerFailed)) => r := Reported(SB.Partial(responses, failed + innerFailed));
    }
  }

  /** The first transient failure at or after `from`, or the batch length. */
  function FirstTransient(results: seq<HandlerResult>, from: nat): (t: nat)
    requires from <= |results|
    ensures from <= t <= |results|
    ensures t < |results| ==> IsTransient(results[t])
    ensures forall i :: from <= i < t ==> !IsTransient(results[i])
    decreases |results| - from
  {
    if from == |results| || IsTransient(results[from]) then from else FirstTransient(results, from + 1)
  }

  /** The positions the event publisher fails: its own failures up to the first transient one, then
      everything from there on. */
  function EventPositions(results: seq<HandlerResult>): (r: seq<nat>) {
    var t := FirstTransient(results, 0);
    Positions(results, Failed, t) + Upwards(t, |results|)
  }

  function Upwards(from: nat, to: nat): (r: seq<nat>)
    requires from <= to
  {
    seq(to - from, i requires 0 <= i => from + i)
  }

  function RemainderReason(kind: ErrorClass): (r: string) {
    if kind.Retryable? then "Batch aborted due to previous error" else "Batch aborted due to previous connection error"
  }

  /** The messages from `from` on, failed for the one before them. */
  function Remainder(messages: seq<Message>, from: nat, kind: ErrorClass): (r: seq<(Message, ProcessingError)>)
    requires from <= |messages|
  {
    seq(|messages| - from, i requires 0 <= i < |messages| - from => (messages[from + i], ProcessingError(kind, RemainderReason(kind))))
  }

  function EventFailures(messages: seq<Message>, results: seq<HandlerResult>): (r: seq<(Message, ProcessingError)>)
    requires |results| == |messages|
  {
    var t := FirstTransient(results, 0);
    FailedPairs(messages, results, t) + FailuresFrom(messages, results, t)
  }

  /** A transient failure at `t` and everything behind it; nothing at the end of the batch. */
  function FailuresFrom(messages: seq<Message>, results: seq<HandlerResult>, t: nat): (r: seq<(Message, ProcessingError)>)
    requires t <= |results| == |messages| && (t < |results| ==> results[t].Failure?)
  {
    if t == |results| then [] else [(messages[t], results[t].error)] + Remainder(messages, t + 1, results[t].error.kind)
  }

  method FailRemainder(messages: seq<Message>, from: nat, kind: ErrorClass) returns (failed: seq<(Message, ProcessingError)>)
    requires from <= |messages|
    ensures failed == Remainder(messages, from, kind)
    ensures |failed| == |messages| - from
    ensures forall k :: 0 <= k < |failed| ==>
              && failed[k].0 == messages[from + k] && failed[k].1.kind == kind
              && failed[k].1.reason == if kind == Retryable then "Batch aborted due to previous error"
                                       else "Batch aborted due to previous connection error"
  {
    failed := [];
    for k := from to |messages|
      invariant failed == Remainder(messages, from, kind)[..k - from]
      invariant forall j :: 0 <= j < |failed| ==> failed[j] == (messages[from + j], ProcessingError(kind, RemainderReason(kind)))
    {
      failed := failed + [(messages[k], ProcessingError(kind, RemainderReason(kind)))];
    }
  }

  method EventSendBatch(observed: bool, messages: seq<Message>, results: seq<HandlerResult>) returns (r: Outcome)
    ensures observed ==> r == Reported(SB.AllAcked)
    ensures !observed && |results| != |messages| ==> r == Refused(COUNT_MISMATCH) && r.error.kind == NonRetryable
    ensures !observed && |results| == |messages| ==> r == Reported(SB.FromFailures(EventFailures(messages, results)))
    ensures !observed && |results| == |messages| ==>
              && r.Reported? && SB.FailuresIn(r.batch) == EventFailures(messages, results) && SB.ResponsesIn(r.batch) == []
              && (r.batch.AllAcked? <==> EventFailures(messages, results) == [])
  {
    if observed {
      return Reported(SB.AllAcked);
    }
    if |results| != |messages| {
      return Refused(COUNT_MISMATCH);
    }
    var failed: seq<(Message, ProcessingError)> := [];
    var k := 0;
    while k < |messages|
      invariant 0 <= k <= |messages|
      invariant failed == FailedPairs(messages, results, k)
      invariant FirstTransient(results, 0) == FirstTransient(results, k)
    {
      FailedSnoc(messages, results, k);
      if IsTransient(results[k]) {
        failed := failed + [(messages[k], results[k].error)];
        var kind := results[k].error.kind;
        var rest := FailRemainder(messages, k + 1, kind);
        failed := failed + rest;
        assert failed == FailedPairs(messages, results, k) + FailuresFrom(messages, results, k);
        return Reported(SB.FromFailures(failed));
      }
      if results[k].Failure? {
        failed := failed + [(messages[k], results[k].error)];
      }
      k := k + 1;
    }
    assert failed == EventFailures(messages, results);
    r := Reported(SB.FromFailures(failed));
  }

  /** The event publisher's failures are the messages at its positions; up to the first transient
      failure with their own errors, from there on with its class. */
  lemma EventFailuresAre(messages: seq<Message>, results: seq<HandlerResult>, k: nat)
    requires |results| == |messages| && k < |EventPositions(results)|
    ensures |EventFailures(messages, results)| == |EventPositions(results)|
    ensures var failure, i, t := EventFailures(messages, results)[k], EventPositions(results)[k], FirstTransient(results, 0);
            && i < |messages| && failure.0 == messages[i]
            && (i <= t ==> results[i] == Failure(failure.1))
            && (i > t ==> t < |results| && failure.1.kind == results[t].error.kind)
  {
    var t := FirstTransient(results, 0);
    var own := Positions(results, Failed, t);
    assert |FailedPairs(messages, results, t)| == |own|;
    if k >= |own| {
      FailuresFromAre(messages, results, t, k - |own|);
      assert EventPositions(results)[k] == t + (k - |own|);
      assert EventFailures(messages, results)[k] == FailuresFrom(messages, results, t)[k - |own|];
    }
  }

  lemma FailuresFromAre(messages: seq<Message>, results: seq<HandlerResult>, t: nat, j: nat)
    requires t + j < |results| == |messages| && results[t].Failure?
    ensures |FailuresFrom(messages, results, t)| == |results| - t
    ensures var failure := FailuresFrom(messages, results, t)[j];
            failure.0 == messages[t + j] && failure.1.kind == results[t].error.kind && (j == 0 ==> failure.1 == results[t].error)
  {
    var rest := Remainder(messages, t + 1, results[t].error.kind);
    if j > 0 {
      assert FailuresFrom(messages, results, t)[j] == rest[j - 1];
    }
  }

  /** Both publishers fail the same positions exactly when nothing after the first transient failure
      succeeded. */
  lemma PublishersAgreeExactly(results: seq<HandlerResult>)
    ensures EventPositions(results) == Positions(results, Failed, |results|)
       <==> forall j :: FirstTransient(results, 0) < j < |results| ==> results[j].Failure?
  {
    var t := FirstTransient(results, 0);
    if forall j :: t < j < |results| ==> results[j].Failure? {
      FailedTail(results, t, |results|);
    } else {
      var j :| t < j < |results| && !results[j].Failure?;
      EventFailsRest(results, j);
      PositionsAre(results, Failed, |results|);
      assert j !in Positions(results, Failed, |results|);
    }
  }

  lemma EventFailsRest(results: seq<HandlerResult>, j: nat)
    requires FirstTransient(results, 0) <= j < |results|
    ensures j in EventPositions(results)
  {
    var t := FirstTransient(results, 0);
    assert EventPositions(results)[|Positions(results, Failed, t)| + (j - t)] == j;
  }

  lemma {:induction false} FailedTail(results: seq<HandlerResult>, t: nat, n: nat)
    requires t <= n <= |results| && forall j :: t <= j < n ==> results[j].Failure?
    ensures Positions(results, Failed, n) == Positions(results, Failed, t) + Upwards(t, n)
  {
    if t < n {
      FailedTail(results, t, n - 1);
    }
  }

  // ---------------------------------------------------------------- publishers with the default handling

  ghost predicate Rising(positions: seq<nat>) {
    forall i, j :: 0 <= i < j < |positions| ==> positions[i] < positions[j]
  }

  /** Where every message of a batch ended up: `acked`, `sent` and `lost` list positions in input order;
      the k-th published message answers the k-th sent position and the k-th failure is the k-th lost
      one's. Every position is in exactly one list, what was acked or published was handled and got that
      very answer, and everything not handled is lost. */
  ghost predicate Accounted(handle: (nat, Message) -> HandlerResult, messages: seq<Message>, hex: nat -> string, calls: nat,
                            published: seq<Message>, failed: seq<(Message, ProcessingError)>,
                            acked: seq<nat>, sent: seq<nat>, lost: seq<nat>)
  {
    && Partitioned(|messages|, calls, acked, sent, lost)
    && AckedAre(handle, messages, calls, acked)
    && SentAre(handle, messages, hex, calls, sent, published)
    && LostAre(handle, messages, calls, lost, failed)
  }

  ghost predicate Partitioned(n: nat, calls: nat, acked: seq<nat>, sent: seq<nat>, lost: seq<nat>) {
    && Rising(acked) && Rising(sent) && Rising(lost)
    && (forall i: nat :: i < n ==> OnlyOne(i in acked, i in sent, i in lost))
    && (forall i: nat :: calls <= i < n ==> i in lost)
  }

  ghost predicate AckedAre(handle: (nat, Message) -> HandlerResult, messages: seq<Message>, calls: nat, acked: seq<nat>) {
    forall k :: 0 <= k < |acked| ==> acked[k] < calls && acked[k] < |messages| && handle(acked[k], messages[acked[k]]) == Success(Acked)
  }

  ghost predicate SentAre(handle: (nat, Message) -> HandlerResult, messages: seq<Message>, hex: nat -> string, calls: nat,
                          sent: seq<nat>, published: seq<Message>)
  {
    && |sent| == |published|
    && forall k :: 0 <= k < |sent| ==> sent[k] < calls && sent[k] < |messages| && Answers(handle, messages, hex, sent[k], published[k])
  }

  ghost predicate LostAre(handle: (nat, Message) -> HandlerResult, messages: seq<Message>, calls: nat,
                          lost: seq<nat>, failed: seq<(Message, ProcessingError)>)
  {
    && |lost| == |failed|
    && forall k :: 0 <= k < |lost| ==>
         && lost[k] < |messages| && failed[k].0 == messages[lost[k]]
         && (lost[k] < calls ==> handle(lost[k], messages[lost[k]]) == Failure(failed[k].1))
  }

  predicate OnlyOne(a: bool, b: bool, c: bool) {
    (a || b || c) && !(a && b) && !(a && c) && !(b && c)
  }

  /** `m` is what the handler's answer to message `i` becomes, under that message's id. */
  predicate Answers(handle: (nat, Message) -> HandlerResult, messages: seq<Message>, hex: nat -> string, i: nat, m: Message)
    requires i < |messages|
  {
    var answer := handle(i, messages[i]);
    && answer.Success? && answer.handled.Publish?
    && m == Prepared(messages[i], answer.handled.message, hex) && m.id == messages[i].id
  }

  /** For every handler and batch the command publisher's outputs account for every message. */
  lemma DefaultAccounts(handle: (nat, Message) -> HandlerResult, messages: seq<Message>, hex: nat -> string)
    ensures var results, n := DefaultResults(handle, messages), |messages|;
            Accounted(handle, messages, hex, Calls(handle, messages, 0), ToPublish(messages, results, hex, n), FailedPairs(messages, results, n),
                      Positions(results, HandlerAcked, n), Positions(results, Published, n), Positions(results, Failed, n))
  {
    var results, n := DefaultResults(handle, messages), |messages|;
    var calls := Calls(handle, messages, 0);
    FatesPartition(results, calls);
    AckedFate(handle, messages, calls, results);
    SentFate(handle, messages, hex, calls, results);
    LostFate(handle, messages, calls, results);
  }

  /** `results` holds the handler's own answers up to `calls` and failures behind. */
  ghost predicate HandledUpTo(handle: (nat, Message) -> HandlerResult, messages: seq<Message>, calls: nat, results: seq<HandlerResult>) {
    && calls <= |results| == |messages|
    && (forall i :: 0 <= i < calls ==> results[i] == handle(i, messages[i]))
    && (forall i :: calls <= i < |results| ==> results[i].Failure?)
  }

  lemma AckedFate(handle: (nat, Message) -> HandlerResult, messages: seq<Message>, calls: nat, results: seq<HandlerResult>)
    requires HandledUpTo(handle, messages, calls, results)
    ensures AckedAre(handle, messages, calls, Positions(results, HandlerAcked, |messages|))
  {
  }

  lemma SentFate(handle: (nat, Message) -> HandlerResult, messages: seq<Message>, hex: nat -> string, calls: nat, results: seq<HandlerResult>)
    requires HandledUpTo(handle, messages, calls, results)
    ensures SentAre(handle, messages, hex, calls, Positions(results, Published, |messages|), ToPublish(messages, results, hex, |messages|))
  {
    forall k | 0 <= k < |Positions(results, Published, |messages|)|
      ensures Answers(handle, messages, hex, Positions(results, Published, |messages|)[k], ToPublish(messages, results, hex, |messages|)[k])
    {
      PublishedKeepIds(messages, results, hex, k);
    }
  }

  lemma LostFate(handle: (nat, Message) -> HandlerResult, messages: seq<Message>, calls: nat, results: seq<HandlerResult>)
    requires HandledUpTo(handle, messages, calls, results)
    ensures LostAre(handle, messages, calls, Positions(results, Failed, |messages|), FailedPairs(messages, results, |messages|))
  {
  }

  lemma FatesPartition(results: seq<HandlerResult>, calls: nat)
    requires forall i :: calls <= i < |results| ==> results[i].Failure?
    ensures Partitioned(|results|, calls, Positions(results, HandlerAcked, |results|), Positions(results, Published, |results|),
                        Positions(results, Failed, |results|))
  {
    PositionsAre(results, HandlerAcked, |results|);
    PositionsAre(results, Published, |results|);
    PositionsAre(results, Failed, |results|);
  }

  /** A batch through the default handling and the command publisher. `acked`, `sent` and `lost` say
      where each message went. */
  method CommandSendDefault(handle: (nat, Message) -> HandlerResult, messages: seq<Message>, hex: nat -> string, inner: seq<Message> -> Outcome)
    returns (r: Outcome, published: seq<Message>, calls: nat)
    ensures calls == Calls(handle, messages, 0)
    ensures var results, n := DefaultResults(handle, messages), |messages|;
            var failed := FailedPairs(messages, results, n);
            && Accounted(handle, messages, hex, calls, published, failed,
                         Positions(results, HandlerAcked, n), Positions(results, Published, n), Positions(results, Failed, n))
            && r == (if published == [] then Reported(SB.FromFailures(failed)) else Merge(inner(published), failed))
            && (published == [] ==> r.Reported? && SB.FailuresIn(r.batch) == failed && SB.ResponsesIn(r.batch) == [])
            && (published != [] && r.Reported? ==>
                  && inner(published).Reported?
                  && SB.FailuresIn(r.batch) == failed + SB.FailuresIn(inner(published).batch)
                  && SB.ResponsesIn(r.batch) == SB.ResponsesIn(inner(published).batch))
            && (r.Refused? ==> published != [] && inner(published) == r)
  {
    var results;
    results, calls := HandleMany(handle, messages);
    r, published := CommandSendBatch(None, messages, results, hex, inner);
    DefaultAccounts(handle, messages, hex);
  }

  predicate SameFailure(a: (Message, ProcessingError), b: (Message, ProcessingError)) {
    a.0 == b.0 && a.1.kind == b.1.kind
  }

  /** With the default handling both publishers fail the same messages, in the same order and with the
      same class of error. */
  lemma DefaultHandlingAgrees(handle: (nat, Message) -> HandlerResult, messages: seq<Message>)
    ensures var results := DefaultResults(handle, messages);
            var event, command := EventFailures(messages, results), FailedPairs(messages, results, |messages|);
            && EventPositions(results) == Positions(results, Failed, |messages|)
            && |event| == |command|
            && forall k :: 0 <= k < |event| ==> SameFailure(event[k], command[k])
  {
    var results := DefaultResults(handle, messages);
    DefaultAbortsTogether(handle, messages);
    PublishersAgreeExactly(results);
    if EventPositions(results) == [] {
      assert EventFailures(messages, results) == [];
    }
    forall k | 0 <= k < |EventPositions(results)|
      ensures |EventFailures(messages, results)| == |EventPositions(results)|
      ensures SameFailure(EventFailures(messages, results)[k], FailedPairs(messages, results, |messages|)[k])
    {
      EventFailuresAre(messages, results, k);
    }
  }
}
