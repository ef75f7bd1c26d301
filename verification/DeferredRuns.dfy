/** Whole runs of a reader with deferred commits in front of an ordered route
    (`src/middleware/deferred_commit.rs`, driven as `src/middleware/filter.rs` and
    `src/middleware/deduplication.rs` drive it). The reader and the route's commit sequencer
    interleave at every commit call. A delivery may collect several source batches and is counted
    only when it is handed to the route. */
module DeferredRuns {
  import opened Messages
  import opened DeferredCommits

  datatype Caller = IdleDrain | Route | DrainFlush | Inline

  /** One commit still to run: of a retained source batch, or a held one of an emptied batch. */
  datatype Item = Own(read: nat) | Kept(entry: Held)

  /** A delivery's commit in the sequencer: what it still has to run, in order, and the retained
      source batches it stands for. */
  datatype Delivery = Delivery(id: nat, work: seq<Item>, own: set<nat>)

  /** `Loaded` is inside `hold` after the in-flight counter was read; `Draining` is its drain loop;
      `Flushing` runs the held commits on the empty batch that ends a drain. */
  datatype Reader = Ready | Loaded(entry: Held, idle: bool) | Draining | Flushing(queue: seq<Held>)

  /** What was the case when a commit was called: everything read and still to be committed, the part
      of it handed to the route, the part collected and not counted yet; retained batches not settled
      and those lost with a failed receive; and whether some commit had failed or never run. */
  datatype Moment = Moment(
    waiting: set<nat>, handed: set<nat>, uncounted: set<nat>, unsettled: set<nat>, lost: set<nat>, failed: bool)

  /** A commit call as the source sees it. */
  datatype SourceCall = SourceCall(caller: Caller, read: nat, dispositions: seq<Disposition>, ok: bool, at: Moment)

  /** The last six fields are bookkeeping; `open` maps the counted, unsettled deliveries to their reads. */
  datatype State = State(
    nextRead: nat,
    reader: Reader,
    collected: seq<Item>,
    held: seq<Held>,
    inFlight: nat,
    route: seq<Delivery>,
    nextDelivery: nat,
    calls: seq<SourceCall>,
    failed: bool,
    retained: set<nat>,
    settled: set<nat>,
    lost: set<nat>,
    open: map<nat, set<nat>>,
    replies: map<nat, seq<Disposition>>)

  const INITIAL := State(0, Ready, [], [], 0, [], 0, [], false, {}, {}, {}, map[], map[])

  datatype Action =
    | ReadEmptied(emptied: Emptied)
    | PushHeld
    | DrainStep(ok: bool)
    | Collect                                   // a source batch with something kept: takes what is held
    | Deliver(drained: bool)                    // count and hand over; `drained`: an empty batch ended the collecting
    | DropCollected                             // the receive fails after it collected something
    | RouteStep(ok: bool, dispositions: seq<Disposition>)
    | Abandon                                   // the head commit fails before it calls anything, or never runs
    | StartFlush
    | FlushStep(ok: bool)
    | CommitInline(dispositions: seq<Disposition>, ok: bool)  // a duplicate of a single receive, not deferred

  /** What keeps the order: no idle counter is read with a collected batch uncounted, and a flush or an
      inline commit starts only with nothing in flight or held. */
  datatype Premises = Premises(counted: bool, flushIdle: bool, inlineIdle: bool)

  const ALL := Premises(true, true, true)
  const NONE := Premises(false, false, false)

  predicate Enabled(p: Premises, s: State, a: Action) {
    match a
    case ReadEmptied(_) => s.reader.Ready? && (p.counted && s.inFlight == 0 ==> s.collected == [])
    case PushHeld => s.reader.Loaded?
    case DrainStep(_) => s.reader.Draining?
    case Collect => s.reader.Ready?
    case Deliver(_) => s.reader.Ready? && s.collected != []
    case DropCollected => s.reader.Ready? && s.collected != []
    case RouteStep(_, _) => s.route != []
    case Abandon => s.route != []
    case StartFlush => s.reader.Ready? && s.collected == [] && (p.flushIdle ==> s.inFlight == 0)
    case FlushStep(_) => s.reader.Flushing?
    case CommitInline(_, _) => s.reader.Ready? && (p.inlineIdle ==> s.inFlight == 0 && s.held == [] && s.collected == [])
  }

  function ReadOf(item: Item): (r: nat) {
    match item
    case Own(read) => read
    case Kept(entry) => entry.read
  }

  function Items(queue: seq<Held>): (r: seq<Item>) {
    seq(|queue|, i requires 0 <= i < |queue| => Kept(queue[i]))
  }

  function ItemReads(items: seq<Item>): (r: seq<nat>) {
    seq(|items|, i requires 0 <= i < |items| => ReadOf(items[i]))
  }

  function ReadSet(items: seq<Item>): (r: set<nat>) {
    set item | item in items :: ReadOf(item)
  }

  function Owns(items: seq<Item>): (r: set<nat>) {
    set item | item in items && item.Own? :: item.read
  }

  function CalledReads(calls: seq<SourceCall>): (r: seq<nat>) {
    seq(|calls|, i requires 0 <= i < |calls| => calls[i].read)
  }

  function RouteItems(route: seq<Delivery>): (r: seq<Item>) {
    if route == [] then [] else route[0].work + RouteItems(route[1..])
  }

  /** Commits handed to the route or collected for it. */
  function Handed(s: State): (r: seq<Item>) {
    RouteItems(s.route) + s.collected
  }

  /** Commits of emptied batches behind them. */
  function QueuedEntries(s: State): (r: seq<Held>) {
    match s.reader
    case Flushing(queue) => queue + s.held
    case Loaded(entry, _) => s.held + [entry]
    case _ => s.held
  }

  /** Everything still to be committed, in the order it was read. */
  function Line(s: State): (r: seq<Item>) {
    Handed(s) + Items(QueuedEntries(s))
  }

  function Now(s: State): (m: Moment)
    ensures forall r :: r in s.retained ==> r in s.settled || r in m.unsettled
    ensures m.lost == s.lost && m.failed == s.failed
  {
    var uncalled := set r | r in s.retained && r !in CalledReads(s.calls);
    Moment(uncalled + ReadSet(Line(s)), ReadSet(Handed(s)), ReadSet(s.collected), s.retained - s.settled, s.lost, s.failed)
  }

  function CallSource(s: State, caller: Caller, read: nat, dispositions: seq<Disposition>, ok: bool): (s': State) {
    s.(calls := s.calls + [SourceCall(caller, read, dispositions, ok, Now(s))], failed := s.failed || !ok)
  }

  function CallHeld(s: State, caller: Caller, entry: Held, ok: bool): (s': State) {
    CallSource(s, caller, entry.read, Dispositions(entry.emptied), ok)
  }

  function ItemDispositions(item: Item, own: seq<Disposition>): (r: seq<Disposition>) {
    match item
    case Own(_) => own
    case Kept(entry) => Dispositions(entry.emptied)
  }

  /** The next sub-step of the commit at the head of the sequencer. A failure ends that commit, drops
      what it still had to run and leaves its delivery counted. */
  function NextRoute(s: State, ok: bool, dispositions: seq<Disposition>): (s': State)
    requires s.route != []
  {
    var head := s.route[0];
    if head.work == [] then
      s.(inFlight := if s.inFlight > 0 then s.inFlight - 1 else 0,
         settled := s.settled + head.own,
         open := s.open - {head.id},
         route := s.route[1..])
    else
      var item := head.work[0];
      CallSource(s, Route, ReadOf(item), ItemDispositions(item, dispositions), ok).(
        route := if ok then [head.(work := head.work[1..])] + s.route[1..] else s.route[1..])
  }

  function Next(p: Premises, s: State, a: Action): (s': State)
    requires Enabled(p, s, a)
  {
    match a
    case ReadEmptied(emptied) =>
      s.(reader := Loaded(Held(s.nextRead, emptied), s.inFlight == 0),
         nextRead := s.nextRead + 1,
         replies := if emptied.Settled? then s.replies[s.nextRead := emptied.dispositions] else s.replies)
    case PushHeld =>
      if s.reader.idle
      then s.(held := s.held + [s.reader.entry], reader := Draining)
      else s.(held := Push(s.held, s.reader.entry), reader := Ready)
    case DrainStep(ok) =>
      if s.held == [] then s.(reader := Ready)
      else CallHeld(s, IdleDrain, s.held[0], ok).(held := s.held[1..], reader := if ok then Draining else Ready)
    case Collect =>
      s.(collected := s.collected + Items(s.held) + [Own(s.nextRead)],
         held := [],
         nextRead := s.nextRead + 1,
         retained := s.retained + {s.nextRead})
    case Deliver(drained) =>
      var own := Owns(s.collected);
      s.(route := s.route + [Delivery(s.nextDelivery, s.collected + if drained then Items(s.held) else [], own)],
         collected := [],
         held := if drained then [] else s.held,
         inFlight := s.inFlight + 1,
         nextDelivery := s.nextDelivery + 1,
         open := s.open[s.nextDelivery := own])
    case DropCollected => s.(collected := [], failed := true, lost := s.lost + Owns(s.collected))
    case RouteStep(ok, dispositions) => NextRoute(s, ok, dispositions)
    case Abandon => s.(route := s.route[1..], failed := true)
    case StartFlush => s.(reader := Flushing(s.held), held := [])
    case FlushStep(ok) =>
      var queue := s.reader.queue;
      if queue == [] then s.(reader := Ready)
      else CallHeld(s, DrainFlush, queue[0], ok).(reader := if ok then Flushing(queue[1..]) else Ready)
    case CommitInline(dispositions, ok) =>
      CallSource(s, Inline, s.nextRead, dispositions, ok).(nextRead := s.nextRead + 1)
  }

  predicate Legal(p: Premises, s: State, actions: seq<Action>)
    decreases |actions|
  {
    actions == [] || (Enabled(p, s, actions[0]) && Legal(p, Next(p, s, actions[0]), actions[1..]))
  }

  function Run(p: Premises, s: State, actions: seq<Action>): (s': State)
    requires Legal(p, s, actions)
    decreases |actions|
  {
    if actions == [] then s else Run(p, Next(p, s, actions[0]), actions[1..])
  }

  // ---------------------------------------------------------------- the order the source sees

  /** Call `i` is the largest read so far, and no batch read earlier is still to be committed. */
  ghost predicate InOrder(calls: seq<SourceCall>, i: nat)
    requires i < |calls|
  {
    && (forall j :: 0 <= j < i ==> calls[j].read < calls[i].read)
    && (forall r :: r in calls[i].at.waiting ==> r >= calls[i].read)
  }

  /** What decides whether a call is in order: nothing for the route; for an idle drain, that no batch
      is collected and uncounted; for a flush, that the route has nothing left to run; for an inline
      commit, that nothing at all is left to run. */
  predicate Clean(call: SourceCall) {
    match call.caller
    case Route => true
    case IdleDrain => call.at.uncounted == {}
    case DrainFlush => call.at.handed == {}
    case Inline => call.at.waiting == {}
  }

  /** Nothing failed and nothing was out of order before call `i`. */
  ghost predicate GoodAt(calls: seq<SourceCall>, i: nat)
    requires i < |calls|
  {
    !calls[i].at.failed && forall j :: 0 <= j < i ==> InOrder(calls, j)
  }

  ghost predicate Good(s: State) {
    !s.failed && forall j :: 0 <= j < |s.calls| ==> InOrder(s.calls, j)
  }

  ghost predicate Exact(calls: seq<SourceCall>) {
    forall i :: 0 <= i < |calls| && GoodAt(calls, i) ==> (InOrder(calls, i) <==> Clean(calls[i]))
  }

  /** Once something failed, every later call knows. */
  ghost predicate FailureMarked(s: State) {
    && (forall i :: 0 <= i < |s.calls| && s.calls[i].at.failed ==> s.failed)
    && (forall i, j :: 0 <= i < j < |s.calls| && s.calls[i].at.failed ==> s.calls[j].at.failed)
  }

  function Whole(s: State): (r: seq<nat>) {
    CalledReads(s.calls) + ItemReads(Line(s))
  }

  ghost predicate Replied(calls: seq<SourceCall>, read: nat, dispositions: seq<Disposition>) {
    exists i :: 0 <= i < |calls| && calls[i].read == read && calls[i].dispositions == dispositions
  }

  /** The reply went to the source with its dispositions, or a commit carrying them is still to run. */
  ghost predicate Answered(calls: seq<SourceCall>, line: seq<Item>, read: nat, dispositions: seq<Disposition>) {
    Replied(calls, read, dispositions) || Kept(Held(read, Settled(dispositions))) in line
  }

  /** Called reads followed by what is still to be committed are in read order, and no retained batch
      and no reply got lost. */
  ghost predicate Sequenced(s: State) {
    && Increasing(Whole(s))
    && (forall r :: r in Whole(s) ==> r < s.nextRead)
    && (forall r :: r in s.retained ==> r in CalledReads(s.calls) || Own(r) in Line(s))
    && (forall r :: r in s.replies ==> r < s.nextRead && Answered(s.calls, Line(s), r, s.replies[r]))
  }

  predicate SawIdle(reader: Reader) {
    reader.Draining? || (reader.Loaded? && reader.idle)
  }

  ghost predicate Shaped(s: State) {
    && s.inFlight == |s.route|
    && (SawIdle(s.reader) ==> s.route == [])
    && (s.reader.Flushing? ==> s.collected == [])
    && (!s.reader.Draining? ==> Bounded(s.held))
  }

  ghost predicate OrderInv(s: State) {
    Sequenced(s) && Shaped(s)
  }

  /** What the premises add. */
  ghost predicate PremiseInv(p: Premises, s: State) {
    && (p.counted && SawIdle(s.reader) ==> s.collected == [])
    && (p.flushIdle && Good(s) && s.reader.Flushing? ==> s.route == [])
    && (forall i :: 0 <= i < |s.calls| && GoodAt(s.calls, i) ==> PremiseClean(p, s.calls[i]))
  }

  ghost predicate PremiseClean(p: Premises, call: SourceCall) {
    && (p.counted && call.caller.IdleDrain? ==> Clean(call))
    && (p.flushIdle && call.caller.DrainFlush? ==> Clean(call))
    && (p.inlineIdle && call.caller.Inline? ==> Clean(call))
  }

  ghost predicate Inv(p: Premises, s: State) {
    Exact(s.calls) && FailureMarked(s) && (Good(s) ==> OrderInv(s)) && PremiseInv(p, s)
  }

  // ---------------------------------------------------------------- one more call

  lemma PrefixCalls(calls: seq<SourceCall>, last: SourceCall, i: nat)
    requires i < |calls|
    ensures InOrder(calls + [last], i) == InOrder(calls, i)
    ensures GoodAt(calls + [last], i) == GoodAt(calls, i)
  {
    var more := calls + [last];
    assert forall j :: 0 <= j <= i ==> more[j] == calls[j];
    assert forall j :: 0 <= j <= i ==> InOrder(more, j) == InOrder(calls, j);
  }

  /** A call is good when the state it was made from was. */
  lemma LastCall(s: State, last: SourceCall)
    requires last.at == Now(s)
    ensures GoodAt(s.calls + [last], |s.calls|) == Good(s)
  {
    forall i | 0 <= i < |s.calls| ensures InOrder(s.calls + [last], i) == InOrder(s.calls, i) {
      PrefixCalls(s.calls, last, i);
    }
  }

  lemma CallKeepsCalls(p: Premises, s: State, s': State, last: SourceCall)
    requires Exact(s.calls) && FailureMarked(s) && last.at == Now(s)
    requires forall i :: 0 <= i < |s.calls| && GoodAt(s.calls, i) ==> PremiseClean(p, s.calls[i])
    requires s'.calls == s.calls + [last] && s'.failed == (s.failed || !last.ok)
    requires Good(s) ==> PremiseClean(p, last) && (InOrder(s'.calls, |s.calls|) <==> Clean(last))
    ensures Exact(s'.calls) && FailureMarked(s')
    ensures forall i :: 0 <= i < |s'.calls| && GoodAt(s'.calls, i) ==> PremiseClean(p, s'.calls[i])
    ensures Good(s') ==> Good(s) && last.ok && InOrder(s'.calls, |s.calls|)
  {
    LastCall(s, last);
    var n := |s.calls|;
    assert s'.calls[n] == last;
    forall i | 0 <= i <= n && GoodAt(s'.calls, i) ensures PremiseClean(p, s'.calls[i]) && (InOrder(s'.calls, i) <==> Clean(s'.calls[i])) {
      if i < n { PrefixCalls(s.calls, last, i); }
    }
    if Good(s') {
      assert InOrder(s'.calls, n);
      forall i | 0 <= i < n ensures InOrder(s.calls, i) { PrefixCalls(s.calls, last, i); }
    }
  }

  lemma ReadsSplit(a: seq<Item>, b: seq<Item>)
    ensures ItemReads(a + b) == ItemReads(a) + ItemReads(b)
  {
  }

  /** Whatever is called next from the front of the line is in order. */
  lemma HeadCallInOrder(s: State, last: SourceCall, item: Item, rest: seq<Item>)
    requires Sequenced(s) && Line(s) == [item] + rest && last.at == Now(s) && last.read == ReadOf(item)
    ensures InOrder(s.calls + [last], |s.calls|)
  {
    var n, called, all := |s.calls|, CalledReads(s.calls), Whole(s);
    assert all[n] == last.read;
    forall j | 0 <= j < n ensures s.calls[j].read < last.read {
      assert all[j] == called[j];
    }
    forall r | r in last.at.waiting ensures r >= last.read {
      WaitingIsInLine(s, r);
      var k :| 0 <= k < |Line(s)| && ReadOf(Line(s)[k]) == r;
      assert all[n + k] == r;
    }
  }

  /** Nothing waits that is not in the line. */
  lemma WaitingIsInLine(s: State, r: nat)
    requires Sequenced(s) && r in Now(s).waiting
    ensures exists k :: 0 <= k < |Line(s)| && ReadOf(Line(s)[k]) == r
  {
    assert Own(r) in Line(s) ==> ReadOf(Own(r)) in ReadSet(Line(s));
    var item :| item in Line(s) && ReadOf(item) == r;
    var k :| 0 <= k < |Line(s)| && Line(s)[k] == item;
  }

  lemma LineWaits(s: State)
    ensures Line(s) == [] || Now(s).waiting != {}
  {
    if Line(s) != [] {
      assert Line(s)[0] in Line(s) && ReadOf(Line(s)[0]) in Now(s).waiting;
    }
  }

  /** A call from behind the handed commits overtakes every one of them. */
  lemma LaterCallOvertakes(s: State, last: SourceCall, k: nat)
    requires Sequenced(s) && 0 < k < |Line(s)| && last.at == Now(s) && last.read == ReadOf(Line(s)[k])
    ensures !InOrder(s.calls + [last], |s.calls|)
  {
    var n, all := |s.calls|, Whole(s);
    assert all[n] == ReadOf(Line(s)[0]) && all[n + k] == last.read;
    assert Line(s)[0] in Line(s) && ReadOf(Line(s)[0]) in last.at.waiting;
    assert (s.calls + [last])[n] == last;
  }

  /** So a held commit called by the reader is in order exactly when nothing is handed. */
  lemma QueuedCallInOrder(s: State, last: SourceCall)
    requires Sequenced(s) && QueuedEntries(s) != [] && last.at == Now(s) && last.read == QueuedEntries(s)[0].read
    ensures InOrder(s.calls + [last], |s.calls|) <==> Handed(s) == []
    ensures Handed(s) == [] <==> last.at.handed == {}
  {
    var k := |Handed(s)|;
    assert Line(s)[k] == Kept(QueuedEntries(s)[0]);
    if k == 0 {
      assert Line(s) == [Line(s)[0]] + Line(s)[1..];
      HeadCallInOrder(s, last, Line(s)[0], Line(s)[1..]);
    } else {
      assert Handed(s)[0] in Handed(s) && ReadOf(Handed(s)[0]) in last.at.handed;
      LaterCallOvertakes(s, last, k);
    }
  }

  /** A call of something just read overtakes whatever waits. */
  lemma FreshCallInOrder(s: State, last: SourceCall)
    requires Sequenced(s) && last.at == Now(s) && last.read == s.nextRead
    ensures InOrder(s.calls + [last], |s.calls|) <==> last.at.waiting == {}
  {
    var n, called, all := |s.calls|, CalledReads(s.calls), Whole(s);
    assert (s.calls + [last])[n] == last;
    forall j | 0 <= j < n ensures (s.calls + [last])[j].read < last.read {
      assert all[j] == called[j] && all[j] in all;
    }
    forall r | r in last.at.waiting ensures r < last.read {
      WaitingIsInLine(s, r);
      var k :| 0 <= k < |Line(s)| && ReadOf(Line(s)[k]) == r;
      assert all[n + k] == r && r in all;
    }
  }

  // ---------------------------------------------------------------- how the line moves

  lemma AnsweredStays(calls: seq<SourceCall>, calls': seq<SourceCall>, line: seq<Item>, line': seq<Item>, read: nat, dispositions: seq<Disposition>)
    requires Answered(calls, line, read, dispositions) && calls <= calls'
    requires Kept(Held(read, Settled(dispositions))) in line ==> Answered(calls', line', read, dispositions)
    ensures Answered(calls', line', read, dispositions)
  {
    if Replied(calls, read, dispositions) {
      var i :| 0 <= i < |calls| && calls[i].read == read && calls[i].dispositions == dispositions;
      assert calls'[i] == calls[i];
    }
  }

  /** The front of the line is called. */
  lemma MoveKeepsSequenced(s: State, s': State, item: Item, last: SourceCall)
    requires Sequenced(s) && Line(s) == [item] + Line(s')
    requires s'.calls == s.calls + [last] && last.read == ReadOf(item)
    requires item.Kept? ==> last.dispositions == Dispositions(item.entry.emptied)
    requires s'.nextRead == s.nextRead && s'.retained == s.retained && s'.replies == s.replies
    ensures Sequenced(s')
  {
    MoveKeepsWhole(s, s', item, last);
    assert s'.calls[|s.calls|] == last;
    forall r | r in s.retained ensures r in CalledReads(s'.calls) || Own(r) in Line(s') {
      if r in CalledReads(s.calls) {
        var i :| 0 <= i < |s.calls| && CalledReads(s.calls)[i] == r;
        assert CalledReads(s'.calls)[i] == r;
      } else if Own(r) == item {
        assert CalledReads(s'.calls)[|s.calls|] == r;
      }
    }
    forall r | r in s.replies ensures Answered(s'.calls, Line(s'), r, s.replies[r]) {
      AnsweredStays(s.calls, s'.calls, Line(s), Line(s'), r, s.replies[r]);
    }
  }

  lemma MoveKeepsWhole(s: State, s': State, item: Item, last: SourceCall)
    requires Line(s) == [item] + Line(s') && s'.calls == s.calls + [last] && last.read == ReadOf(item)
    ensures Whole(s') == Whole(s)
  {
    assert CalledReads(s'.calls) == CalledReads(s.calls) + [last.read];
    ReadsSplit([item], Line(s'));
    assert ItemReads([item]) == [last.read];
    assert (CalledReads(s.calls) + [last.read]) + ItemReads(Line(s')) == CalledReads(s.calls) + ([last.read] + ItemReads(Line(s')));
  }

  /** Work changes hands and keeps its place. */
  lemma SameLineKeepsSequenced(s: State, s': State)
    requires Sequenced(s) && Line(s') == Line(s) && s'.calls == s.calls
    requires s'.nextRead == s.nextRead && s'.retained == s.retained && s'.replies == s.replies
    ensures Sequenced(s')
  {
  }

  /** A newly read batch joins the end of the line. */
  lemma NewItemKeepsSequenced(s: State, s': State, item: Item)
    requires Sequenced(s) && Line(s') == Line(s) + [item] && s'.calls == s.calls
    requires ReadOf(item) == s.nextRead && s'.nextRead == s.nextRead + 1
    requires s'.retained == (if item.Own? then s.retained + {s.nextRead} else s.retained)
    requires s'.replies == if item.Kept? && item.entry.emptied.Settled? then s.replies[s.nextRead := item.entry.emptied.dispositions] else s.replies
    ensures Sequenced(s')
  {
    ReadsSplit(Line(s), [item]);
    assert ItemReads([item]) == [s.nextRead];
    assert Whole(s') == Whole(s) + [s.nextRead];
    FreshReadKeepsIncreasing(Whole(s), s.nextRead);
    assert Line(s')[|Line(s)|] == item;
    forall r | r in s'.replies ensures r < s'.nextRead && Answered(s'.calls, Line(s'), r, s'.replies[r]) {
      if r != s.nextRead {
        AnsweredStays(s.calls, s'.calls, Line(s), Line(s'), r, s.replies[r]);
      }
    }
  }

  /** Appending a fresh, largest read keeps the sequence increasing. */
  lemma FreshReadKeepsIncreasing(all: seq<nat>, next: nat)
    requires Increasing(all) && forall r :: r in all ==> r < next
    ensures Increasing(all + [next])
  {
    forall i, j | 0 <= i < j < |all + [next]| ensures (all + [next])[i] < (all + [next])[j] {
      assert all[i] in all;
    }
  }

  /** A plain ack leaves the line. */
  lemma EvictionKeepsSequenced(s: State, s': State, left: seq<Item>, gone: Item, right: seq<Item>)
    requires Sequenced(s) && Line(s) == left + [gone] + right && Line(s') == left + right
    requires gone.Kept? && gone.entry.emptied.Acked?
    requires s'.calls == s.calls && s'.nextRead == s.nextRead && s'.retained == s.retained && s'.replies == s.replies
    ensures Sequenced(s')
  {
    EvictionShrinksWhole(CalledReads(s.calls), left, gone, right);
    forall q | q in s.replies ensures Answered(s'.calls, Line(s'), q, s.replies[q]) {
      AnsweredStays(s.calls, s'.calls, Line(s), Line(s'), q, s.replies[q]);
    }
  }

  lemma EvictionShrinksWhole(called: seq<nat>, left: seq<Item>, gone: Item, right: seq<Item>)
    requires Increasing(called + ItemReads(left + [gone] + right))
    ensures Increasing(called + ItemReads(left + right))
    ensures forall r :: r in called + ItemReads(left + right) ==> r in called + ItemReads(left + [gone] + right)
  {
    ReadsSplit(left + [gone], right);
    ReadsSplit(left, [gone]);
    ReadsSplit(left, right);
    var l, x, r := called + ItemReads(left), ReadOf(gone), ItemReads(right);
    assert ItemReads([gone]) == [x];
    assert called + (ItemReads(left) + [x] + r) == l + [x] + r;
    assert called + (ItemReads(left) + r) == l + r;
    RemovalKeepsIncreasing(l, x, r);
  }

  lemma RemovalKeepsIncreasing(left: seq<nat>, x: nat, right: seq<nat>)
    requires Increasing(left + [x] + right)
    ensures Increasing(left + right)
    ensures forall r :: r in left + right ==> r in left + [x] + right
  {
    var big, small := left + [x] + right, left + right;
    forall i | 0 <= i < |small| ensures small[i] == big[if i < |left| then i else i + 1] { }
  }

  // ---------------------------------------------------------------- the line after each step

  lemma {:induction false} RouteItemsSnoc(route: seq<Delivery>, last: Delivery)
    ensures RouteItems(route + [last]) == RouteItems(route) + last.work
  {
    if route == [] {
      assert route + [last] == [last] && last.work + RouteItems([last][1..]) == last.work;
    } else {
      assert (route + [last])[1..] == route[1..] + [last];
      RouteItemsSnoc(route[1..], last);
    }
  }

  lemma ItemsSplit(a: seq<Held>, b: seq<Held>)
    ensures Items(a + b) == Items(a) + Items(b)
  {
  }

  lemma EmptiedLine(s: State, s': State, entry: Held)
    requires s.reader.Ready? && s'.reader.Loaded? && s'.reader.entry == entry
    requires s'.route == s.route && s'.collected == s.collected && s'.held == s.held
    ensures Line(s') == Line(s) + [Kept(entry)]
  {
    ItemsSplit(s.held, [entry]);
    assert Items([entry]) == [Kept(entry)];
  }

  lemma CollectLine(s: State, s': State)
    requires s.reader.Ready? && s'.reader == s.reader && s'.route == s.route && s'.held == []
    requires s'.collected == s.collected + Items(s.held) + [Own(s.nextRead)]
    ensures Line(s') == Line(s) + [Own(s.nextRead)]
  {
    assert Items([]) == [];
  }

  lemma DeliverLine(s: State, s': State, d: Delivery, drained: bool)
    requires s.reader.Ready? && s'.reader == s.reader && s'.collected == []
    requires s'.route == s.route + [d] && d.work == s.collected + if drained then Items(s.held) else []
    requires s'.held == if drained then [] else s.held
    ensures Line(s') == Line(s)
  {
    RouteItemsSnoc(s.route, d);
    assert Items([]) == [];
  }

  lemma {:induction false} RouteCallLine(s: State, s': State)
    requires s.route != [] && s.route[0].work != []
    requires s'.route == [s.route[0].(work := s.route[0].work[1..])] + s.route[1..]
    requires s'.collected == s.collected && s'.reader == s.reader && s'.held == s.held
    ensures Line(s) == [s.route[0].work[0]] + Line(s')
  {
    var work, tail := s.route[0].work, RouteItems(s.route[1..]);
    assert s'.route[1..] == s.route[1..];
    assert RouteItems(s'.route) == work[1..] + tail;
    assert work == [work[0]] + work[1..];
    LineCons(work[0], work[1..], tail, s.collected, Items(QueuedEntries(s)));
  }

  lemma LineCons(x: Item, work: seq<Item>, tail: seq<Item>, collected: seq<Item>, queued: seq<Item>)
    ensures [x] + work + tail + collected + queued == [x] + (work + tail + collected + queued)
  {
  }

  lemma {:induction false} SettleLine(s: State, s': State)
    requires s.route != [] && s.route[0].work == [] && s'.route == s.route[1..]
    requires s'.collected == s.collected && s'.reader == s.reader && s'.held == s.held
    ensures Line(s') == Line(s)
  {
    assert s.route[0].work + RouteItems(s.route[1..]) == RouteItems(s.route[1..]);
  }

  lemma QueueCallLine(s: State, s': State)
    requires Handed(s) == [] && Handed(s') == [] && QueuedEntries(s) != [] && QueuedEntries(s') == QueuedEntries(s)[1..]
    ensures Line(s) == [Kept(QueuedEntries(s)[0])] + Line(s')
  {
  }

  // ---------------------------------------------------------------- every step

  lemma QuietStepKeepsInv(p: Premises, s: State, s': State)
    requires Inv(p, s) && s'.calls == s.calls && s'.failed == s.failed
    requires Good(s) ==> OrderInv(s')
    requires p.counted && SawIdle(s'.reader) ==> s'.collected == []
    requires p.flushIdle && Good(s) && s'.reader.Flushing? ==> s'.route == []
    ensures Inv(p, s')
  {
  }

  lemma FailedStepKeepsInv(p: Premises, s: State, s': State)
    requires Inv(p, s) && s'.calls == s.calls && s'.failed
    requires p.counted && SawIdle(s'.reader) ==> s'.collected == []
    ensures Inv(p, s')
  {
  }

  lemma ReadEmptiedKeepsInv(p: Premises, s: State, emptied: Emptied)
    requires Inv(p, s) && Enabled(p, s, ReadEmptied(emptied))
    ensures Inv(p, Next(p, s, ReadEmptied(emptied)))
  {
    var s' := Next(p, s, ReadEmptied(emptied));
    if Good(s) {
      var entry := Held(s.nextRead, emptied);
      EmptiedLine(s, s', entry);
      NewItemKeepsSequenced(s, s', Kept(entry));
    }
    QuietStepKeepsInv(p, s, s');
  }

  lemma PushHeldKeepsInv(p: Premises, s: State)
    requires Inv(p, s) && s.reader.Loaded?
    ensures Inv(p, Next(p, s, PushHeld))
  {
    var s' := Next(p, s, PushHeld);
    if Good(s) {
      if !s.reader.idle {
        PushKeepsBound(s.held, s.reader.entry);
      }
      PushKeepsSequenced(s, s');
    }
    QuietStepKeepsInv(p, s, s');
  }

  lemma PushKeepsSequenced(s: State, s': State)
    requires Sequenced(s) && s.reader.Loaded? && s'.reader == (if s.reader.idle then Draining else Ready)
    requires s'.held == if s.reader.idle then s.held + [s.reader.entry] else Push(s.held, s.reader.entry)
    requires s'.route == s.route && s'.collected == s.collected && s'.calls == s.calls
    requires s'.nextRead == s.nextRead && s'.retained == s.retained && s'.replies == s.replies
    ensures Sequenced(s')
  {
    var k, held, entry := OldestAck(s.held), s.held, s.reader.entry;
    if s.reader.idle || |held| < MAX_DEFERRED_COMMITS || k == |held| {
      assert QueuedEntries(s') == QueuedEntries(s);
      SameLineKeepsSequenced(s, s');
    } else {
      var left, right := Items(held[..k]), Items(held[k + 1..] + [entry]);
      ItemsAround(held, entry, k);
      LineAround(Handed(s), left, Kept(held[k]), right);
      EvictionKeepsSequenced(s, s', Handed(s) + left, Kept(held[k]), right);
    }
  }

  lemma ItemsAround(held: seq<Held>, entry: Held, k: nat)
    requires k < |held|
    ensures Items(held + [entry]) == Items(held[..k]) + [Kept(held[k])] + Items(held[k + 1..] + [entry])
    ensures Items(held[..k] + held[k + 1..] + [entry]) == Items(held[..k]) + Items(held[k + 1..] + [entry])
  {
    assert held[..k] + held[k + 1..] + [entry] == held[..k] + (held[k + 1..] + [entry]);
    ItemsSplit(held[..k], held[k + 1..] + [entry]);
  }

  lemma LineAround(front: seq<Item>, left: seq<Item>, gone: Item, right: seq<Item>)
    ensures front + (left + [gone] + right) == (front + left) + [gone] + right
    ensures front + (left + right) == (front + left) + right
  {
  }

  lemma CollectKeepsInv(p: Premises, s: State)
    requires Inv(p, s) && s.reader.Ready?
    ensures Inv(p, Next(p, s, Collect))
  {
    var s' := Next(p, s, Collect);
    if Good(s) {
      CollectLine(s, s');
      NewItemKeepsSequenced(s, s', Own(s.nextRead));
    }
    QuietStepKeepsInv(p, s, s');
  }

  lemma DeliverKeepsInv(p: Premises, s: State, drained: bool)
    requires Inv(p, s) && Enabled(p, s, Deliver(drained))
    ensures Inv(p, Next(p, s, Deliver(drained)))
  {
    var s' := Next(p, s, Deliver(drained));
    if Good(s) {
      DeliverLine(s, s', s'.route[|s.route|], drained);
      SameLineKeepsSequenced(s, s');
    }
    QuietStepKeepsInv(p, s, s');
  }

  lemma StartFlushKeepsInv(p: Premises, s: State)
    requires Inv(p, s) && Enabled(p, s, StartFlush)
    ensures Inv(p, Next(p, s, StartFlush))
  {
    var s' := Next(p, s, StartFlush);
    if Good(s) {
      assert QueuedEntries(s') == QueuedEntries(s);
      SameLineKeepsSequenced(s, s');
    }
    QuietStepKeepsInv(p, s, s');
  }

  /** The end of a drain loop or of a flush. */
  lemma StopKeepsInv(p: Premises, s: State, s': State)
    requires Inv(p, s) && s' == s.(reader := Ready)
    requires (s.reader.Draining? && s.held == []) || (s.reader.Flushing? && s.reader.queue == [])
    ensures Inv(p, s')
  {
    if Good(s) {
      assert QueuedEntries(s') == QueuedEntries(s);
      SameLineKeepsSequenced(s, s');
    }
    QuietStepKeepsInv(p, s, s');
  }

  lemma SettleKeepsInv(p: Premises, s: State, s': State)
    requires Inv(p, s) && s.route != [] && s.route[0].work == []
    requires s' == s.(inFlight := if s.inFlight > 0 then s.inFlight - 1 else 0, settled := s'.settled, open := s'.open, route := s.route[1..])
    ensures Inv(p, s')
  {
    if Good(s) {
      SettleLine(s, s');
      SameLineKeepsSequenced(s, s');
    }
    QuietStepKeepsInv(p, s, s');
  }

  /** What every commit call keeps, once its own order and the line behind it are known. */
  lemma CallStepKeepsInv(p: Premises, s: State, s': State, last: SourceCall, item: Item)
    requires Inv(p, s) && last.at == Now(s) && last.read == ReadOf(item)
    requires item.Kept? ==> last.dispositions == Dispositions(item.entry.emptied)
    requires s'.calls == s.calls + [last] && s'.failed == (s.failed || !last.ok)
    requires s'.nextRead == s.nextRead && s'.retained == s.retained && s'.replies == s.replies
    requires Good(s) ==> PremiseClean(p, last) && (InOrder(s'.calls, |s.calls|) <==> Clean(last))
    requires Good(s) && last.ok && Clean(last) ==> Line(s) == [item] + Line(s') && Shaped(s')
    requires p.counted && SawIdle(s'.reader) ==> s'.collected == []
    requires p.flushIdle && Good(s) && s'.reader.Flushing? ==> s'.route == []
    ensures Inv(p, s')
  {
    CallKeepsCalls(p, s, s', last);
    if Good(s') {
      MoveKeepsSequenced(s, s', item, last);
    }
  }

  lemma RouteCallKeepsInv(p: Premises, s: State, ok: bool, dispositions: seq<Disposition>)
    requires Inv(p, s) && s.route != [] && s.route[0].work != []
    ensures Inv(p, NextRoute(s, ok, dispositions))
  {
    var s' := NextRoute(s, ok, dispositions);
    var head := s.route[0];
    var item := head.work[0];
    var last := s'.calls[|s.calls|];
    if Good(s) {
      var moved := s'.(route := [head.(work := head.work[1..])] + s.route[1..]);
      RouteCallLine(s, moved);
      HeadCallInOrder(s, last, item, Line(moved));
    }
    CallStepKeepsInv(p, s, s', last, item);
  }

  lemma DrainCallKeepsInv(p: Premises, s: State, ok: bool)
    requires Inv(p, s) && s.reader.Draining? && s.held != []
    ensures Inv(p, Next(p, s, DrainStep(ok)))
  {
    var s' := Next(p, s, DrainStep(ok));
    var last := s'.calls[|s.calls|];
    if Good(s) {
      QueuedCallInOrder(s, last);
      assert Handed(s) == s.collected;
      if Clean(last) && ok {
        assert Handed(s') == [];
        QueueCallLine(s, s');
      }
    }
    assert p.counted ==> ReadSet(s.collected) == {};
    CallStepKeepsInv(p, s, s', last, Kept(s.held[0]));
  }

  lemma FlushCallKeepsInv(p: Premises, s: State, ok: bool)
    requires Inv(p, s) && s.reader.Flushing? && s.reader.queue != []
    ensures Inv(p, Next(p, s, FlushStep(ok)))
  {
    var s' := Next(p, s, FlushStep(ok));
    var queue := s.reader.queue;
    var last := s'.calls[|s.calls|];
    if Good(s) {
      assert QueuedEntries(s)[0] == queue[0];
      QueuedCallInOrder(s, last);
      if Clean(last) && ok {
        assert Handed(s') == Handed(s);
        assert QueuedEntries(s') == QueuedEntries(s)[1..];
        QueueCallLine(s, s');
      }
    }
    CallStepKeepsInv(p, s, s', last, Kept(queue[0]));
  }

  lemma InlineKeepsInv(p: Premises, s: State, dispositions: seq<Disposition>, ok: bool)
    requires Inv(p, s) && Enabled(p, s, CommitInline(dispositions, ok))
    ensures Inv(p, Next(p, s, CommitInline(dispositions, ok)))
  {
    var s' := Next(p, s, CommitInline(dispositions, ok));
    var last := s'.calls[|s.calls|];
    if Good(s) {
      FreshCallInOrder(s, last);
      if p.inlineIdle {
        NothingWaits(s);
      }
      if last.at.waiting == {} {
        InlineKeepsSequenced(s, s', last);
      }
    }
    CallKeepsCalls(p, s, s', last);
  }

  lemma NothingWaits(s: State)
    requires OrderInv(s) && s.reader.Ready? && s.inFlight == 0 && s.held == [] && s.collected == []
    ensures Now(s).waiting == {}
  {
    assert Line(s) == [];
  }

  lemma InlineKeepsSequenced(s: State, s': State, last: SourceCall)
    requires Sequenced(s) && Now(s).waiting == {} && last.read == s.nextRead
    requires s'.calls == s.calls + [last] && s'.nextRead == s.nextRead + 1
    requires s'.retained == s.retained && s'.replies == s.replies && Line(s') == Line(s)
    ensures Sequenced(s')
  {
    LineWaits(s);
    assert Whole(s') == Whole(s) + [s.nextRead];
    FreshReadKeepsIncreasing(Whole(s), s.nextRead);
    forall r | r in s.retained ensures r in CalledReads(s'.calls) {
      assert r in CalledReads(s.calls);
      var i :| 0 <= i < |s.calls| && CalledReads(s.calls)[i] == r;
      assert CalledReads(s'.calls)[i] == r;
    }
    forall r | r in s.replies ensures Answered(s'.calls, Line(s'), r, s.replies[r]) {
      AnsweredStays(s.calls, s'.calls, Line(s), Line(s'), r, s.replies[r]);
    }
  }

  lemma StepKeepsInv(p: Premises, s: State, a: Action)
    requires Inv(p, s) && Enabled(p, s, a)
    ensures Inv(p, Next(p, s, a))
  {
    match a {
      case ReadEmptied(emptied) => ReadEmptiedKeepsInv(p, s, emptied);
      case PushHeld => PushHeldKeepsInv(p, s);
      case DrainStep(ok) =>
        if s.held == [] { StopKeepsInv(p, s, Next(p, s, a)); } else { DrainCallKeepsInv(p, s, ok); }
      case Collect => CollectKeepsInv(p, s);
      case Deliver(drained) => DeliverKeepsInv(p, s, drained);
      case DropCollected => FailedStepKeepsInv(p, s, Next(p, s, a));
      case RouteStep(ok, dispositions) =>
        if s.route[0].work == [] { SettleKeepsInv(p, s, Next(p, s, a)); } else { RouteCallKeepsInv(p, s, ok, dispositions); }
      case Abandon => FailedStepKeepsInv(p, s, Next(p, s, a));
      case StartFlush => StartFlushKeepsInv(p, s);
      case FlushStep(ok) =>
        if s.reader.queue == [] { StopKeepsInv(p, s, Next(p, s, a)); } else { FlushCallKeepsInv(p, s, ok); }
      case CommitInline(dispositions, ok) => InlineKeepsInv(p, s, dispositions, ok);
    }
  }

  lemma {:induction false} RunKeepsInv(p: Premises, s: State, actions: seq<Action>)
    requires Inv(p, s) && Legal(p, s, actions)
    ensures Inv(p, Run(p, s, actions))
    decreases |actions|
  {
    if actions != [] {
      StepKeepsInv(p, s, actions[0]);
      RunKeepsInv(p, Next(p, s, actions[0]), actions[1..]);
    }
  }

  // ---------------------------------------------------------------- over every run

  /** Without any premise, over every run and up to the first failing or overtaking commit, exactly
      this decides whether a commit is in order: the route's always are; an idle drain's is when no
      batch was collected and not counted yet; a flush's is when the route had nothing left to run; an
      inline one is when nothing was left to run at all. */
  lemma OrderExactly(actions: seq<Action>, i: nat)
    requires Legal(NONE, INITIAL, actions)
    requires var calls := Run(NONE, INITIAL, actions).calls; i < |calls| && GoodAt(calls, i)
    ensures var calls := Run(NONE, INITIAL, actions).calls;
            InOrder(calls, i) <==>
            match calls[i].caller
            case Route => true
            case IdleDrain => calls[i].at.uncounted == {}
            case DrainFlush => calls[i].at.handed == {}
            case Inline => calls[i].at.waiting == {}
  {
    InitialInv(NONE);
    RunKeepsInv(NONE, INITIAL, actions);
  }

  /** Each guard a caller can check itself is enough for its own commits: no idle counter read with a
      batch collected, no flush with a delivery in flight, no inline commit with anything in flight,
      held or collected. */
  lemma EachGuardSuffices(p: Premises, actions: seq<Action>, i: nat)
    requires Legal(p, INITIAL, actions)
    requires var calls := Run(p, INITIAL, actions).calls; i < |calls| && GoodAt(calls, i)
    ensures var calls := Run(p, INITIAL, actions).calls;
            && (p.counted && calls[i].caller.IdleDrain? ==> InOrder(calls, i))
            && (p.flushIdle && calls[i].caller.DrainFlush? ==> InOrder(calls, i))
            && (p.inlineIdle && calls[i].caller.Inline? ==> InOrder(calls, i))
  {
    InitialInv(p);
    RunKeepsInv(p, INITIAL, actions);
    assert PremiseClean(p, Run(p, INITIAL, actions).calls[i]);
  }

  lemma InitialInv(p: Premises)
    ensures Inv(p, INITIAL)
  {
    assert Line(INITIAL) == [] && Whole(INITIAL) == [];
  }

  lemma {:induction false} AllInOrder(s: State, i: nat)
    requires Inv(ALL, s) && i < |s.calls| && !s.calls[i].at.failed
    ensures GoodAt(s.calls, i) && InOrder(s.calls, i)
    decreases i
  {
    forall j: nat | j < i ensures InOrder(s.calls, j) {
      AllInOrder(s, j);
    }
    assert PremiseClean(ALL, s.calls[i]);
  }

  /** Under the premises, over every run and up to and including the first failing commit, the source
      sees commits in strictly increasing read order, and never one while a batch that was read
      earlier, retained or emptied, is still to be committed. */
  lemma SourceSeesReadOrder(actions: seq<Action>, i: nat)
    requires Legal(ALL, INITIAL, actions)
    requires var calls := Run(ALL, INITIAL, actions).calls; i < |calls| && !calls[i].at.failed
    ensures var calls := Run(ALL, INITIAL, actions).calls;
            && (forall j :: 0 <= j < i ==> calls[j].read < calls[i].read)
            && (forall r :: r in calls[i].at.waiting ==> r >= calls[i].read)
  {
    InitialInv(ALL);
    RunKeepsInv(ALL, INITIAL, actions);
    AllInOrder(Run(ALL, INITIAL, actions), i);
  }

  // ---------------------------------------------------------------- where every commit goes

  /** What a step reads, which commit it calls and which commits it gives up: the oldest plain ack at the
      bound, and whatever a failure drops. */
  function Fresh(s: State, a: Action): (r: seq<Item>) {
    match a
    case ReadEmptied(emptied) => [Kept(Held(s.nextRead, emptied))]
    case Collect => [Own(s.nextRead)]
    case _ => []
  }

  function Called(s: State, a: Action): (r: seq<Item>)
    requires Enabled(NONE, s, a)
  {
    match a
    case DrainStep(_) => if s.held == [] then [] else [Kept(s.held[0])]
    case RouteStep(_, _) => if s.route[0].work == [] then [] else [s.route[0].work[0]]
    case FlushStep(_) => if s.reader.queue == [] then [] else [Kept(s.reader.queue[0])]
    case _ => []
  }

  function Gone(s: State, a: Action): (r: seq<Item>)
    requires Enabled(NONE, s, a)
  {
    match a
    case PushHeld =>
      var k := OldestAck(s.held);
      if !s.reader.idle && |s.held| >= MAX_DEFERRED_COMMITS && k < |s.held| then [Kept(s.held[k])] else []
    case DropCollected => s.collected
    case RouteStep(ok, _) => if ok || s.route[0].work == [] then [] else s.route[0].work[1..]
    case Abandon => s.route[0].work
    case FlushStep(ok) => if ok || s.reader.queue == [] then [] else Items(s.reader.queue[1..])
    case _ => []
  }

  /** `cut` is taken out of `line`, the rest keeps its order. */
  ghost predicate CutFrom(line: seq<Item>, cut: seq<Item>, line': seq<Item>) {
    exists front, back :: line == front + cut + back && line' == front + back
  }

  lemma CutAt(front: seq<Item>, cut: seq<Item>, back: seq<Item>, line: seq<Item>, line': seq<Item>)
    requires line == front + cut + back && line' == front + back
    ensures CutFrom(line, cut, line')
  {
  }

  lemma NothingCut(line: seq<Item>)
    ensures CutFrom(line, [], line)
  {
    CutAt(line, [], [], line, line);
  }

  lemma CutKeepsRest(line: seq<Item>, cut: seq<Item>, line': seq<Item>)
    requires CutFrom(line, cut, line')
    ensures multiset(ItemReads(line)) == multiset(ItemReads(line')) + multiset(ItemReads(cut))
    ensures forall x :: x in line <==> x in line' || x in cut
  {
    var front, back :| line == front + cut + back && line' == front + back;
    ReadsSplit(front + cut, back);
    ReadsSplit(front, cut);
    ReadsSplit(front, back);
  }

  lemma {:induction false} RouteCuts(s: State, s': State, keep: seq<Delivery>, cut: seq<Item>, rest: seq<Item>)
    requires s.route != [] && s'.route == keep + s.route[1..] && s.route[0].work == cut + rest
    requires (keep == [] && rest == []) || (|keep| == 1 && keep[0].work == rest)
    requires s'.collected == s.collected && s'.reader == s.reader && s'.held == s.held
    ensures CutFrom(Line(s), cut, Line(s'))
  {
    var tail := RouteItems(s.route[1..]);
    if keep == [] {
      assert s'.route == s.route[1..];
    } else {
      assert s'.route[0] == keep[0] && s'.route[1..] == s.route[1..];
    }
    assert RouteItems(s'.route) == rest + tail;
    CutsFront(cut, rest, tail, s.collected, Items(QueuedEntries(s)));
  }

  lemma CutsFront(cut: seq<Item>, rest: seq<Item>, tail: seq<Item>, collected: seq<Item>, queued: seq<Item>)
    ensures CutFrom(cut + rest + tail + collected + queued, cut, rest + tail + collected + queued)
  {
    CutAt([], cut, rest + tail + collected + queued, cut + rest + tail + collected + queued, rest + tail + collected + queued);
  }

  lemma QueueCuts(s: State, s': State, front: seq<Held>, cut: seq<Held>, back: seq<Held>)
    requires Handed(s') == Handed(s)
    requires QueuedEntries(s) == front + cut + back && QueuedEntries(s') == front + back
    ensures CutFrom(Line(s), Items(cut), Line(s'))
  {
    ItemsSplit(front + cut, back);
    ItemsSplit(front, cut);
    ItemsSplit(front, back);
    var f := Handed(s) + Items(front);
    assert Line(s) == f + Items(cut) + Items(back);
    assert Line(s') == f + Items(back);
    CutAt(f, Items(cut), Items(back), Line(s), Line(s'));
  }

  lemma DrainCuts(s: State, s': State, cut: seq<Item>)
    requires s.reader.Draining? && (s'.reader.Draining? || s'.reader.Ready?) && s'.route == s.route && s'.collected == s.collected
    requires s'.held == if s.held == [] then [] else s.held[1..]
    requires cut == if s.held == [] then [] else [Kept(s.held[0])]
    ensures CutFrom(Line(s), cut, Line(s'))
  {
    if s.held == [] {
      NothingCut(Line(s));
    } else {
      assert s.held == [] + [s.held[0]] + s.held[1..] && s'.held == [] + s.held[1..];
      QueueCuts(s, s', [], [s.held[0]], s.held[1..]);
      assert Items([s.held[0]]) == cut;
    }
  }

  lemma RouteStepCuts(s: State, ok: bool, s': State, cut: seq<Item>)
    requires s.route != [] && s'.collected == s.collected && s'.reader == s.reader && s'.held == s.held
    requires var head := s.route[0];
             if head.work == [] || !ok then s'.route == s.route[1..] && cut == head.work
             else s'.route == [head.(work := head.work[1..])] + s.route[1..] && cut == [head.work[0]]
    ensures CutFrom(Line(s), cut, Line(s'))
  {
    var work := s.route[0].work;
    if work == [] || !ok {
      assert work == work + [] && [] + s.route[1..] == s.route[1..];
      RouteCuts(s, s', [], work, []);
    } else {
      assert work == [work[0]] + work[1..];
      RouteCuts(s, s', [s.route[0].(work := work[1..])], [work[0]], work[1..]);
    }
  }

  lemma CallCuts(p: Premises, s: State, a: Action)
    requires Enabled(p, s, a) && (a.DrainStep? || a.FlushStep? || a.RouteStep?)
    ensures CutFrom(Line(s), Called(s, a) + Gone(s, a), Line(Next(p, s, a)))
  {
    var s', cut := Next(p, s, a), Called(s, a) + Gone(s, a);
    match a {
      case DrainStep(_) => DrainCuts(s, s', cut);
      case FlushStep(ok) =>
        FlushedItems(s.reader.queue);
        FlushCuts(s, ok, s', cut);
      case RouteStep(ok, _) => RouteStepCuts(s, ok, s', cut);
    }
  }

  lemma FlushedItems(queue: seq<Held>)
    ensures queue != [] ==> [Kept(queue[0])] + Items(queue[1..]) == Items(queue) && [Kept(queue[0])] == Items([queue[0]])
  {
  }

  lemma FlushCuts(s: State, ok: bool, s': State, cut: seq<Item>)
    requires s.reader.Flushing? && s'.held == s.held && s'.route == s.route && s'.collected == s.collected
    requires var queue := s.reader.queue;
             s'.reader == (if ok && queue != [] then Flushing(queue[1..]) else Ready)
             && cut == Items(if queue == [] then [] else if ok then [queue[0]] else queue)
    ensures CutFrom(Line(s), cut, Line(s'))
  {
    var queue, held := s.reader.queue, s.held;
    if queue == [] || !ok {
      assert queue + held == [] + queue + held && held == [] + held;
      QueueCuts(s, s', [], queue, held);
    } else {
      assert queue + held == [] + [queue[0]] + (queue[1..] + held) && queue[1..] + held == [] + (queue[1..] + held);
      QueueCuts(s, s', [], [queue[0]], queue[1..] + held);
    }
  }

  lemma DropCuts(p: Premises, s: State, a: Action)
    requires Enabled(p, s, a) && (a.PushHeld? || a.DropCollected? || a.Abandon?)
    ensures CutFrom(Line(s), Gone(s, a), Line(Next(p, s, a)))
  {
    var s' := Next(p, s, a);
    match a {
      case DropCollected =>
        assert Handed(s') == RouteItems(s.route);
        CutAt(RouteItems(s.route), s.collected, Items(QueuedEntries(s)), Line(s), Line(s'));
      case Abandon =>
        assert s.route[0].work == s.route[0].work + [] && [] + s.route[1..] == s.route[1..];
        RouteCuts(s, s', [], s.route[0].work, []);
      case PushHeld => PushCuts(s, s', Gone(s, a));
    }
  }

  lemma PushCuts(s: State, s': State, cut: seq<Item>)
    requires s.reader.Loaded? && s'.reader == (if s.reader.idle then Draining else Ready)
    requires s'.held == if s.reader.idle then s.held + [s.reader.entry] else Push(s.held, s.reader.entry)
    requires s'.route == s.route && s'.collected == s.collected
    requires var k := OldestAck(s.held);
             cut == if !s.reader.idle && |s.held| >= MAX_DEFERRED_COMMITS && k < |s.held| then [Kept(s.held[k])] else []
    ensures CutFrom(Line(s), cut, Line(s'))
  {
    if cut != [] {
      EvictCuts(s, s', OldestAck(s.held));
    } else {
      assert s'.held == s.held + [s.reader.entry];
      AppendCuts(s, s');
    }
  }

  lemma AppendCuts(s: State, s': State)
    requires s.reader.Loaded? && (s'.reader.Ready? || s'.reader.Draining?)
    requires s'.route == s.route && s'.collected == s.collected && s'.held == s.held + [s.reader.entry]
    ensures CutFrom(Line(s), [], Line(s'))
  {
    assert QueuedEntries(s') == QueuedEntries(s);
    NothingCut(Line(s));
  }

  lemma EvictCuts(s: State, s': State, k: nat)
    requires s.reader.Loaded? && s'.reader.Ready? && s'.route == s.route && s'.collected == s.collected && k < |s.held|
    requires s'.held == s.held[..k] + s.held[k + 1..] + [s.reader.entry]
    ensures CutFrom(Line(s), [Kept(s.held[k])], Line(s'))
  {
    var held, entry := s.held, s.reader.entry;
    var back := held[k + 1..] + [entry];
    assert held + [entry] == held[..k] + [held[k]] + back && s'.held == held[..k] + back;
    QueueCuts(s, s', held[..k], [held[k]], back);
    assert Items([held[k]]) == [Kept(held[k])];
  }

  lemma QuietCuts(p: Premises, s: State, a: Action)
    requires Enabled(p, s, a) && (a.ReadEmptied? || a.Collect? || a.Deliver? || a.StartFlush? || a.CommitInline?)
    ensures Line(Next(p, s, a)) == Line(s) + Fresh(s, a)
  {
    var s' := Next(p, s, a);
    match a {
      case ReadEmptied(emptied) => EmptiedLine(s, s', Held(s.nextRead, emptied));
      case Collect => CollectLine(s, s');
      case Deliver(drained) => DeliverLine(s, s', s'.route[|s.route|], drained);
      case StartFlush => assert QueuedEntries(s') == QueuedEntries(s);
      case CommitInline(_, _) =>
    }
  }

  /** Every step only appends what it reads and takes out what it calls and what it gives up. */
  lemma StepCuts(p: Premises, s: State, a: Action)
    requires Enabled(p, s, a)
    ensures CutFrom(Line(s) + Fresh(s, a), Called(s, a) + Gone(s, a), Line(Next(p, s, a)))
  {
    assert Line(s) + [] == Line(s) && Called(s, a) + [] == Called(s, a) && [] + Gone(s, a) == Gone(s, a);
    if a.DrainStep? || a.FlushStep? || a.RouteStep? {
      CallCuts(p, s, a);
    } else if a.PushHeld? || a.DropCollected? || a.Abandon? {
      DropCuts(p, s, a);
    } else {
      QuietCuts(p, s, a);
      NothingCut(Line(s) + Fresh(s, a));
    }
  }

  lemma StepCalls(p: Premises, s: State, a: Action)
    requires Enabled(p, s, a)
    ensures var s', called := Next(p, s, a), Called(s, a);
            if a.CommitInline? then |s'.calls| == |s.calls| + 1 && s.calls <= s'.calls && s'.calls[|s.calls|].read == s.nextRead
            else if called == [] then s'.calls == s.calls
            else && |s'.calls| == |s.calls| + 1 && s.calls <= s'.calls && s'.calls[|s.calls|].read == ReadOf(called[0])
                 && (called[0].Kept? ==> s'.calls[|s.calls|].dispositions == Dispositions(called[0].entry.emptied))
  {
  }

  /** Every read that was called or is still to be committed. */
  function WholeBag(s: State): (r: multiset<nat>) {
    multiset(CalledReads(s.calls)) + multiset(ItemReads(Line(s)))
  }

  /** Conservation: a step moves reads from the line to the calls, adds what it reads and loses exactly
      what it gives up. */
  lemma StepConserves(p: Premises, s: State, a: Action)
    requires Enabled(p, s, a)
    ensures WholeBag(Next(p, s, a)) + multiset(ItemReads(Gone(s, a))) == WholeBag(s) + multiset(NewReads(s, a))
  {
    LineConserves(p, s, a);
    CallsConserve(p, s, a);
    TakenReads(s, a);
    StepAdds(s, Next(p, s, a), ItemReads(Fresh(s, a)), ItemReads(Called(s, a)), ItemReads(Gone(s, a)), InlineReads(s, a), NewReads(s, a));
  }

  lemma TakenReads(s: State, a: Action)
    ensures ItemReads(Fresh(s, a)) + InlineReads(s, a) == NewReads(s, a)
  {
  }

  lemma StepAdds(s: State, s': State, read: seq<nat>, called: seq<nat>, gone: seq<nat>, inline: seq<nat>, taken: seq<nat>)
    requires multiset(ItemReads(Line(s))) + multiset(read) == multiset(ItemReads(Line(s'))) + (multiset(called) + multiset(gone))
    requires multiset(CalledReads(s'.calls)) == multiset(CalledReads(s.calls)) + (multiset(called) + multiset(inline))
    requires read + inline == taken
    ensures WholeBag(s') + multiset(gone) == WholeBag(s) + multiset(taken)
  {
    BagsAdd(multiset(CalledReads(s.calls)), multiset(ItemReads(Line(s))), multiset(ItemReads(Line(s'))),
            multiset(read), multiset(called), multiset(gone), multiset(inline));
  }

  lemma LineConserves(p: Premises, s: State, a: Action)
    requires Enabled(p, s, a)
    ensures multiset(ItemReads(Line(s))) + multiset(ItemReads(Fresh(s, a)))
         == multiset(ItemReads(Line(Next(p, s, a)))) + (multiset(ItemReads(Called(s, a))) + multiset(ItemReads(Gone(s, a))))
  {
    StepCuts(p, s, a);
    CutKeepsRest(Line(s) + Fresh(s, a), Called(s, a) + Gone(s, a), Line(Next(p, s, a)));
    ReadsSplit(Line(s), Fresh(s, a));
    ReadsSplit(Called(s, a), Gone(s, a));
  }

  lemma CallsConserve(p: Premises, s: State, a: Action)
    requires Enabled(p, s, a)
    ensures multiset(CalledReads(Next(p, s, a).calls))
         == multiset(CalledReads(s.calls)) + (multiset(ItemReads(Called(s, a))) + multiset(InlineReads(s, a)))
  {
    StepCalls(p, s, a);
    CallsBag(s.calls, Next(p, s, a).calls, ItemReads(Called(s, a)) + InlineReads(s, a));
  }

  function InlineReads(s: State, a: Action): (r: seq<nat>) {
    if a.CommitInline? then [s.nextRead] else []
  }

  /** The read a step takes from the source, if it takes one. */
  function NewReads(s: State, a: Action): (r: seq<nat>) {
    if a.ReadEmptied? || a.Collect? || a.CommitInline? then [s.nextRead] else []
  }

  lemma BagsAdd(calls: multiset<nat>, line: multiset<nat>, line': multiset<nat>, read: multiset<nat>,
                called: multiset<nat>, gone: multiset<nat>, inline: multiset<nat>)
    requires line + read == line' + (called + gone)
    ensures (calls + (called + inline)) + line' + gone == (calls + line) + (read + inline)
  {
    forall x ensures ((calls + (called + inline)) + line' + gone)[x] == ((calls + line) + (read + inline))[x] {
      assert (line + read)[x] == (line' + (called + gone))[x];
    }
  }

  lemma CallsBag(calls: seq<SourceCall>, calls': seq<SourceCall>, reads': seq<nat>)
    requires |calls'| == |calls| + |reads'| && calls <= calls' && |reads'| <= 1
    requires reads' != [] ==> calls'[|calls|].read == reads'[0]
    ensures multiset(CalledReads(calls')) == multiset(CalledReads(calls)) + multiset(reads')
  {
    assert CalledReads(calls') == CalledReads(calls) + reads';
  }

  /** Each read is called or to be committed at most once, and none is from the future. */
  ghost predicate OnceInv(s: State) {
    forall r :: r in WholeBag(s) ==> WholeBag(s)[r] == 1 && r < s.nextRead
  }

  ghost predicate ReplyInv(s: State) {
    && OnceInv(s)
    && (forall r :: r in s.replies ==> r < s.nextRead)
    && (!s.failed ==> forall r :: r in s.replies ==> Answered(s.calls, Line(s), r, s.replies[r]))
    && (!s.failed && !s.reader.Draining? ==> Bounded(s.held))
  }

  lemma StepKeepsOnce(p: Premises, s: State, a: Action)
    requires OnceInv(s) && Enabled(p, s, a)
    ensures OnceInv(Next(p, s, a))
  {
    StepConserves(p, s, a);
    var s' := Next(p, s, a);
    OnceStays(WholeBag(s), WholeBag(s'), multiset(ItemReads(Gone(s, a))), NewReads(s, a), s.nextRead);
  }

  lemma OnceStays(bag: multiset<nat>, bag': multiset<nat>, gone: multiset<nat>, taken: seq<nat>, next: nat)
    requires forall r :: r in bag ==> bag[r] == 1 && r < next
    requires bag' + gone == bag + multiset(taken) && (taken == [] || taken == [next])
    ensures forall r :: r in bag' ==> bag'[r] == 1 && r < next + |taken|
  {
    forall r | r in bag' ensures bag'[r] == 1 && r < next + |taken| {
      assert (bag' + gone)[r] == (bag + multiset(taken))[r];
      assert next !in bag;
    }
  }

  /** A reply waiting in the line is called with its own dispositions, stays in the line, or is one of
      the commits the step gives up. */
  lemma ReplyGoesOn(p: Premises, s: State, a: Action, r: nat, d: seq<Disposition>)
    requires Enabled(p, s, a) && Answered(s.calls, Line(s), r, d)
    ensures Answered(Next(p, s, a).calls, Line(Next(p, s, a)), r, d) || Kept(Held(r, Settled(d))) in Gone(s, a)
  {
    var s', item := Next(p, s, a), Kept(Held(r, Settled(d)));
    StepCalls(p, s, a);
    StepCuts(p, s, a);
    CutKeepsRest(Line(s) + Fresh(s, a), Called(s, a) + Gone(s, a), Line(s'));
    if item in Called(s, a) {
      assert Called(s, a)[0] == item && s'.calls[|s.calls|].read == r;
    }
    if item !in Gone(s, a) {
      AnsweredStays(s.calls, s'.calls, Line(s), Line(s'), r, d);
    }
  }

  lemma StepAnswers(p: Premises, s: State, a: Action, r: nat)
    requires ReplyInv(s) && Enabled(p, s, a) && !Next(p, s, a).failed && r in Next(p, s, a).replies
    ensures var s' := Next(p, s, a); r < s'.nextRead && Answered(s'.calls, Line(s'), r, s'.replies[r])
  {
    var s' := Next(p, s, a);
    if a.ReadEmptied? && r == s.nextRead {
      QuietCuts(p, s, a);
      assert Line(s')[|Line(s)|] == Fresh(s, a)[0];
    } else {
      ReplyGoesOn(p, s, a, r, s.replies[r]);
    }
  }

  lemma StepKeepsBound(p: Premises, s: State, a: Action)
    requires Enabled(p, s, a) && !Next(p, s, a).failed && (!s.reader.Draining? ==> Bounded(s.held))
    ensures var s' := Next(p, s, a); !s'.reader.Draining? ==> Bounded(s'.held)
  {
    if a.PushHeld? && !s.reader.idle {
      PushKeepsBound(s.held, s.reader.entry);
    }
  }

  lemma StepKeepsReplies(p: Premises, s: State, a: Action)
    requires ReplyInv(s) && Enabled(p, s, a)
    ensures ReplyInv(Next(p, s, a))
  {
    StepKeepsOnce(p, s, a);
    if !Next(p, s, a).failed {
      StepKeepsBound(p, s, a);
      forall r | r in Next(p, s, a).replies
        ensures r < Next(p, s, a).nextRead && Answered(Next(p, s, a).calls, Line(Next(p, s, a)), r, Next(p, s, a).replies[r])
      {
        StepAnswers(p, s, a, r);
      }
    }
  }

  lemma {:induction false} RunKeepsReplies(p: Premises, s: State, actions: seq<Action>)
    requires ReplyInv(s) && Legal(p, s, actions)
    ensures ReplyInv(Run(p, s, actions))
    decreases |actions|
  {
    if actions != [] {
      StepKeepsReplies(p, s, actions[0]);
      RunKeepsReplies(p, Next(p, s, actions[0]), actions[1..]);
    }
  }

  lemma InitialReplies()
    ensures ReplyInv(INITIAL)
  {
    assert Line(INITIAL) == [];
  }

  /** Whoever overtakes whom: while commits succeed no reply is ever discarded. Its own dispositions went
      to the source for its own read, or a commit that carries them is still to run. The hold queue stays
      within `max(1024, replies + 1)`. */
  lemma RepliesAreKept(p: Premises, actions: seq<Action>)
    requires Legal(p, INITIAL, actions)
    requires !Run(p, INITIAL, actions).failed
    ensures var s := Run(p, INITIAL, actions);
            && (forall r :: r in s.replies ==> Answered(s.calls, Line(s), r, s.replies[r]))
            && (!s.reader.Draining? ==> |s.held| <= MAX_DEFERRED_COMMITS || |s.held| <= |Replies(s.held)| + 1)
  {
    InitialReplies();
    RunKeepsReplies(p, INITIAL, actions);
  }

  /** After every run, failures included, and for every next step: a reply still to be committed is lost
      exactly when it is among the commits that step gives up, which are those behind a failing commit of
      the same delivery or flush, those of an abandoned delivery and those of a failed receive. */
  lemma ReplyLostExactly(p: Premises, actions: seq<Action>, a: Action, r: nat, d: seq<Disposition>)
    requires Legal(p, INITIAL, actions) && Enabled(p, Run(p, INITIAL, actions), a)
    requires Kept(Held(r, Settled(d))) in Line(Run(p, INITIAL, actions))
    ensures var s := Run(p, INITIAL, actions);
            var s' := Next(p, s, a);
            Answered(s'.calls, Line(s'), r, d) <==> Kept(Held(r, Settled(d))) !in Gone(s, a)
  {
    InitialReplies();
    RunKeepsReplies(p, INITIAL, actions);
    StepLosesExactly(p, Run(p, INITIAL, actions), a, r, d);
  }

  lemma StepLosesExactly(p: Premises, s: State, a: Action, r: nat, d: seq<Disposition>)
    requires OnceInv(s) && Enabled(p, s, a) && Kept(Held(r, Settled(d))) in Line(s)
    ensures Answered(Next(p, s, a).calls, Line(Next(p, s, a)), r, d) <==> Kept(Held(r, Settled(d))) !in Gone(s, a)
  {
    var s', item := Next(p, s, a), Kept(Held(r, Settled(d)));
    if item in Gone(s, a) {
      StepConserves(p, s, a);
      InReads(Line(s), item);
      InReads(Gone(s, a), item);
      GoneIsGone(WholeBag(s), WholeBag(s'), multiset(ItemReads(Gone(s, a))), NewReads(s, a), s.nextRead, r);
      if item in Line(s') { InReads(Line(s'), item); }
      if Replied(s'.calls, r, d) { CalledInBag(s'.calls, r, d); }
    } else {
      ReplyGoesOn(p, s, a, r, d);
    }
  }

  lemma GoneIsGone(bag: multiset<nat>, bag': multiset<nat>, gone: multiset<nat>, taken: seq<nat>, next: nat, r: nat)
    requires forall x :: x in bag ==> bag[x] == 1 && x < next
    requires bag' + gone == bag + multiset(taken) && (taken == [] || taken == [next])
    requires r in gone && r in bag
    ensures r !in bag'
  {
    assert (bag' + gone)[r] == (bag + multiset(taken))[r];
  }

  lemma InReads(items: seq<Item>, item: Item)
    requires item in items
    ensures ReadOf(item) in ItemReads(items)
  {
    var i :| 0 <= i < |items| && items[i] == item;
    assert ItemReads(items)[i] == ReadOf(item);
  }

  lemma CalledInBag(calls: seq<SourceCall>, read: nat, d: seq<Disposition>)
    requires Replied(calls, read, d)
    ensures read in CalledReads(calls)
  {
    var i :| 0 <= i < |calls| && calls[i].read == read && calls[i].dispositions == d;
    assert CalledReads(calls)[i] == read;
  }

  // ---------------------------------------------------------------- after a failure

  ghost predicate IsOpen(open: map<nat, set<nat>>, read: nat) {
    exists id :: id in open && read in open[id]
  }

  /** The in-flight counter is the number of counted deliveries not settled, whatever failed. */
  ghost predicate CountInv(s: State) {
    && s.inFlight == |s.open|
    && (forall id :: id in s.open ==> id < s.nextDelivery)
    && RouteOpen(s.route, s.open)
    && (forall r :: r in s.retained ==> r in s.settled || r in Owns(s.collected) || r in s.lost || IsOpen(s.open, r))
    && (SawIdle(s.reader) ==> s.inFlight == 0)
    && (forall i :: 0 <= i < |s.calls| && s.calls[i].caller.IdleDrain? ==> DrainedBehind(s.calls[i].at))
  }

  /** Every retained batch not settled is collected and uncounted, or was lost with its receive. */
  predicate DrainedBehind(at: Moment) {
    at.unsettled <= at.uncounted + at.lost
  }

  /** The sequencer holds distinct open deliveries. */
  ghost predicate RouteOpen(route: seq<Delivery>, open: map<nat, set<nat>>) {
    && (forall i :: 0 <= i < |route| ==> route[i].id in open && open[route[i].id] == route[i].own)
    && (forall i, j :: 0 <= i < j < |route| ==> route[i].id != route[j].id)
  }

  lemma SettleKeepsOpen(route: seq<Delivery>, open: map<nat, set<nat>>, read: nat)
    requires RouteOpen(route, open) && route != []
    ensures RouteOpen(route[1..], open - {route[0].id}) && |open - {route[0].id}| == |open| - 1
    ensures IsOpen(open, read) ==> read in route[0].own || IsOpen(open - {route[0].id}, read)
  {
    var id := route[0].id;
    var open' := open - {id};
    assert open.Keys == open'.Keys + {id};
    if IsOpen(open, read) {
      var other :| other in open && read in open[other];
      assert other != id ==> other in open';
    }
  }

  lemma DeliverKeepsOpen(route: seq<Delivery>, open: map<nat, set<nat>>, d: Delivery, read: nat)
    requires RouteOpen(route, open) && forall id :: id in open ==> id < d.id
    ensures RouteOpen(route + [d], open[d.id := d.own]) && |open[d.id := d.own]| == |open| + 1
    ensures read in d.own || IsOpen(open, read) ==> IsOpen(open[d.id := d.own], read)
  {
    var open' := open[d.id := d.own];
    assert open'.Keys == open.Keys + {d.id};
    if IsOpen(open, read) {
      var id :| id in open && read in open[id];
      assert id in open' && open'[id] == open[id];
    } else if read in d.own {
      assert d.id in open' && read in open'[d.id];
    }
  }

  lemma SettleKeepsCountInv(s: State, s': State)
    requires CountInv(s) && s.route != []
    requires s' == s.(inFlight := if s.inFlight > 0 then s.inFlight - 1 else 0,
                      settled := s.settled + s.route[0].own, open := s.open - {s.route[0].id}, route := s.route[1..])
    ensures CountInv(s')
  {
    SettleKeepsOpen(s.route, s.open, 0);
    forall r | r in s.retained ensures r in s'.settled || r in Owns(s.collected) || r in s.lost || IsOpen(s'.open, r) {
      SettleKeepsOpen(s.route, s.open, r);
    }
  }

  lemma DeliverKeepsCountInv(s: State, s': State, d: Delivery)
    requires CountInv(s) && s.reader.Ready? && d.id == s.nextDelivery && d.own == Owns(s.collected)
    requires s' == s.(route := s.route + [d], collected := [], held := s'.held, inFlight := s.inFlight + 1,
                      nextDelivery := s.nextDelivery + 1, open := s.open[d.id := d.own])
    ensures CountInv(s')
  {
    DeliverKeepsOpen(s.route, s.open, d, 0);
    forall r | r in s.retained ensures r in s.settled || r in s.lost || IsOpen(s'.open, r) {
      DeliverKeepsOpen(s.route, s.open, d, r);
    }
  }

  lemma CollectKeepsCountInv(s: State, s': State)
    requires CountInv(s) && s.reader.Ready?
    requires s' == s.(collected := s.collected + Items(s.held) + [Own(s.nextRead)], held := [],
                      nextRead := s.nextRead + 1, retained := s.retained + {s.nextRead})
    ensures CountInv(s')
  {
    assert s'.collected[|s'.collected| - 1] == Own(s.nextRead);
    forall r | r in Owns(s.collected) ensures r in Owns(s'.collected) {
      assert Own(r) in s.collected;
    }
  }

  /** A call changes the sequencer's head or drops it. */
  lemma CallKeepsCountInv(s: State, s': State)
    requires CountInv(s) && |s'.route| <= |s.route|
    requires forall i :: 0 <= i < |s'.route| ==>
               var d := s.route[i + |s.route| - |s'.route|]; s'.route[i].id == d.id && s'.route[i].own == d.own
    requires s' == s.(route := s'.route, calls := s'.calls, reader := s'.reader, held := s'.held, failed := s'.failed, nextRead := s'.nextRead)
    requires |s'.calls| == |s.calls| + 1 && s'.calls[..|s.calls|] == s.calls && s'.calls[|s.calls|].at == Now(s)
    requires s'.calls[|s.calls|].caller.IdleDrain? ==> s.inFlight == 0
    requires SawIdle(s'.reader) ==> SawIdle(s.reader)
    ensures CountInv(s')
  {
    if s.inFlight == 0 {
      IdleMoment(s);
    }
    forall i | 0 <= i < |s'.calls| && s'.calls[i].caller.IdleDrain? ensures DrainedBehind(s'.calls[i].at) {
      assert i < |s.calls| ==> s'.calls[i] == s'.calls[..|s.calls|][i];
    }
  }

  lemma IdleMoment(s: State)
    requires CountInv(s) && s.inFlight == 0
    ensures DrainedBehind(Now(s))
  {
    assert s.open == map[];
    forall r | r in Owns(s.collected) ensures r in ReadSet(s.collected) {
      assert Own(r) in s.collected && ReadOf(Own(r)) == r;
    }
  }

  lemma RouteCallKeepsCountInv(s: State, ok: bool, dispositions: seq<Disposition>)
    requires CountInv(s) && s.route != [] && s.route[0].work != []
    ensures CountInv(NextRoute(s, ok, dispositions))
  {
    CallKeepsCountInv(s, NextRoute(s, ok, dispositions));
  }

  lemma ReaderCallKeepsCountInv(s: State, s': State)
    requires CountInv(s) && s'.route == s.route
    requires s' == s.(calls := s'.calls, reader := s'.reader, held := s'.held, failed := s'.failed, nextRead := s'.nextRead)
    requires |s'.calls| == |s.calls| + 1 && s'.calls[..|s.calls|] == s.calls && s'.calls[|s.calls|].at == Now(s)
    requires s'.calls[|s.calls|].caller.IdleDrain? ==> SawIdle(s.reader)
    requires SawIdle(s'.reader) ==> SawIdle(s.reader)
    ensures CountInv(s')
  {
    CallKeepsCountInv(s, s');
  }

  lemma StepKeepsCountInv(s: State, a: Action)
    requires CountInv(s) && Enabled(NONE, s, a)
    ensures CountInv(Next(NONE, s, a))
  {
    match a {
      case Collect => CollectKeepsCountInv(s, Next(NONE, s, a));
      case Deliver(_) => DeliverKeepsCountInv(s, Next(NONE, s, a), Next(NONE, s, a).route[|s.route|]);
      case RouteStep(ok, dispositions) =>
        if s.route[0].work == [] {
          SettleKeepsCountInv(s, NextRoute(s, ok, dispositions));
        } else {
          RouteCallKeepsCountInv(s, ok, dispositions);
        }
      case DrainStep(_) => if s.held != [] { ReaderCallKeepsCountInv(s, Next(NONE, s, a)); }
      case FlushStep(_) => if s.reader.queue != [] { ReaderCallKeepsCountInv(s, Next(NONE, s, a)); }
      case CommitInline(_, _) => ReaderCallKeepsCountInv(s, Next(NONE, s, a));
      case _ => QuietStepKeepsCountInv(s, a, Next(NONE, s, a));
    }
  }

  lemma QuietStepKeepsCountInv(s: State, a: Action, s': State)
    requires CountInv(s) && Enabled(NONE, s, a) && s' == Next(NONE, s, a)
    requires a.ReadEmptied? || a.PushHeld? || a.DropCollected? || a.Abandon? || a.StartFlush?
    ensures CountInv(s')
  {
  }

  lemma {:induction false} RunKeepsCountInv(s: State, actions: seq<Action>)
    requires CountInv(s) && Legal(NONE, s, actions)
    ensures CountInv(Run(NONE, s, actions))
    decreases |actions|
  {
    if actions != [] {
      StepKeepsCountInv(s, actions[0]);
      RunKeepsCountInv(Next(NONE, s, actions[0]), actions[1..]);
    }
  }

  /** Without any premise and even after failures: when an idle drain commits, every retained batch not
      settled is one collected and not counted yet, or one lost with a failed receive. A counted
      delivery whose commit failed or never ran keeps the drain closed for good. */
  lemma IdleDrainOnlyWhenAllSettled(actions: seq<Action>, i: nat)
    requires Legal(NONE, INITIAL, actions)
    requires var calls := Run(NONE, INITIAL, actions).calls; i < |calls| && calls[i].caller.IdleDrain?
    ensures var at := Run(NONE, INITIAL, actions).calls[i].at; at.unsettled <= at.uncounted + at.lost
  {
    RunKeepsCountInv(INITIAL, actions);
  }

  /** A counted delivery no commit stands for any more. */
  ghost predicate Orphaned(s: State, id: nat) {
    && id in s.open && id < s.nextDelivery && s.inFlight == |s.open| && !SawIdle(s.reader)
    && RouteOpen(s.route, s.open)
    && (forall i :: 0 <= i < |s.route| ==> s.route[i].id != id)
    && (forall jd :: jd in s.open ==> jd < s.nextDelivery)
  }

  lemma OrphanIsCounted(s: State, id: nat)
    requires Orphaned(s, id)
    ensures s.inFlight > 0
  {
    assert s.open != map[];
  }

  lemma DeliverKeepsOrphan(s: State, drained: bool, id: nat)
    requires Orphaned(s, id) && Enabled(NONE, s, Deliver(drained))
    ensures Orphaned(Next(NONE, s, Deliver(drained)), id)
  {
    var s' := Next(NONE, s, Deliver(drained));
    DeliverKeepsOpen(s.route, s.open, s'.route[|s.route|], 0);
  }

  lemma RouteKeepsOrphan(s: State, ok: bool, dispositions: seq<Disposition>, id: nat)
    requires Orphaned(s, id) && s.route != []
    ensures Orphaned(NextRoute(s, ok, dispositions), id)
  {
    SettleKeepsOpen(s.route, s.open, 0);
  }

  lemma StepKeepsOrphan(s: State, a: Action, id: nat)
    requires Orphaned(s, id) && Enabled(NONE, s, a)
    ensures Orphaned(Next(NONE, s, a), id)
    ensures var calls := Next(NONE, s, a).calls;
            calls == s.calls || (|calls| == |s.calls| + 1 && calls[..|s.calls|] == s.calls && !calls[|s.calls|].caller.IdleDrain?)
  {
    OrphanIsCounted(s, id);
    match a {
      case Deliver(drained) => DeliverKeepsOrphan(s, drained, id);
      case RouteStep(ok, dispositions) => RouteKeepsOrphan(s, ok, dispositions, id);
      case _ =>
    }
  }

  lemma {:induction false} RunKeepsOrphan(s: State, actions: seq<Action>, id: nat)
    requires Orphaned(s, id) && Legal(NONE, s, actions)
    ensures var calls := Run(NONE, s, actions).calls;
            s.calls <= calls && forall i :: |s.calls| <= i < |calls| ==> !calls[i].caller.IdleDrain?
    decreases |actions|
  {
    if actions != [] {
      var s1 := Next(NONE, s, actions[0]);
      StepKeepsOrphan(s, actions[0], id);
      RunKeepsOrphan(s1, actions[1..], id);
      assert s.calls <= s1.calls;
    }
  }

  /** A commit that fails before it calls anything, never runs, or has a call the source refuses closes the
      drain for good: however the run goes on, no held commit is drained as idle again. */
  lemma FailedCommitClosesDrain(s: State, dispositions: seq<Disposition>, abandoned: bool, actions: seq<Action>)
    requires CountInv(s) && s.route != [] && !SawIdle(s.reader) && (abandoned || s.route[0].work != [])
    ensures Enabled(NONE, s, Abandon) && Enabled(NONE, s, RouteStep(false, dispositions))
    ensures var s' := Next(NONE, s, if abandoned then Abandon else RouteStep(false, dispositions));
            Legal(NONE, s', actions) ==>
              var calls := Run(NONE, s', actions).calls;
              s'.calls <= calls && forall i :: |s'.calls| <= i < |calls| ==> !calls[i].caller.IdleDrain?
  {
    var s' := Next(NONE, s, if abandoned then Abandon else RouteStep(false, dispositions));
    assert Orphaned(s', s.route[0].id);
    if Legal(NONE, s', actions) {
      RunKeepsOrphan(s', actions, s.route[0].id);
    }
  }

  /** The source was called for this read, and the call succeeded. */
  ghost predicate Committed(calls: seq<SourceCall>, read: nat) {
    exists i :: 0 <= i < |calls| && calls[i].read == read && calls[i].ok
  }

  /** Of what a delivery stands for, what it no longer has to commit is committed. */
  ghost predicate OwesRest(d: Delivery, calls: seq<SourceCall>) {
    forall r :: r in d.own ==> Own(r) in d.work || Committed(calls, r)
  }

  ghost predicate SettledInv(s: State) {
    && (forall r :: r in s.settled ==> Committed(s.calls, r))
    && (forall i :: 0 <= i < |s.route| ==> OwesRest(s.route[i], s.calls))
  }

  lemma CommittedStays(calls: seq<SourceCall>, call: SourceCall)
    ensures forall r :: Committed(calls, r) ==> Committed(calls + [call], r)
    ensures call.ok ==> Committed(calls + [call], call.read)
  {
    var calls' := calls + [call];
    assert calls'[|calls|] == call;
    forall r | Committed(calls, r) ensures Committed(calls', r) {
      var i :| 0 <= i < |calls| && calls[i].read == r && calls[i].ok;
      assert calls'[i] == calls[i];
    }
  }

  lemma CallKeepsSettled(s: State, s': State)
    requires SettledInv(s) && |s'.calls| == |s.calls| + 1 && s'.calls[..|s.calls|] == s.calls
    requires s'.route == s.route && s'.settled == s.settled
    ensures SettledInv(s')
  {
    assert s'.calls == s.calls + [s'.calls[|s.calls|]];
    CommittedStays(s.calls, s'.calls[|s.calls|]);
  }

  lemma RouteKeepsSettled(s: State, ok: bool, dispositions: seq<Disposition>)
    requires SettledInv(s) && s.route != []
    ensures SettledInv(NextRoute(s, ok, dispositions))
  {
    var s', head := NextRoute(s, ok, dispositions), s.route[0];
    if head.work == [] {
      assert OwesRest(head, s.calls);
    } else {
      CommittedStays(s.calls, s'.calls[|s.calls|]);
      forall i | 0 <= i < |s'.route| ensures OwesRest(s'.route[i], s'.calls) {
        assert OwesRest(if i == 0 && ok then head else s.route[i + |s.route| - |s'.route|], s.calls);
      }
    }
  }

  lemma StepKeepsSettled(s: State, a: Action)
    requires SettledInv(s) && Enabled(NONE, s, a)
    ensures SettledInv(Next(NONE, s, a))
  {
    var s' := Next(NONE, s, a);
    match a {
      case RouteStep(ok, dispositions) => RouteKeepsSettled(s, ok, dispositions);
      case Deliver(drained) => assert OwesRest(s'.route[|s.route|], s.calls);
      case DrainStep(_) => if s.held != [] { CallKeepsSettled(s, s'); }
      case FlushStep(_) => if s.reader.queue != [] { CallKeepsSettled(s, s'); }
      case CommitInline(_, _) => CallKeepsSettled(s, s');
      case _ =>
    }
  }

  lemma {:induction false} RunKeepsSettled(s: State, actions: seq<Action>)
    requires SettledInv(s) && Legal(NONE, s, actions)
    ensures SettledInv(Run(NONE, s, actions))
    decreases |actions|
  {
    if actions != [] {
      StepKeepsSettled(s, actions[0]);
      RunKeepsSettled(Next(NONE, s, actions[0]), actions[1..]);
    }
  }

  /** In every run, a batch counts as settled only after the source was called for it and took the call. */
  lemma SettledIsCommitted(actions: seq<Action>, read: nat)
    requires Legal(NONE, INITIAL, actions) && read in Run(NONE, INITIAL, actions).settled
    ensures var calls := Run(NONE, INITIAL, actions).calls;
            exists i :: 0 <= i < |calls| && calls[i].read == read && calls[i].ok
  {
    RunKeepsSettled(INITIAL, actions);
    assert Committed(Run(NONE, INITIAL, actions).calls, read);
  }

  // ---------------------------------------------------------------- why the premises are needed

  /** `run` leads from `s` to `s'`. */
  ghost predicate Leads(p: Premises, s: State, run: seq<Action>, s': State) {
    Legal(p, s, run) && Run(p, s, run) == s'
  }

  /** One step in front of a run. */
  lemma {:induction false} Prepend(p: Premises, s: State, a: Action, s1: State, rest: seq<Action>, end: State)
    requires Enabled(p, s, a) && Next(p, s, a) == s1 && Leads(p, s1, rest, end)
    ensures Leads(p, s, [a] + rest, end)
  {
    assert ([a] + rest)[1..] == rest;
  }

  lemma {:induction false} LeadsTwo(p: Premises, s: State, a: Action, s1: State, b: Action, end: State)
    requires Enabled(p, s, a) && Next(p, s, a) == s1 && Enabled(p, s1, b) && Next(p, s1, b) == end
    ensures Leads(p, s, [a, b], end)
  {
    LeadsOne(p, s, a, s1);
    LeadsOne(p, s1, b, end);
    LeadsOn(p, s, [a], s1, [b], end);
    assert [a] + [b] == [a, b];
  }

  lemma {:induction false} LeadsOne(p: Premises, s: State, a: Action, s': State)
    requires Enabled(p, s, a) && Next(p, s, a) == s'
    ensures Leads(p, s, [a], s')
  {
    assert [a][1..] == [];
  }

  lemma {:induction false} LeadsOn(p: Premises, s: State, first: seq<Action>, mid: State, rest: seq<Action>, end: State)
    requires Leads(p, s, first, mid) && Leads(p, mid, rest, end)
    ensures Leads(p, s, first + rest, end)
    decreases |first|
  {
    if first == [] {
      assert first + rest == rest;
    } else {
      assert (first + rest)[1..] == first[1..] + rest;
      LeadsOn(p, Next(p, s, first[0]), first[1..], mid, rest, end);
    }
  }

  /** The last call overtook read 0, which had not been called. */
  ghost predicate Overtook(s: State) {
    && |s.calls| == 1 && !s.calls[0].at.failed && s.calls[0].ok
    && 0 in s.retained && 0 in s.calls[0].at.waiting && 0 < s.calls[0].read
  }

  const COLLECTED := INITIAL.(nextRead := 1, collected := [Own(0)], retained := {0})
  const DELIVERED := COLLECTED.(collected := [], route := [Delivery(0, [Own(0)], {0})], inFlight := 1, nextDelivery := 1, open := map[0 := {0}])

  lemma Starts(p: Premises)
    ensures Enabled(p, INITIAL, Collect) && Next(p, INITIAL, Collect) == COLLECTED
    ensures Enabled(p, COLLECTED, Deliver(false)) && Next(p, COLLECTED, Deliver(false)) == DELIVERED
  {
    assert [] + Items([]) + [Own(0)] == [Own(0)];
    assert Owns([Own(0)]) == {0} by { assert Own(0) in [Own(0)]; }
    assert [Own(0)] + [] == [Own(0)];
  }

  lemma CallOvertakes(s: State, s': State)
    requires s.calls == [] && !s.failed && s.retained == {0} && Own(0) in Line(s)
    requires |s'.calls| == 1 && s'.calls[0].at == Now(s) && s'.calls[0].ok && s'.calls[0].read > 0 && s'.retained == s.retained
    ensures Overtook(s')
  {
    assert ReadOf(Own(0)) in ReadSet(Line(s));
  }

  function CollectedOvertakenRun(): (r: seq<Action>) {
    [Collect] + ([ReadEmptied(Acked(1))] + [PushHeld, DrainStep(true)])
  }

  /** The filter collects a batch and reads on before it counts the delivery: an emptied batch then
      finds the counter at zero and commits ahead of what was collected. */
  lemma CollectedIsOvertaken()
    ensures Legal(Premises(false, true, true), INITIAL, CollectedOvertakenRun())
    ensures Overtook(Run(Premises(false, true, true), INITIAL, CollectedOvertakenRun()))
  {
    var p := Premises(false, true, true);
    Starts(p);
    var s2 := Next(p, COLLECTED, ReadEmptied(Acked(1)));
    var s3 := Next(p, s2, PushHeld);
    var s4 := Next(p, s3, DrainStep(true));
    LeadsTwo(p, s2, PushHeld, s3, DrainStep(true), s4);
    Prepend(p, COLLECTED, ReadEmptied(Acked(1)), s2, [PushHeld, DrainStep(true)], s4);
    Prepend(p, INITIAL, Collect, COLLECTED, [ReadEmptied(Acked(1))] + [PushHeld, DrainStep(true)], s4);
    assert s3.held == [Held(1, Acked(1))] && Line(s3)[0] == Own(0);
    CallOvertakes(s3, s4);
  }

  function LostOvertakenRun(): (r: seq<Action>) {
    [Collect] + ([DropCollected] + ([ReadEmptied(Acked(1))] + [PushHeld, DrainStep(true)]))
  }

  /** A receive that fails after it collected a batch loses that batch's commit: with every premise met, a
      later emptied batch is drained as idle while the lost one was never committed. */
  lemma LostBatchIsOvertaken()
    ensures Legal(ALL, INITIAL, LostOvertakenRun())
    ensures var s := Run(ALL, INITIAL, LostOvertakenRun());
            && |s.calls| == 1 && s.calls[0].caller.IdleDrain? && s.calls[0].read == 1 && s.retained == {0}
            && s.calls[0].at.unsettled == s.calls[0].at.lost == {0} && s.calls[0].at.uncounted == {}
  {
    var s2 := Next(ALL, COLLECTED, DropCollected);
    var s3 := Next(ALL, s2, ReadEmptied(Acked(1)));
    var s4 := Next(ALL, s3, PushHeld);
    var s5 := Next(ALL, s4, DrainStep(true));
    Starts(ALL);
    assert Own(0) in COLLECTED.collected && Owns(COLLECTED.collected) == {0};
    assert s4.held == [Held(1, Acked(1))];
    LeadsTwo(ALL, s3, PushHeld, s4, DrainStep(true), s5);
    Prepend(ALL, s2, ReadEmptied(Acked(1)), s3, [PushHeld, DrainStep(true)], s5);
    Prepend(ALL, COLLECTED, DropCollected, s2, [ReadEmptied(Acked(1))] + [PushHeld, DrainStep(true)], s5);
    Prepend(ALL, INITIAL, Collect, COLLECTED, [DropCollected] + ([ReadEmptied(Acked(1))] + [PushHeld, DrainStep(true)]), s5);
  }

  function FlushOvertakesRun(): (r: seq<Action>) {
    [Collect] + ([Deliver(false)] + ([ReadEmptied(Acked(1))] + ([PushHeld] + [StartFlush, FlushStep(true)])))
  }

  /** The flush at the end of a drain does not look at the in-flight counter. */
  lemma FlushOvertakesRetained()
    ensures Legal(Premises(true, false, true), INITIAL, FlushOvertakesRun())
    ensures Overtook(Run(Premises(true, false, true), INITIAL, FlushOvertakesRun()))
  {
    var p := Premises(true, false, true);
    Starts(p);
    var s3 := Next(p, DELIVERED, ReadEmptied(Acked(1)));
    var s4 := Next(p, s3, PushHeld);
    var s5 := Next(p, s4, StartFlush);
    var s6 := Next(p, s5, FlushStep(true));
    var flush := [StartFlush, FlushStep(true)];
    assert s4.held == [Held(1, Acked(1))] && Line(s5)[0] == Own(0);
    LeadsTwo(p, s4, StartFlush, s5, FlushStep(true), s6);
    Prepend(p, s3, PushHeld, s4, flush, s6);
    Prepend(p, DELIVERED, ReadEmptied(Acked(1)), s3, [PushHeld] + flush, s6);
    Prepend(p, COLLECTED, Deliver(false), DELIVERED, [ReadEmptied(Acked(1))] + ([PushHeld] + flush), s6);
    Prepend(p, INITIAL, Collect, COLLECTED, [Deliver(false)] + ([ReadEmptied(Acked(1))] + ([PushHeld] + flush)), s6);
    CallOvertakes(s5, s6);
  }

  function InlineOvertakesRun(): (r: seq<Action>) {
    [Collect] + [Deliver(false), CommitInline([Ack], true)]
  }

  /** A single receive commits a duplicate at once, also with a retained message in flight. */
  lemma InlineOvertakesRetained()
    ensures Legal(Premises(true, true, false), INITIAL, InlineOvertakesRun())
    ensures Overtook(Run(Premises(true, true, false), INITIAL, InlineOvertakesRun()))
  {
    var p := Premises(true, true, false);
    Starts(p);
    var s3 := Next(p, DELIVERED, CommitInline([Ack], true));
    LeadsTwo(p, COLLECTED, Deliver(false), DELIVERED, CommitInline([Ack], true), s3);
    Prepend(p, INITIAL, Collect, COLLECTED, [Deliver(false), CommitInline([Ack], true)], s3);
    assert Line(DELIVERED)[0] == Own(0);
    CallOvertakes(DELIVERED, s3);
  }

  // ---------------------------------------------------------------- a reply a failure loses

  function AnsweringDelivery(m: Message): (d: Delivery) {
    Delivery(1, [Own(1), Kept(Held(2, Settled([Reply(m)])))], {1})
  }

  /** A retained batch is in flight and a second delivery carries a reply behind its own commit. */
  function BothDelivered(m: Message): (s: State) {
    DELIVERED.(nextRead := 3, route := [Delivery(0, [Own(0)], {0}), AnsweringDelivery(m)], inFlight := 2, nextDelivery := 2,
               retained := {0, 1}, open := map[0 := {0}, 1 := {1}], replies := map[2 := [Reply(m)]])
  }

  function AnswerRun(m: Message): (r: seq<Action>) {
    [Collect] + ([ReadEmptied(Settled([Reply(m)]))] + [PushHeld, Deliver(true)])
  }

  lemma AnswerIsDelivered(m: Message)
    ensures Leads(ALL, DELIVERED, AnswerRun(m), BothDelivered(m))
  {
    var entry := Held(2, Settled([Reply(m)]));
    var s1 := DELIVERED.(nextRead := 2, collected := [Own(1)], retained := {0, 1});
    var s2 := s1.(nextRead := 3, reader := Loaded(entry, false), replies := map[2 := [Reply(m)]]);
    var s3 := s2.(reader := Ready, held := [entry]);
    assert [] + Items([]) + [Own(1)] == [Own(1)] && Push([], entry) == [entry];
    assert Owns([Own(1)]) == {1} by { assert Own(1) in [Own(1)]; }
    assert [Own(1)] + Items([entry]) == AnsweringDelivery(m).work;
    LeadsTwo(ALL, s2, PushHeld, s3, Deliver(true), BothDelivered(m));
    Prepend(ALL, s1, ReadEmptied(Settled([Reply(m)])), s2, [PushHeld, Deliver(true)], BothDelivered(m));
    Prepend(ALL, DELIVERED, Collect, s1, [ReadEmptied(Settled([Reply(m)]))] + [PushHeld, Deliver(true)], BothDelivered(m));
  }

  function FailingRun(): (r: seq<Action>) {
    [RouteStep(true, [Ack])] + [RouteStep(true, []), RouteStep(false, [Ack])]
  }

  lemma FailureDropsAnswer(m: Message)
    ensures Legal(ALL, BothDelivered(m), FailingRun())
    ensures var s := Run(ALL, BothDelivered(m), FailingRun());
            2 in s.replies && s.replies[2] == [Reply(m)] && !Answered(s.calls, Line(s), 2, [Reply(m)])
  {
    var s0 := BothDelivered(m);
    var s1 := NextRoute(s0, true, [Ack]);
    var s2 := NextRoute(s1, true, []);
    var s3 := NextRoute(s2, false, [Ack]);
    assert s1.route == [Delivery(0, [], {0}), AnsweringDelivery(m)];
    assert s2.route == [AnsweringDelivery(m)];
    LeadsTwo(ALL, s1, RouteStep(true, []), s2, RouteStep(false, [Ack]), s3);
    Prepend(ALL, s0, RouteStep(true, [Ack]), s1, [RouteStep(true, []), RouteStep(false, [Ack])], s3);
    assert s3.route == [] && Line(s3) == [];
  }

  function LostReplyRun(m: Message): (r: seq<Action>) {
    [Collect] + ([Deliver(false)] + (AnswerRun(m) + FailingRun()))
  }

  /** A failing commit drops the replies held behind it, under all premises. */
  lemma FailureLosesReply(m: Message)
    ensures Legal(ALL, INITIAL, LostReplyRun(m))
    ensures var s := Run(ALL, INITIAL, LostReplyRun(m));
            2 in s.replies && s.replies[2] == [Reply(m)] && !Answered(s.calls, Line(s), 2, [Reply(m)])
  {
    Starts(ALL);
    AnswerIsDelivered(m);
    FailureDropsAnswer(m);
    var end := Run(ALL, BothDelivered(m), FailingRun());
    LeadsOn(ALL, DELIVERED, AnswerRun(m), BothDelivered(m), FailingRun(), end);
    var rest := AnswerRun(m) + FailingRun();
    Prepend(ALL, COLLECTED, Deliver(false), DELIVERED, rest, end);
    Prepend(ALL, INITIAL, Collect, COLLECTED, [Deliver(false)] + rest, end);
  }
}
