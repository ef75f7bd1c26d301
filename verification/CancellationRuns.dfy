/** Cancellers, workers and polling handlers interleaved at every atomic access
    (`src/blocking_handler.rs`). A cancel holds the id lock from its insertion to after the
    generation bump, so the lookup of a poll waits for it; every other access may interleave. */
module CancellationRuns {
  import opened Messages
  import opened Cancellation

  /** Who holds the id lock: a canceller that inserted `id` (`added` says whether it was new) and
      has not bumped the generation yet, or one that has and will release next. */
  datatype Lock = Free | Inserted(id: string, added: bool) | Bumped

  /** A poll: latch not set, then generation loaded, then swapped into the cache, then looked up.
      `owed` is bookkeeping: the poll began after a cancel of its id had returned, and the id has been
      remembered ever since. */
  datatype PollPc = Unlatched | Loaded(now: nat) | Swapped | Looked(found: bool)
  datatype Poll = Poll(context: nat, pc: PollPc, owed: bool)

  /** A finished poll. */
  datatype Answer = Answer(context: nat, result: bool, owed: bool)

  /** A handler context; `answeredTrue` is bookkeeping. */
  datatype Context = Context(id: string, seen: nat, latch: bool, answeredTrue: bool)

  /** A worker between reading the generation and checking the id of its next job. */
  datatype Intake = Intake(id: string, generation: nat)

  datatype State = State(
    generation: nat,
    order: seq<string>,
    lock: Lock,
    contexts: map<nat, Context>,
    intakes: map<nat, Intake>,
    polls: map<nat, Poll>,
    everCancelled: set<string>,
    answers: seq<Answer>)

  const INITIAL := State(0, [], Free, map[], map[], map[], {}, [])

  datatype Action =
    | CancelInsert(id: string)
    | CancelBump
    | CancelReturn
    | IntakeLoad(worker: nat, id: string)
    | IntakeCheck(worker: nat, context: nat)
    | PollBegin(poll: nat, context: nat)
    | PollLoad(poll: nat)
    | PollSwap(poll: nat)
    | PollLookup(poll: nat)
    | PollStore(poll: nat)

  /** `onePoller` is the premise that a context is polled by one thread at a time. */
  predicate Enabled(onePoller: bool, s: State, a: Action) {
    match a
    case CancelInsert(_) => s.lock.Free?
    case CancelBump => s.lock.Inserted?
    case CancelReturn => s.lock.Bumped?
    case IntakeLoad(worker, _) => worker !in s.intakes
    case IntakeCheck(worker, context) => worker in s.intakes && context !in s.contexts && s.lock.Free?
    case PollBegin(poll, context) =>
      && poll !in s.polls && context in s.contexts
      && (onePoller ==> forall p :: p in s.polls ==> s.polls[p].context != context)
    case PollLoad(poll) => poll in s.polls && s.polls[poll].pc.Unlatched?
    case PollSwap(poll) => poll in s.polls && s.polls[poll].pc.Loaded? && s.polls[poll].context in s.contexts
    case PollLookup(poll) => poll in s.polls && s.polls[poll].pc.Swapped? && s.polls[poll].context in s.contexts && s.lock.Free?
    case PollStore(poll) => poll in s.polls && s.polls[poll].pc.Looked? && s.polls[poll].context in s.contexts
  }

  /** The id is remembered and the cancel that put it there has returned or at least bumped. */
  predicate Effective(s: State, id: string) {
    id in s.order && s.lock != Inserted(id, true)
  }

  function Finish(s: State, poll: nat, result: bool): (s': State)
    requires poll in s.polls && s.polls[poll].context in s.contexts
  {
    var p := s.polls[poll];
    var c := s.contexts[p.context];
    s.(polls := s.polls - {poll},
       contexts := s.contexts[p.context := c.(answeredTrue := c.answeredTrue || result)],
       answers := s.answers + [Answer(p.context, result, p.owed)])
  }

  /** Polls stop being owed an answer when their id is forgotten. */
  function StillOwed(s: State, order: seq<string>): (r: map<nat, Poll>) {
    map p | p in s.polls :: s.polls[p].(owed := s.polls[p].owed && s.polls[p].context in s.contexts && s.contexts[s.polls[p].context].id in order)
  }

  function Next(onePoller: bool, s: State, a: Action): (s': State)
    requires Enabled(onePoller, s, a)
  {
    match a
    case CancelInsert(id) =>
      var order := Remember(s.order, id);
      s.(order := order,
         lock := Inserted(id, id !in s.order),
         polls := StillOwed(s, order),
         everCancelled := s.everCancelled + {id})
    case CancelBump => s.(generation := s.generation + 1, lock := Bumped)
    case CancelReturn => s.(lock := Free)
    case IntakeLoad(worker, id) => s.(intakes := s.intakes[worker := Intake(id, s.generation)])
    case IntakeCheck(worker, context) =>
      var job := s.intakes[worker];
      if job.id in s.order then s.(intakes := s.intakes - {worker})
      else s.(intakes := s.intakes - {worker}, contexts := s.contexts[context := Context(job.id, job.generation, false, false)])
    case PollBegin(poll, context) =>
      var c := s.contexts[context];
      var started := s.(polls := s.polls[poll := Poll(context, Unlatched, Effective(s, c.id))]);
      if c.latch then Finish(started, poll, true) else started
    case PollLoad(poll) =>
      s.(polls := s.polls[poll := s.polls[poll].(pc := Loaded(s.generation))])
    case PollSwap(poll) =>
      var p := s.polls[poll];
      var c := s.contexts[p.context];
      var swapped := s.(contexts := s.contexts[p.context := c.(seen := p.pc.now)]);
      if c.seen == p.pc.now then Finish(swapped, poll, false)
      else swapped.(polls := s.polls[poll := p.(pc := Swapped)])
    case PollLookup(poll) =>
      var p := s.polls[poll];
      s.(polls := s.polls[poll := p.(pc := Looked(s.contexts[p.context].id in s.order))])
    case PollStore(poll) =>
      var p := s.polls[poll];
      var c := s.contexts[p.context];
      Finish(s.(contexts := s.contexts[p.context := c.(latch := p.pc.found)]), poll, p.pc.found)
  }

  predicate Legal(onePoller: bool, s: State, actions: seq<Action>)
    decreases |actions|
  {
    actions == [] ||
    (Enabled(onePoller, s, actions[0]) && Legal(onePoller, Next(onePoller, s, actions[0]), actions[1..]))
  }

  function Run(onePoller: bool, s: State, actions: seq<Action>): (s': State)
    requires Legal(onePoller, s, actions)
    decreases |actions|
  {
    if actions == [] then s else Run(onePoller, Next(onePoller, s, actions[0]), actions[1..])
  }

  // ---------------------------------------------------------------- what the runs keep

  ghost predicate MemoryInv(s: State) {
    && Distinct(s.order) && |s.order| <= CANCEL_MEMORY
    && Elements(s.order) <= s.everCancelled
    && (s.lock.Inserted? ==> s.lock.id in s.order)
  }

  /** The heart of the cache: while nothing is latched and no lookup is under way, an id whose cancel
      took effect leaves the cached generation behind. */
  ghost predicate CacheSound(s: State, c: Context) {
    c.seen <= s.generation && (Effective(s, c.id) && !c.latch ==> c.seen < s.generation)
  }

  ghost predicate ContextOk(s: State, c: Context) {
    && c.seen <= s.generation
    && (c.latch ==> c.id in s.everCancelled)
    && (c.answeredTrue ==> c.latch)
  }

  ghost predicate PollOk(s: State, p: Poll) {
    && p.context in s.contexts
    && var c := s.contexts[p.context];
    && !c.latch
    && (p.owed ==> c.id in s.order)
    && match p.pc
       case Unlatched => CacheSound(s, c) && (p.owed ==> c.seen < s.generation)
       case Loaded(now) => CacheSound(s, c) && now <= s.generation && (p.owed ==> c.seen < now)
       case Swapped => true
       case Looked(found) => (found ==> c.id in s.everCancelled) && (!found ==> CacheSound(s, c) && !p.owed)
  }

  /** A context nobody polls right now. */
  ghost predicate Unpolled(s: State, context: nat) {
    forall p :: p in s.polls ==> s.polls[p].context != context
  }

  ghost predicate PollsInv(s: State) {
    && (forall c :: c in s.contexts ==> ContextOk(s, s.contexts[c]) && (Unpolled(s, c) ==> CacheSound(s, s.contexts[c])))
    && (forall p :: p in s.polls ==> PollOk(s, s.polls[p]))
    && (forall p, q :: p in s.polls && q in s.polls && p != q ==> s.polls[p].context != s.polls[q].context)
    && (forall w :: w in s.intakes ==> s.intakes[w].generation <= s.generation)
  }

  ghost predicate AnswersInv(s: State) {
    && (forall i :: 0 <= i < |s.answers| ==> s.answers[i].context in s.contexts)
    && (forall i :: 0 <= i < |s.answers| && s.answers[i].result ==>
          s.contexts[s.answers[i].context].id in s.everCancelled && s.contexts[s.answers[i].context].answeredTrue)
    && (forall i :: 0 <= i < |s.answers| && !s.answers[i].result ==> !s.answers[i].owed)
    && (forall i, j :: 0 <= i < j < |s.answers| && s.answers[i].context == s.answers[j].context && s.answers[i].result ==> s.answers[j].result)
  }

  ghost predicate Inv(s: State) {
    MemoryInv(s) && PollsInv(s) && AnswersInv(s)
  }

  // ---------------------------------------------------------------- cancellers and workers

  lemma InsertKeepsMemory(s: State, id: string)
    requires MemoryInv(s) && s.lock.Free?
    ensures MemoryInv(Next(true, s, CancelInsert(id)))
  {
    RememberKeepsDistinct(s.order, id);
  }

  lemma InsertKeepsPolls(s: State, id: string)
    requires MemoryInv(s) && PollsInv(s) && s.lock.Free?
    ensures PollsInv(Next(true, s, CancelInsert(id)))
  {
    var s' := Next(true, s, CancelInsert(id));
    RememberKeepsDistinct(s.order, id);
    forall c | c in s.contexts && CacheSound(s, s.contexts[c]) ensures CacheSound(s', s.contexts[c]) {
      InsertKeepsCacheSound(s, s', id, s.contexts[c]);
    }
    forall c | c in s'.contexts ensures ContextOk(s', s'.contexts[c]) && (Unpolled(s', c) ==> CacheSound(s', s'.contexts[c])) {
      assert Unpolled(s', c) ==> Unpolled(s, c) by {
        assert forall p :: p in s.polls ==> s'.polls[p].context == s.polls[p].context;
      }
    }
    forall p | p in s'.polls ensures PollOk(s', s'.polls[p]) {
      assert PollOk(s, s.polls[p]);
    }
  }

  lemma InsertKeepsCacheSound(s: State, s': State, id: string, c: Context)
    requires CacheSound(s, c) && s.lock.Free?
    requires s'.order == Remember(s.order, id) && s'.lock == Inserted(id, id !in s.order) && s'.generation == s.generation
    ensures CacheSound(s', c)
  {
    if Effective(s', c.id) {
      assert c.id in s.order;
    }
  }

  lemma BumpKeepsInv(s: State)
    requires Inv(s) && s.lock.Inserted?
    ensures Inv(Next(true, s, CancelBump))
  {
    var s' := Next(true, s, CancelBump);
    forall c | c in s'.contexts ensures ContextOk(s', s'.contexts[c]) && (Unpolled(s', c) ==> CacheSound(s', s'.contexts[c])) {
      assert ContextOk(s, s.contexts[c]);
    }
    forall p | p in s'.polls ensures PollOk(s', s'.polls[p]) {
      assert PollOk(s, s.polls[p]) && ContextOk(s, s.contexts[s.polls[p].context]);
    }
  }

  lemma ReturnKeepsInv(s: State)
    requires Inv(s) && s.lock.Bumped?
    ensures Inv(Next(true, s, CancelReturn))
  {
    var s' := Next(true, s, CancelReturn);
    forall c | c in s'.contexts ensures ContextOk(s', s'.contexts[c]) && (Unpolled(s', c) ==> CacheSound(s', s'.contexts[c])) {
      assert Unpolled(s', c) ==> Unpolled(s, c);
    }
    forall p | p in s'.polls ensures PollOk(s', s'.polls[p]) {
      assert PollOk(s, s.polls[p]);
    }
  }

  lemma IntakeLoadKeepsInv(s: State, worker: nat, id: string)
    requires Inv(s) && Enabled(true, s, IntakeLoad(worker, id))
    ensures Inv(Next(true, s, IntakeLoad(worker, id)))
  {
    var s' := Next(true, s, IntakeLoad(worker, id));
    forall c | c in s'.contexts ensures ContextOk(s', s'.contexts[c]) && (Unpolled(s', c) ==> CacheSound(s', s'.contexts[c])) {
      assert Unpolled(s', c) ==> Unpolled(s, c);
    }
    forall p | p in s'.polls ensures PollOk(s', s'.polls[p]) {
      assert PollOk(s, s.polls[p]);
    }
  }

  lemma IntakeCheckKeepsInv(s: State, worker: nat, context: nat)
    requires Inv(s) && Enabled(true, s, IntakeCheck(worker, context))
    ensures Inv(Next(true, s, IntakeCheck(worker, context)))
  {
    var s' := Next(true, s, IntakeCheck(worker, context));
    forall c | c in s'.contexts ensures ContextOk(s', s'.contexts[c]) && (Unpolled(s', c) ==> CacheSound(s', s'.contexts[c])) {
      if c in s.contexts {
        assert Unpolled(s', c) ==> Unpolled(s, c);
      }
    }
    forall p | p in s'.polls ensures PollOk(s', s'.polls[p]) {
      assert PollOk(s, s.polls[p]);
    }
  }

  // ---------------------------------------------------------------- polls

  /** A step that changes one poll and the context it polls keeps the invariant if it keeps it there. */
  lemma PollStepKeepsPolls(s: State, s': State, poll: nat, context: nat)
    requires PollsInv(s)
    requires s'.generation == s.generation && s'.order == s.order && s'.lock == s.lock && s'.everCancelled == s.everCancelled
    requires s'.intakes == s.intakes
    requires context in s.contexts && context in s'.contexts && s'.contexts == s.contexts[context := s'.contexts[context]]
    requires s'.polls == (if poll in s'.polls then s.polls[poll := s'.polls[poll]] else s.polls - {poll})
    requires poll in s.polls ==> s.polls[poll].context == context
    requires poll !in s.polls ==> Unpolled(s, context)
    requires ContextOk(s', s'.contexts[context])
    requires poll in s'.polls ==> s'.polls[poll].context == context && PollOk(s', s'.polls[poll])
    requires poll !in s'.polls ==> CacheSound(s', s'.contexts[context])
    ensures PollsInv(s')
  {
    forall c | c in s'.contexts ensures ContextOk(s', s'.contexts[c]) && (Unpolled(s', c) ==> CacheSound(s', s'.contexts[c])) {
      if c != context {
        assert ContextOk(s, s.contexts[c]);
        if Unpolled(s', c) {
          forall p | p in s.polls ensures s.polls[p].context != c { assert p != poll ==> p in s'.polls && s'.polls[p] == s.polls[p]; }
          assert CacheSound(s, s.contexts[c]);
        }
      }
    }
    forall p | p in s'.polls ensures PollOk(s', s'.polls[p]) {
      if p != poll {
        assert p in s.polls && s'.polls[p] == s.polls[p] && PollOk(s, s.polls[p]);
        assert s.polls[p].context != context;
      }
    }
  }

  lemma AnswerKeepsAnswers(s: State, s': State, context: nat, result: bool, owed: bool)
    requires AnswersInv(s)
    requires s'.answers == s.answers + [Answer(context, result, owed)]
    requires s'.everCancelled == s.everCancelled
    requires context in s.contexts && context in s'.contexts && s'.contexts == s.contexts[context := s'.contexts[context]]
    requires s'.contexts[context].id == s.contexts[context].id
    requires s'.contexts[context].answeredTrue == (s.contexts[context].answeredTrue || result)
    requires result ==> s.contexts[context].id in s.everCancelled
    requires !result ==> !owed && !s.contexts[context].answeredTrue
    ensures AnswersInv(s')
  {
    forall i | 0 <= i < |s.answers| && s.answers[i].result
      ensures s'.contexts[s.answers[i].context].id in s'.everCancelled && s'.contexts[s.answers[i].context].answeredTrue
    {
      assert s.contexts[s.answers[i].context].answeredTrue;
    }
  }

  lemma SameAnswers(s: State, s': State, context: nat)
    requires AnswersInv(s)
    requires s'.answers == s.answers && s'.everCancelled == s.everCancelled
    requires context in s.contexts && context in s'.contexts && s'.contexts == s.contexts[context := s'.contexts[context]]
    requires s'.contexts[context].id == s.contexts[context].id && s'.contexts[context].answeredTrue == s.contexts[context].answeredTrue
    ensures AnswersInv(s')
  {
    forall i | 0 <= i < |s.answers| ensures s'.contexts[s.answers[i].context].id == s.contexts[s.answers[i].context].id { }
  }

  lemma PollBeginKeepsInv(s: State, poll: nat, context: nat)
    requires Inv(s) && Enabled(true, s, PollBegin(poll, context))
    ensures Inv(Next(true, s, PollBegin(poll, context)))
  {
    var s' := Next(true, s, PollBegin(poll, context));
    var c := s.contexts[context];
    assert ContextOk(s, c) && Unpolled(s, context) && CacheSound(s, c);
    if c.latch {
      assert s'.polls == s.polls - {poll};
      AnswerKeepsAnswers(s, s', context, true, Effective(s, c.id));
    } else {
      assert s'.contexts == s.contexts[context := c];
      SameAnswers(s, s', context);
    }
    PollStepKeepsPolls(s, s', poll, context);
  }

  lemma PollLoadKeepsInv(s: State, poll: nat)
    requires Inv(s) && Enabled(true, s, PollLoad(poll))
    ensures Inv(Next(true, s, PollLoad(poll)))
  {
    var s' := Next(true, s, PollLoad(poll));
    var context := s.polls[poll].context;
    assert PollOk(s, s.polls[poll]) && ContextOk(s, s.contexts[context]);
    assert s'.contexts == s.contexts[context := s.contexts[context]];
    SameAnswers(s, s', context);
    PollStepKeepsPolls(s, s', poll, context);
  }

  lemma PollSwapKeepsInv(s: State, poll: nat)
    requires Inv(s) && Enabled(true, s, PollSwap(poll))
    ensures Inv(Next(true, s, PollSwap(poll)))
  {
    var s' := Next(true, s, PollSwap(poll));
    var p := s.polls[poll];
    var c := s.contexts[p.context];
    assert PollOk(s, p) && ContextOk(s, c);
    if c.seen == p.pc.now {
      assert s'.contexts == s.contexts[p.context := s'.contexts[p.context]];
      AnswerKeepsAnswers(s, s', p.context, false, p.owed);
    } else {
      SameAnswers(s, s', p.context);
    }
    PollStepKeepsPolls(s, s', poll, p.context);
  }

  lemma PollLookupKeepsInv(s: State, poll: nat)
    requires Inv(s) && Enabled(true, s, PollLookup(poll))
    ensures Inv(Next(true, s, PollLookup(poll)))
  {
    var s' := Next(true, s, PollLookup(poll));
    var p := s.polls[poll];
    assert PollOk(s, p) && ContextOk(s, s.contexts[p.context]);
    assert s'.contexts == s.contexts[p.context := s.contexts[p.context]];
    SameAnswers(s, s', p.context);
    PollStepKeepsPolls(s, s', poll, p.context);
  }

  lemma PollStoreKeepsInv(s: State, poll: nat)
    requires Inv(s) && Enabled(true, s, PollStore(poll))
    ensures Inv(Next(true, s, PollStore(poll)))
  {
    var s' := Next(true, s, PollStore(poll));
    var p := s.polls[poll];
    assert PollOk(s, p) && ContextOk(s, s.contexts[p.context]);
    assert s'.contexts == s.contexts[p.context := s'.contexts[p.context]];
    AnswerKeepsAnswers(s, s', p.context, p.pc.found, p.owed);
    PollStepKeepsPolls(s, s', poll, p.context);
  }

  lemma StepKeepsInv(s: State, a: Action)
    requires Inv(s) && Enabled(true, s, a)
    ensures Inv(Next(true, s, a))
  {
    match a {
      case CancelInsert(id) =>
        InsertKeepsMemory(s, id);
        InsertKeepsPolls(s, id);
      case CancelBump => BumpKeepsInv(s);
      case CancelReturn => ReturnKeepsInv(s);
      case IntakeLoad(worker, id) => IntakeLoadKeepsInv(s, worker, id);
      case IntakeCheck(worker, context) => IntakeCheckKeepsInv(s, worker, context);
      case PollBegin(poll, context) => PollBeginKeepsInv(s, poll, context);
      case PollLoad(poll) => PollLoadKeepsInv(s, poll);
      case PollSwap(poll) => PollSwapKeepsInv(s, poll);
      case PollLookup(poll) => PollLookupKeepsInv(s, poll);
      case PollStore(poll) => PollStoreKeepsInv(s, poll);
    }
  }

  lemma {:induction false} RunKeepsInv(s: State, actions: seq<Action>)
    requires Inv(s) && Legal(true, s, actions)
    ensures Inv(Run(true, s, actions))
    decreases |actions|
  {
    if actions != [] {
      StepKeepsInv(s, actions[0]);
      RunKeepsInv(Next(true, s, actions[0]), actions[1..]);
    }
  }

  /** The cached check refines the direct lookup: a poll that began after a cancel of its id took
      effect, with the id remembered since, never answers false. */
  lemma CancelledPollAnswersTrue(actions: seq<Action>, i: nat)
    requires Legal(true, INITIAL, actions)
    requires var answers := Run(true, INITIAL, actions).answers; i < |answers| && answers[i].owed
    ensures Run(true, INITIAL, actions).answers[i].result
  {
    RunKeepsInv(INITIAL, actions);
  }

  /** True is permanent, even after the id is forgotten. */
  lemma TrueIsPermanent(actions: seq<Action>, i: nat, j: nat)
    requires Legal(true, INITIAL, actions)
    requires var answers := Run(true, INITIAL, actions).answers;
             i < j < |answers| && answers[i].context == answers[j].context && answers[i].result
    ensures Run(true, INITIAL, actions).answers[j].result
  {
    RunKeepsInv(INITIAL, actions);
  }

  /** Whatever answers true goes back to a cancel of that id; this needs no limit on pollers. */
  ghost predicate TrueIsEarned(s: State) {
    && Elements(s.order) <= s.everCancelled
    && (forall c :: c in s.contexts && s.contexts[c].latch ==> s.contexts[c].id in s.everCancelled)
    && (forall p :: p in s.polls ==> s.polls[p].context in s.contexts)
    && (forall p :: p in s.polls && s.polls[p].pc.Looked? && s.polls[p].pc.found ==> s.contexts[s.polls[p].context].id in s.everCancelled)
    && (forall i :: 0 <= i < |s.answers| ==> s.answers[i].context in s.contexts)
    && (forall i :: 0 <= i < |s.answers| && s.answers[i].result ==> s.contexts[s.answers[i].context].id in s.everCancelled)
  }

  /** A poll step keeps it if the one context and the one answer it may write are earned. */
  lemma PollStepKeepsEarned(s: State, s': State, poll: nat, context: nat)
    requires TrueIsEarned(s) && context in s.contexts && context in s'.contexts
    requires s'.order == s.order && s'.everCancelled == s.everCancelled
    requires s'.contexts == s.contexts[context := s'.contexts[context]] && s'.contexts[context].id == s.contexts[context].id
    requires s'.contexts[context].latch ==> s.contexts[context].id in s.everCancelled
    requires s'.polls == (if poll in s'.polls then s.polls[poll := s'.polls[poll]] else s.polls - {poll})
    requires poll in s'.polls ==> s'.polls[poll].context == context
    requires poll in s'.polls && s'.polls[poll].pc.Looked? && s'.polls[poll].pc.found ==> s.contexts[context].id in s.everCancelled
    requires s'.answers == s.answers || (|s'.answers| == |s.answers| + 1 && s'.answers[..|s.answers|] == s.answers
               && s'.answers[|s.answers|].context == context
               && (s'.answers[|s.answers|].result ==> s.contexts[context].id in s.everCancelled))
    ensures TrueIsEarned(s')
  {
    forall c | c in s'.contexts ensures s'.contexts[c].id == s.contexts[c].id { }
    forall i | 0 <= i < |s.answers| ensures s'.answers[i] == s.answers[i] {
      assert s'.answers == s.answers || s'.answers[i] == s'.answers[..|s.answers|][i];
    }
  }

  lemma StepKeepsEarned(onePoller: bool, s: State, a: Action)
    requires TrueIsEarned(s) && Enabled(onePoller, s, a)
    ensures TrueIsEarned(Next(onePoller, s, a))
  {
    if a.PollBegin? {
      PollBeginKeepsEarned(onePoller, s, a.poll, a.context);
    } else if a.PollLoad? || a.PollSwap? || a.PollLookup? || a.PollStore? {
      PollingKeepsEarned(onePoller, s, a);
    } else {
      OtherStepKeepsEarned(onePoller, s, a);
    }
  }

  lemma PollBeginKeepsEarned(onePoller: bool, s: State, poll: nat, context: nat)
    requires TrueIsEarned(s) && Enabled(onePoller, s, PollBegin(poll, context))
    ensures TrueIsEarned(Next(onePoller, s, PollBegin(poll, context)))
  {
    var s' := Next(onePoller, s, PollBegin(poll, context));
    assert s'.contexts == s.contexts[context := s'.contexts[context]];
    assert s.contexts[context].latch ==> s'.polls == s.polls - {poll};
    PollStepKeepsEarned(s, s', poll, context);
  }

  lemma PollingKeepsEarned(onePoller: bool, s: State, a: Action)
    requires TrueIsEarned(s) && Enabled(onePoller, s, a) && (a.PollLoad? || a.PollSwap? || a.PollLookup? || a.PollStore?)
    ensures TrueIsEarned(Next(onePoller, s, a))
  {
    var s', context := Next(onePoller, s, a), s.polls[a.poll].context;
    var id := s.contexts[context].id;
    assert id in s.order ==> id in Elements(s.order);
    assert s'.contexts == s.contexts[context := s'.contexts[context]];
    PollStepKeepsEarned(s, s', a.poll, context);
  }

  lemma OtherStepKeepsEarned(onePoller: bool, s: State, a: Action)
    requires TrueIsEarned(s) && Enabled(onePoller, s, a)
    requires a.CancelInsert? || a.CancelBump? || a.CancelReturn? || a.IntakeLoad? || a.IntakeCheck?
    ensures TrueIsEarned(Next(onePoller, s, a))
  {
    if a.CancelInsert? {
      RememberedIsEarned(s.order, a.id, s.everCancelled);
    }
  }

  lemma RememberedIsEarned(order: seq<string>, id: string, ever: set<string>)
    requires Elements(order) <= ever
    ensures Elements(Remember(order, id)) <= ever + {id}
  {
    forall x | x in Remember(order, id) ensures x in ever + {id} {
      assert x in order ==> x in Elements(order);
    }
  }

  lemma {:induction false} RunKeepsEarned(onePoller: bool, s: State, actions: seq<Action>)
    requires TrueIsEarned(s) && Legal(onePoller, s, actions)
    ensures TrueIsEarned(Run(onePoller, s, actions))
    decreases |actions|
  {
    if actions != [] {
      StepKeepsEarned(onePoller, s, actions[0]);
      RunKeepsEarned(onePoller, Next(onePoller, s, actions[0]), actions[1..]);
    }
  }

  /** True is never answered for an id nobody cancelled, with any number of threads polling a context. */
  lemma TrueOnlyIfCancelled(actions: seq<Action>, i: nat)
    requires Legal(false, INITIAL, actions)
    requires var answers := Run(false, INITIAL, actions).answers; i < |answers| && answers[i].result
    ensures var s := Run(false, INITIAL, actions);
            s.answers[i].context in s.contexts && s.contexts[s.answers[i].context].id in s.everCancelled
  {
    RunKeepsEarned(false, INITIAL, actions);
  }

  // ---------------------------------------------------------------- the same, from the run alone

  /** The id of a context is remembered after each of the actions. */
  /** A worker that loaded the generation for its job keeps what it loaded until it checks the job. */
  lemma {:induction false} IntakeStays(onePoller: bool, s: State, actions: seq<Action>, worker: nat)
    requires Legal(onePoller, s, actions) && worker in s.intakes
    requires forall i :: 0 <= i < |actions| ==> !(actions[i].IntakeCheck? && actions[i].worker == worker)
    ensures var s' := Run(onePoller, s, actions); worker in s'.intakes && s'.intakes[worker] == s.intakes[worker]
    decreases |actions|
  {
    if actions != [] {
      IntakeStays(onePoller, Next(onePoller, s, actions[0]), actions[1..], worker);
    }
  }

  /** The check looks at the memory after the load: whatever else happened in between, a job that passes
      starts from the generation loaded before the check, so a later cancel differs from it. */
  lemma IntakeLoadsBeforeItChecks(onePoller: bool, s: State, worker: nat, id: string, actions: seq<Action>, context: nat, s1: State, s2: State)
    requires Enabled(onePoller, s, IntakeLoad(worker, id)) && s1 == Next(onePoller, s, IntakeLoad(worker, id))
    requires forall i :: 0 <= i < |actions| ==> !(actions[i].IntakeCheck? && actions[i].worker == worker)
    requires Legal(onePoller, s1, actions) && s2 == Run(onePoller, s1, actions)
    requires Enabled(onePoller, s2, IntakeCheck(worker, context))
    ensures var s' := Next(onePoller, s2, IntakeCheck(worker, context));
            && (context in s'.contexts <==> id !in s2.order)
            && (id !in s2.order ==> s'.contexts[context] == Context(id, s.generation, false, false))
            && worker !in s'.intakes
  {
    IntakeStays(onePoller, s1, actions, worker);
  }

  predicate RememberedThroughout(s: State, actions: seq<Action>, id: string)
    requires Legal(true, s, actions)
    decreases |actions|
  {
    id in s.order && (actions == [] || RememberedThroughout(Next(true, s, actions[0]), actions[1..], id))
  }

  /** What the poll is owed in `s`: it is under way and its id was cancelled before it began. */
  predicate Owing(s: State, poll: nat, context: nat) {
    poll in s.polls && s.polls[poll].context == context && s.polls[poll].owed
  }

  predicate AnsweredTrue(s: State, context: nat, from: nat) {
    exists i :: from <= i < |s.answers| && s.answers[i].context == context && s.answers[i].result
  }

  predicate NoAnswer(answers: seq<Answer>, context: nat, from: nat) {
    forall i :: from <= i < |answers| ==> answers[i].context != context
  }

  predicate OnlyTrue(answers: seq<Answer>, context: nat, from: nat) {
    forall i :: from <= i < |answers| && answers[i].context == context ==> answers[i].result
  }

  /** Still owed an answer and none given, or answered with true. */
  ghost predicate Served(s: State, poll: nat, context: nat, from: nat) {
    && context in s.contexts && from <= |s.answers|
    && ((Owing(s, poll, context) && NoAnswer(s.answers, context, from)) || (AnsweredTrue(s, context, from) && OnlyTrue(s.answers, context, from)))
  }

  /** A step leaves an owed poll under way and its context without a new answer, or answers it. */
  lemma OwedStep(s: State, a: Action, poll: nat, context: nat)
    requires PollsInv(s) && Enabled(true, s, a) && Owing(s, poll, context) && context in s.contexts
    requires s.contexts[context].id in Next(true, s, a).order
    ensures var s' := Next(true, s, a);
            && s.answers <= s'.answers && |s'.answers| <= |s.answers| + 1
            && (|| (Owing(s', poll, context) && (|s'.answers| > |s.answers| ==> s'.answers[|s.answers|].context != context))
                || (|s'.answers| > |s.answers| && s'.answers[|s.answers|].context == context && s'.answers[|s.answers|].owed))
  {
    if a.PollBegin? || a.PollSwap? || a.PollStore? {
      AnsweringStep(s, a, poll, context);
    }
  }

  lemma AnsweringStep(s: State, a: Action, poll: nat, context: nat)
    requires PollsInv(s) && Enabled(true, s, a) && Owing(s, poll, context) && context in s.contexts
    requires a.PollBegin? || a.PollSwap? || a.PollStore?
    ensures var s' := Next(true, s, a);
            && s.answers <= s'.answers && |s'.answers| <= |s.answers| + 1
            && (|| (Owing(s', poll, context) && (|s'.answers| > |s.answers| ==> s'.answers[|s.answers|].context != context))
                || (|s'.answers| > |s.answers| && s'.answers[|s.answers|].context == context && s'.answers[|s.answers|].owed))
  {
  }

  lemma StepShape(s: State, a: Action, context: nat)
    requires Enabled(true, s, a) && context in s.contexts
    ensures var s' := Next(true, s, a);
            && context in s'.contexts && s'.contexts[context].id == s.contexts[context].id
            && s.answers <= s'.answers && |s'.answers| <= |s.answers| + 1
  {
  }

  lemma StepServes(s: State, a: Action, s': State, poll: nat, context: nat, from: nat)
    requires Inv(s) && Enabled(true, s, a) && s' == Next(true, s, a) && Served(s, poll, context, from)
    requires s.contexts[context].id in s'.order
    ensures Served(s', poll, context, from)
  {
    StepKeepsInv(s, a);
    StepShape(s, a, context);
    if AnsweredTrue(s, context, from) && OnlyTrue(s.answers, context, from) {
      TrueStays(s, s', context, from);
    } else {
      OwedStep(s, a, poll, context);
      OwedServes(s, s', poll, context, from);
    }
  }

  lemma TrueStays(s: State, s': State, context: nat, from: nat)
    requires AnswersInv(s') && s.answers <= s'.answers && |s'.answers| <= |s.answers| + 1
    requires AnsweredTrue(s, context, from) && OnlyTrue(s.answers, context, from)
    ensures AnsweredTrue(s', context, from) && OnlyTrue(s'.answers, context, from)
  {
    var i :| from <= i < |s.answers| && s.answers[i].context == context && s.answers[i].result;
    assert s'.answers[i] == s.answers[i];
  }

  lemma OwedServes(s: State, s': State, poll: nat, context: nat, from: nat)
    requires AnswersInv(s') && s.answers <= s'.answers && |s'.answers| <= |s.answers| + 1 && from <= |s.answers|
    requires context in s'.contexts && NoAnswer(s.answers, context, from)
    requires var n := |s.answers|;
             || (Owing(s', poll, context) && (|s'.answers| > n ==> s'.answers[n].context != context))
             || (|s'.answers| > n && s'.answers[n].context == context && s'.answers[n].owed)
    ensures Served(s', poll, context, from)
  {
    var n := |s.answers|;
    assert forall i :: 0 <= i < n ==> s'.answers[i] == s.answers[i];
    if n < |s'.answers| && s'.answers[n].context == context {
      assert s'.answers[n].result;
    }
  }

  lemma {:induction false} RunServes(s: State, actions: seq<Action>, poll: nat, context: nat, from: nat)
    requires Inv(s) && Legal(true, s, actions) && Served(s, poll, context, from)
    requires RememberedThroughout(s, actions, s.contexts[context].id)
    ensures Served(Run(true, s, actions), poll, context, from)
    decreases |actions|
  {
    if actions != [] {
      var s1 := Next(true, s, actions[0]);
      StepKeepsInv(s, actions[0]);
      StepShape(s, actions[0], context);
      StepServes(s, actions[0], s1, poll, context, from);
      RunServes(s1, actions[1..], poll, context, from);
    }
  }

  lemma BeginServes(s: State, poll: nat, context: nat)
    requires Inv(s) && Enabled(true, s, PollBegin(poll, context)) && s.lock.Free? && s.contexts[context].id in s.order
    ensures var s1 := Next(true, s, PollBegin(poll, context));
            Served(s1, poll, context, |s.answers|) && s1.contexts[context].id == s.contexts[context].id
  {
    var s1 := Next(true, s, PollBegin(poll, context));
    if s.contexts[context].latch {
      assert s1.answers[|s.answers|] == Answer(context, true, true);
    }
  }

  /** In terms of the run alone: in any reachable state whose cancel of an id has returned, a poll of a
      context with that id begins; the id stays remembered; once that poll is no longer under way, every
      answer its context got since is true, and there is one. */
  lemma PollAfterCancelAnswersTrue(before: seq<Action>, poll: nat, context: nat, rest: seq<Action>, s: State, s1: State, end: State)
    requires Legal(true, INITIAL, before) && s == Run(true, INITIAL, before)
    requires Enabled(true, s, PollBegin(poll, context)) && s1 == Next(true, s, PollBegin(poll, context))
    requires s.lock.Free? && s.contexts[context].id in s.order
    requires Legal(true, s1, rest) && end == Run(true, s1, rest) && RememberedThroughout(s1, rest, s.contexts[context].id)
    requires poll !in end.polls
    ensures exists i :: |s.answers| <= i < |end.answers| && end.answers[i].context == context && end.answers[i].result
    ensures forall i :: |s.answers| <= i < |end.answers| && end.answers[i].context == context ==> end.answers[i].result
  {
    RunKeepsInv(INITIAL, before);
    BeginServes(s, poll, context);
    StepKeepsInv(s, PollBegin(poll, context));
    RunServes(s1, rest, poll, context, |s.answers|);
  }

  // ---------------------------------------------------------------- why one poller is needed

  function CancelNow(id: string): (r: seq<Action>) {
    [CancelInsert(id), CancelBump, CancelReturn]
  }

  /** Poll 1 looks the id up before it is cancelled, poll 2 after; poll 1 then overwrites the latch
      and poll 3 finds the generation unchanged. */
  function TwoPollersRun(x: string, y: string): (r: seq<Action>) {
    FirstHalf(x, y) + (SecondPoll() + Tail())
  }

  function FirstHalf(x: string, y: string): (r: seq<Action>) {
    [IntakeLoad(0, x), IntakeCheck(0, 0)] + (CancelNow(y) + (FirstPoll() + CancelNow(x)))
  }

  /** One step in front of a run. */
  lemma Prepend(onePoller: bool, s: State, a: Action, s1: State, rest: seq<Action>, end: State)
    requires Enabled(onePoller, s, a) && Next(onePoller, s, a) == s1
    requires Legal(onePoller, s1, rest) && Run(onePoller, s1, rest) == end
    ensures Legal(onePoller, s, [a] + rest) && Run(onePoller, s, [a] + rest) == end
  {
    assert ([a] + rest)[1..] == rest;
  }

  lemma {:induction false} RunSplits(s: State, first: seq<Action>, rest: seq<Action>)
    requires Legal(false, s, first) && Legal(false, Run(false, s, first), rest)
    ensures Legal(false, s, first + rest) && Run(false, s, first + rest) == Run(false, Run(false, s, first), rest)
    decreases |first|
  {
    if first == [] {
      assert first + rest == rest;
    } else {
      assert (first + rest)[1..] == first[1..] + rest;
      RunSplits(Next(false, s, first[0]), first[1..], rest);
    }
  }

  lemma CancelRuns(s: State, id: string, s': State)
    requires s.lock.Free? && id !in s.order && |s.order| < CANCEL_MEMORY
    requires s' == s.(order := s.order + [id], generation := s.generation + 1,
                      polls := StillOwed(s, s.order + [id]), everCancelled := s.everCancelled + {id})
    ensures Legal(false, s, CancelNow(id)) && Run(false, s, CancelNow(id)) == s'
  {
    var s1 := s'.(lock := Inserted(id, true), generation := s.generation);
    var s2 := s'.(lock := Bumped);
    Prepend(false, s2, CancelReturn, s', [], s');
    Prepend(false, s1, CancelBump, s2, [CancelReturn], s');
    Prepend(false, s, CancelInsert(id), s1, [CancelBump] + [CancelReturn], s');
    assert [CancelInsert(id)] + ([CancelBump] + [CancelReturn]) == CancelNow(id);
  }

  function PollInside(id: string, other: string, worker: nat, poll: nat, context: nat): (r: seq<Action>) {
    [CancelInsert(id)] + ([IntakeLoad(worker, other)] + ([PollBegin(poll, context)] + ([PollLoad(poll)] + [PollSwap(poll)])))
  }

  /** Why a poll is only owed a true when the cancel had bumped the generation before it began: between the
      insert and the bump, with the id remembered already, loads go on without the lock and a poll answers false. */
  lemma PollInsideCancelAnswersFalse(s: State, id: string, other: string, worker: nat, poll: nat, context: nat)
    requires s.lock.Free? && id !in s.order && |s.order| < CANCEL_MEMORY && worker !in s.intakes
    requires poll !in s.polls && forall p :: p in s.polls ==> s.polls[p].context != context
    requires context in s.contexts && s.contexts[context] == Context(id, s.generation, false, false)
    ensures var run := PollInside(id, other, worker, poll, context);
            && Legal(true, s, run)
            && var s' := Run(true, s, run);
               id in s'.order && s'.answers == s.answers + [Answer(context, false, false)]
  {
    var s1 := Next(true, s, CancelInsert(id));
    var s2 := Next(true, s1, IntakeLoad(worker, other));
    var s3 := Next(true, s2, PollBegin(poll, context));
    var s4 := Next(true, s3, PollLoad(poll));
    var s5 := Next(true, s4, PollSwap(poll));
    assert s5.answers == s.answers + [Answer(context, false, false)];
    Prepend(true, s4, PollSwap(poll), s5, [], s5);
    assert [PollSwap(poll)] + [] == [PollSwap(poll)];
    Prepend(true, s3, PollLoad(poll), s4, [PollSwap(poll)], s5);
    Prepend(true, s2, PollBegin(poll, context), s3, [PollLoad(poll)] + [PollSwap(poll)], s5);
    Prepend(true, s1, IntakeLoad(worker, other), s2, [PollBegin(poll, context)] + ([PollLoad(poll)] + [PollSwap(poll)]), s5);
    Prepend(true, s, CancelInsert(id), s1, PollInside(id, other, worker, poll, context)[1..], s5);
  }

  function HalfWay(x: string, y: string): (s: State) {
    State(2, [y, x], Free, map[0 := Context(x, 1, false, false)], map[],
          map[1 := Poll(0, Looked(false), false)], {y, x}, [])
  }

  function Warm(x: string, y: string): (s: State) {
    INITIAL.(generation := 1, order := [y], everCancelled := {y}, contexts := map[0 := Context(x, 0, false, false)])
  }

  function FirstPoll(): (r: seq<Action>) {
    [PollBegin(1, 0), PollLoad(1), PollSwap(1), PollLookup(1)]
  }

  function Missed(x: string, y: string): (s: State) {
    Warm(x, y).(contexts := map[0 := Context(x, 1, false, false)], polls := map[1 := Poll(0, Looked(false), false)])
  }

  lemma FirstPollRuns(x: string, y: string)
    requires x != y
    ensures Legal(false, Warm(x, y), FirstPoll()) && Run(false, Warm(x, y), FirstPoll()) == Missed(x, y)
  {
    var s0, s4 := Warm(x, y), Missed(x, y);
    var s1 := s0.(polls := map[1 := Poll(0, Unlatched, false)]);
    var s2 := s0.(polls := map[1 := Poll(0, Loaded(1), false)]);
    var s3 := s4.(polls := map[1 := Poll(0, Swapped, false)]);
    Prepend(false, s3, PollLookup(1), s4, [], s4);
    Prepend(false, s2, PollSwap(1), s3, [PollLookup(1)], s4);
    Prepend(false, s1, PollLoad(1), s2, [PollSwap(1)] + [PollLookup(1)], s4);
    Prepend(false, s0, PollBegin(1, 0), s1, [PollLoad(1)] + ([PollSwap(1)] + [PollLookup(1)]), s4);
    assert [PollBegin(1, 0)] + ([PollLoad(1)] + ([PollSwap(1)] + [PollLookup(1)])) == FirstPoll();
  }

  lemma MissedCancelRuns(x: string, y: string)
    requires x != y
    ensures Legal(false, Missed(x, y), CancelNow(x)) && Run(false, Missed(x, y), CancelNow(x)) == HalfWay(x, y)
  {
    var s := Missed(x, y);
    assert s.order + [x] == [y, x] && s.everCancelled + {x} == {y, x};
    CancelRuns(s, x, HalfWay(x, y));
  }

  lemma FirstHalfRuns(x: string, y: string)
    requires x != y
    ensures Legal(false, INITIAL, FirstHalf(x, y)) && Run(false, INITIAL, FirstHalf(x, y)) == HalfWay(x, y)
  {
    var s1 := INITIAL.(intakes := map[0 := Intake(x, 0)]);
    var s2 := INITIAL.(contexts := map[0 := Context(x, 0, false, false)]);
    assert s2.order + [y] == [y] && s2.everCancelled + {y} == {y};
    CancelRuns(s2, y, Warm(x, y));
    FirstPollRuns(x, y);
    MissedCancelRuns(x, y);
    RunSplits(Warm(x, y), FirstPoll(), CancelNow(x));
    RunSplits(s2, CancelNow(y), FirstPoll() + CancelNow(x));
    var rest := CancelNow(y) + (FirstPoll() + CancelNow(x));
    Prepend(false, s1, IntakeCheck(0, 0), s2, rest, HalfWay(x, y));
    Prepend(false, INITIAL, IntakeLoad(0, x), s1, [IntakeCheck(0, 0)] + rest, HalfWay(x, y));
    assert [IntakeLoad(0, x)] + ([IntakeCheck(0, 0)] + rest) == FirstHalf(x, y);
  }

  function SecondPoll(): (r: seq<Action>) {
    [PollBegin(2, 0), PollLoad(2)] + [PollSwap(2), PollLookup(2), PollStore(2)]
  }

  function Reloaded(x: string, y: string): (s: State) {
    HalfWay(x, y).(polls := map[1 := Poll(0, Looked(false), false), 2 := Poll(0, Loaded(2), true)])
  }

  function Latched(x: string, y: string): (s: State) {
    HalfWay(x, y).(contexts := map[0 := Context(x, 2, true, true)], answers := [Answer(0, true, true)])
  }

  lemma SecondPollLoads(x: string, y: string)
    ensures var run := [PollBegin(2, 0), PollLoad(2)];
            Legal(false, HalfWay(x, y), run) && Run(false, HalfWay(x, y), run) == Reloaded(x, y)
  {
    var s0, s2 := HalfWay(x, y), Reloaded(x, y);
    var s1 := s0.(polls := map[1 := Poll(0, Looked(false), false), 2 := Poll(0, Unlatched, true)]);
    Prepend(false, s1, PollLoad(2), s2, [], s2);
    Prepend(false, s0, PollBegin(2, 0), s1, [PollLoad(2)], s2);
    assert [PollBegin(2, 0)] + [PollLoad(2)] == [PollBegin(2, 0), PollLoad(2)];
  }

  lemma SecondPollLatches(x: string, y: string)
    ensures var run := [PollSwap(2), PollLookup(2), PollStore(2)];
            Legal(false, Reloaded(x, y), run) && Run(false, Reloaded(x, y), run) == Latched(x, y)
  {
    var s2, end := Reloaded(x, y), Latched(x, y);
    var one := Poll(0, Looked(false), false);
    var hot := s2.(contexts := map[0 := Context(x, 2, false, false)]);
    var s3 := hot.(polls := map[1 := one, 2 := Poll(0, Swapped, true)]);
    var s4 := hot.(polls := map[1 := one, 2 := Poll(0, Looked(true), true)]);
    Prepend(false, s4, PollStore(2), end, [], end);
    Prepend(false, s3, PollLookup(2), s4, [PollStore(2)], end);
    Prepend(false, s2, PollSwap(2), s3, [PollLookup(2)] + [PollStore(2)], end);
    assert [PollSwap(2)] + ([PollLookup(2)] + [PollStore(2)]) == [PollSwap(2), PollLookup(2), PollStore(2)];
  }

  lemma SecondPollRuns(x: string, y: string)
    ensures Legal(false, HalfWay(x, y), SecondPoll()) && Run(false, HalfWay(x, y), SecondPoll()) == Latched(x, y)
  {
    SecondPollLoads(x, y);
    SecondPollLatches(x, y);
    RunSplits(HalfWay(x, y), [PollBegin(2, 0), PollLoad(2)], [PollSwap(2), PollLookup(2), PollStore(2)]);
  }

  function Tail(): (r: seq<Action>) {
    [PollStore(1), PollBegin(3, 0), PollLoad(3), PollSwap(3)]
  }

  lemma LastPollRuns(x: string, y: string)
    ensures Legal(false, Latched(x, y), Tail())
    ensures Run(false, Latched(x, y), Tail()).answers == [Answer(0, true, true), Answer(0, false, false), Answer(0, false, true)]
  {
    var s5 := Latched(x, y);
    var s6 := s5.(contexts := map[0 := Context(x, 2, false, true)], polls := map[], answers := s5.answers + [Answer(0, false, false)]);
    var s7 := s6.(polls := map[3 := Poll(0, Unlatched, true)]);
    var s8 := s6.(polls := map[3 := Poll(0, Loaded(2), true)]);
    var end := s6.(answers := s6.answers + [Answer(0, false, true)]);
    TailRuns(s5, s6, s7, s8, end);
  }

  /** With two threads polling one context both promises break: a later poll answers false after a
      true, with the id cancelled and remembered all along. */
  lemma TwoPollersLoseTheLatch(x: string, y: string)
    requires x != y
    ensures Legal(false, INITIAL, TwoPollersRun(x, y))
    ensures Run(false, INITIAL, TwoPollersRun(x, y)).answers == [Answer(0, true, true), Answer(0, false, false), Answer(0, false, true)]
  {
    FirstHalfRuns(x, y);
    SecondPollRuns(x, y);
    LastPollRuns(x, y);
    RunSplits(HalfWay(x, y), SecondPoll(), Tail());
    RunSplits(INITIAL, FirstHalf(x, y), SecondPoll() + Tail());
  }

  lemma TailRuns(s5: State, s6: State, s7: State, s8: State, end: State)
    requires Enabled(false, s5, PollStore(1)) && Next(false, s5, PollStore(1)) == s6
    requires Enabled(false, s6, PollBegin(3, 0)) && Next(false, s6, PollBegin(3, 0)) == s7
    requires Enabled(false, s7, PollLoad(3)) && Next(false, s7, PollLoad(3)) == s8
    requires Enabled(false, s8, PollSwap(3)) && Next(false, s8, PollSwap(3)) == end
    ensures Legal(false, s5, Tail()) && Run(false, s5, Tail()) == end
  {
    Prepend(false, s8, PollSwap(3), end, [], end);
    Prepend(false, s7, PollLoad(3), s8, [PollSwap(3)], end);
    Prepend(false, s6, PollBegin(3, 0), s7, [PollLoad(3)] + [PollSwap(3)], end);
    Prepend(false, s5, PollStore(1), s6, [PollBegin(3, 0)] + ([PollLoad(3)] + [PollSwap(3)]), end);
    assert [PollStore(1)] + ([PollBegin(3, 0)] + ([PollLoad(3)] + [PollSwap(3)])) == Tail();
  }
}
