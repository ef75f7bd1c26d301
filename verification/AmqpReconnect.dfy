/** Reconnect generations of the AMQP publisher (`src/endpoints/amqp.rs`, `get_channel` and
    `reconnect`): any number of workers share one channel behind a read-write lock. */
module AmqpReconnect {
  import opened Messages

  const U64_COUNT: nat := 0x1_0000_0000_0000_0000

  function WrappingInc(generation: nat): (r: nat) {
    (generation + 1) % U64_COUNT
  }

  /** `epoch` is bookkeeping: how many replacements had happened when the channel was fetched. */
  datatype Worker =
    | Idle
    | Using(channel: nat, generation: nat, epoch: nat)
    | Failed(channel: nat, generation: nat, epoch: nat)      // wants a reconnect
    | Connecting(channel: nat, generation: nat, epoch: nat)  // holds the write lock, check passed

  /** A connection replaced by `worker`, which had seen `channel` of `epoch` fail. */
  datatype Replacement = Replacement(worker: nat, channel: nat, epoch: nat, successor: nat)

  datatype State = State(
    channel: nat,
    generation: nat,
    writer: Option<nat>,
    workers: map<nat, Worker>,
    nextChannel: nat,
    replacements: seq<Replacement>)

  const INITIAL := State(0, 0, None, map[], 1, [])

  datatype Action =
    | Fetch(worker: nat)
    | Succeed(worker: nat)
    | ObserveFailure(worker: nat)
    | EnterReconnect(worker: nat)            // take the write lock and compare generations
    | FinishConnect(worker: nat, ok: bool)   // the new connection is up, or not

  function WorkerAt(s: State, w: nat): (r: Worker) {
    if w in s.workers then s.workers[w] else Idle
  }

  predicate Enabled(s: State, a: Action) {
    match a
    case Fetch(w) => WorkerAt(s, w).Idle? && s.writer == None
    case Succeed(w) => WorkerAt(s, w).Using?
    case ObserveFailure(w) => WorkerAt(s, w).Using?
    case EnterReconnect(w) => WorkerAt(s, w).Failed? && s.writer == None
    case FinishConnect(w, _) => WorkerAt(s, w).Connecting?
  }

  function Next(s: State, a: Action): (s': State)
    requires Enabled(s, a)
  {
    match a
    case Fetch(w) => s.(workers := s.workers[w := Using(s.channel, s.generation, |s.replacements|)])
    case Succeed(w) => s.(workers := s.workers[w := Idle])
    case ObserveFailure(w) =>
      var u := s.workers[w];
      s.(workers := s.workers[w := Failed(u.channel, u.generation, u.epoch)])
    case EnterReconnect(w) =>
      var u := s.workers[w];
      if s.generation != u.generation then s.(workers := s.workers[w := Idle])
      else s.(workers := s.workers[w := Connecting(u.channel, u.generation, u.epoch)], writer := Some(w))
    case FinishConnect(w, ok) =>
      var u := s.workers[w];
      var released := s.(workers := s.workers[w := Idle], writer := None);
      if !ok then released
      else released.(channel := s.nextChannel,
                     nextChannel := s.nextChannel + 1,
                     generation := WrappingInc(s.generation),
                     replacements := s.replacements + [Replacement(w, u.channel, u.epoch, s.nextChannel)])
  }

  predicate Legal(s: State, actions: seq<Action>)
    decreases |actions|
  {
    actions == [] || (Enabled(s, actions[0]) && Legal(Next(s, actions[0]), actions[1..]))
  }

  function Run(s: State, actions: seq<Action>): (s': State)
    requires Legal(s, actions)
    decreases |actions|
  {
    if actions == [] then s else Run(Next(s, actions[0]), actions[1..])
  }

  /** The channel that was current after `epoch` replacements. */
  function ChannelOf(s: State, epoch: nat): (r: nat)
    requires epoch <= |s.replacements|
  {
    if epoch == 0 then 0 else s.replacements[epoch - 1].successor
  }

  ghost predicate WorkerOk(s: State, u: Worker) {
    u.Idle? ||
    (u.epoch <= |s.replacements| && u.generation == u.epoch % U64_COUNT && u.channel == ChannelOf(s, u.epoch))
  }

  /** The `k`-th replacement replaced the `k`-th connection. */
  ghost predicate ReplacedInOrder(s: State) {
    forall k :: 0 <= k < |s.replacements| ==> s.replacements[k].epoch == k && s.replacements[k].channel == ChannelOf(s, k)
  }

  ghost predicate WorkersOk(s: State) {
    forall w :: w in s.workers ==>
      && WorkerOk(s, s.workers[w])
      && (s.workers[w].Connecting? ==> s.writer == Some(w) && s.workers[w].generation == s.generation)
  }

  ghost predicate Inv(s: State) {
    && s.channel == ChannelOf(s, |s.replacements|)
    && s.generation == |s.replacements| % U64_COUNT
    && WorkersOk(s)
    && (|s.replacements| <= U64_COUNT ==> ReplacedInOrder(s))
  }

  lemma ConnectKeepsInv(s: State, w: nat)
    requires Inv(s) && Enabled(s, FinishConnect(w, true))
    ensures Inv(Next(s, FinishConnect(w, true)))
  {
    var s' := Next(s, FinishConnect(w, true));
    var n := |s.replacements|;
    var u := s.workers[w];
    assert WorkerOk(s, u) && u.generation == s.generation;
    WrapsLikeCounting(n);
    forall e: nat | e <= n ensures ChannelOf(s', e) == ChannelOf(s, e) { }
    forall v | v in s'.workers ensures WorkerOk(s', s'.workers[v]) && !s'.workers[v].Connecting? {
      assert v != w ==> WorkerOk(s, s.workers[v]);
    }
    if n + 1 <= U64_COUNT {
      SmallRemainders(u.epoch, n);
    }
  }

  lemma SmallRemainders(a: nat, b: nat)
    requires a <= b < U64_COUNT && a % U64_COUNT == b % U64_COUNT
    ensures a == b
  {
  }

  lemma WorkerStepKeepsInv(s: State, a: Action, s': State)
    requires Inv(s) && Enabled(s, a) && s' == Next(s, a)
    requires s'.replacements == s.replacements && s'.channel == s.channel && s'.generation == s.generation
    ensures Inv(s')
  {
    forall e: nat | e <= |s.replacements| ensures ChannelOf(s', e) == ChannelOf(s, e) { }
    forall v | v in s'.workers
      ensures WorkerOk(s', s'.workers[v]) && (s'.workers[v].Connecting? ==> s'.writer == Some(v) && s'.workers[v].generation == s'.generation)
    {
      assert v in s.workers ==> WorkerOk(s, s.workers[v]);
    }
  }

  lemma StepKeepsInv(s: State, a: Action)
    requires Inv(s) && Enabled(s, a)
    ensures Inv(Next(s, a))
  {
    if a.FinishConnect? && a.ok {
      ConnectKeepsInv(s, a.worker);
    } else {
      WorkerStepKeepsInv(s, a, Next(s, a));
    }
  }

  lemma WrapsLikeCounting(n: nat)
    ensures WrappingInc(n % U64_COUNT) == (n + 1) % U64_COUNT
  {
  }

  lemma {:induction false} RunKeepsInv(s: State, actions: seq<Action>)
    requires Inv(s) && Legal(s, actions)
    ensures Inv(Run(s, actions))
    decreases |actions|
  {
    if actions != [] {
      StepKeepsInv(s, actions[0]);
      RunKeepsInv(Next(s, actions[0]), actions[1..]);
    }
  }

  /** Over every interleaving the `k`-th replacement replaces the `k`-th connection, on the request of a
      worker that had fetched that very channel: no generation is replaced twice and a late worker
      never tears down a healthy successor, as long as the generation counter has not wrapped. */
  lemma EachGenerationReplacedOnce(actions: seq<Action>, k: nat)
    requires Legal(INITIAL, actions)
    requires var s := Run(INITIAL, actions); k < |s.replacements| <= U64_COUNT
    ensures var s := Run(INITIAL, actions);
            s.replacements[k].epoch == k && s.replacements[k].channel == ChannelOf(s, k)
  {
    RunKeepsInv(INITIAL, actions);
  }

  /** A failed connect changes nothing but the lock, so the next worker that fails on the channel can
      try again and will replace it. */
  lemma FailedConnectIsRetryable(actions: seq<Action>, w: nat, retry: nat)
    requires Legal(INITIAL, actions) && Enabled(Run(INITIAL, actions), FinishConnect(w, false))
    requires var after := Next(Run(INITIAL, actions), FinishConnect(w, false)); WorkerAt(after, retry).Idle?
    ensures var s := Run(INITIAL, actions);
            var after := Next(s, FinishConnect(w, false));
            && after.channel == s.channel && after.generation == s.generation && after.replacements == s.replacements
            && var again := [Fetch(retry), ObserveFailure(retry), EnterReconnect(retry), FinishConnect(retry, true)];
               && Legal(after, again)
               && Run(after, again).replacements
                  == s.replacements + [Replacement(retry, s.channel, |s.replacements|, s.nextChannel)]
  {
    var s := Run(INITIAL, actions);
    var after := Next(s, FinishConnect(w, false));
    var again := [Fetch(retry), ObserveFailure(retry), EnterReconnect(retry), FinishConnect(retry, true)];
    var s1 := Next(after, Fetch(retry));
    var s2 := Next(s1, ObserveFailure(retry));
    var s3 := Next(s2, EnterReconnect(retry));
    var s4 := Next(s3, FinishConnect(retry, true));
    assert again[3..] == [FinishConnect(retry, true)] && again[2..][1..] == again[3..] && again[1..][1..] == again[2..];
    assert Legal(s3, again[3..]) && Run(s3, again[3..]) == s4;
    assert Legal(s2, again[2..]) && Run(s2, again[2..]) == s4;
    assert Legal(s1, again[1..]) && Run(s1, again[1..]) == s4;
  }

  /** The publisher's shared state, changed in place under its write lock. */
  class AmqpPublisher {
    var channel: nat
    var generation: nat

    constructor (channel: nat)
      ensures this.channel == channel && generation == 0
    {
      this.channel, generation := channel, 0;
    }

    method GetChannel() returns (c: nat, g: nat)
      ensures c == channel && g == generation
    {
      c, g := channel, generation;
    }

    /** `connected` is the fresh channel of a successful connect. */
    method Reconnect(observed: nat, connected: Option<nat>)
      modifies this
      ensures if old(generation) == observed && connected.Some?
              then channel == connected.value && generation == (old(generation) + 1) % 0x1_0000_0000_0000_0000
              else channel == old(channel) && generation == old(generation)
    {
      if generation != observed {
        return;
      }
      match connected {
        case Some(c) =>
          var next := WrappingInc(generation);
          channel := c;
          generation := next;
        case None =>
      }
    }
  }

  // ---------------------------------------------------------------- the object takes the steps

  ghost predicate Shows(p: AmqpPublisher, s: State)
    reads p
  {
    p.channel == s.channel && p.generation == s.generation && s.writer == None
  }

  method FetchTakes(p: AmqpPublisher, ghost s: State, ghost w: nat) returns (c: nat, g: nat)
    requires Shows(p, s) && WorkerAt(s, w).Idle?
    ensures Enabled(s, Fetch(w)) && Shows(p, Next(s, Fetch(w)))
    ensures WorkerAt(Next(s, Fetch(w)), w) == Using(c, g, |s.replacements|)
  {
    c, g := p.GetChannel();
  }

  /** A reconnect is one step for a stale observer, and two for the one that gets to connect. */
  method ReconnectTakes(p: AmqpPublisher, observed: nat, connected: Option<nat>, ghost s: State, ghost w: nat)
    requires Shows(p, s) && WorkerAt(s, w).Failed? && s.workers[w].generation == observed
    requires connected.Some? ==> connected.value == s.nextChannel
    modifies p
    ensures Enabled(s, EnterReconnect(w))
    ensures var s1 := Next(s, EnterReconnect(w));
            if old(p.generation) != observed then Shows(p, s1) && WorkerAt(s1, w).Idle?
            else && Enabled(s1, FinishConnect(w, connected.Some?))
                 && Shows(p, Next(s1, FinishConnect(w, connected.Some?)))
                 && WorkerAt(Next(s1, FinishConnect(w, connected.Some?)), w).Idle?
  {
    p.Reconnect(observed, connected);
  }
}
