/** Eventual consistency: once the source, the shard set, the set of peers to be
    found and the other writers are quiet and requests succeed, the agent's own
    steps run out, apart from futile retries for peers that have left; and when
    they have run out every covered pair agrees. */
module QuietRuns {
  import opened Wrappers
  import opened Objects
  import opened Replication
  import opened ReplicationRuns

  /** The steps of the agent's handlers and workers on one request, with every API
      request answered. */
  predicate IsWork(step: Step) {
    || step.HandlePeerEvent? || step.RetryDue? || step.TakeRequest?
    || step.GetCluster? || step.GetSource? || step.CheckShard? || step.GetPeer?
    || (step.SubmitWrite? && step.replied)
  }

  /** A peer that is no longer found is taken off the list, and its watch stops. */
  predicate IsCleanUp(s: State, step: Step) {
    step.ChangePeer? && (step.change.Delist? || step.change.Unwatch?) && step.peer !in s.known.found
  }

  /** The steps the agent takes by itself. */
  predicate IsQuiet(s: State, step: Step) {
    step.HandleEvent? || IsWork(step) || IsCleanUp(s, step)
  }

  /** Looking up a peer that is not found fails before anything is read, and the
      request goes back to waiting for its retry. */
  predicate IsFutile(s: State, step: Step) {
    (step.RetryDue? || step.TakeRequest? || step.GetCluster?) && step.req.peer !in s.known.found
  }

  predicate IsUseful(s: State, step: Step) {
    IsQuiet(s, step) && !IsFutile(s, step)
  }

  /** The step is not a useful one that the agent can take now. */
  predicate IsStuck(s: State, step: Step) {
    IsUseful(s, step) ==> !Enabled(s, step)
  }

  ghost predicate Idle(s: State) {
    forall step :: IsStuck(s, step)
  }

  // ------------------------------------------------------------------ the fuel

  function SlotsOf(server: Server, key: Key): set<Slot> {
    set slot | slot in server.objects && slot.key == key
  }

  /** How many writes a peer is away from agreeing about a name. */
  function Wrong(source: map<Key, Object>, server: Server, key: Key): nat {
    if key in source then (if Agrees(source, server, key) then 0 else 1) else |SlotsOf(server, key)|
  }

  /** A call that works with reads that are no longer true. */
  predicate Stale(s: State, r: Request) {
    r in s.calls && r.peer in s.peers && !Current(s, r)
  }

  /** The steps a call past the look-up of its peer has left. */
  function StepsLeft(call: Call): nat {
    match call
    case Started => 0
    case FoundPeer => 4
    case ReadSource(_) => 3
    case Checked(_) => 2
    case ReadPeer(_, _) => 1
  }

  function CallFuel(s: State, r: Request): nat {
    if r !in s.calls then 0
    else (if s.calls[r].Started? then 5 else StepsLeft(s.calls[r])) + (if Stale(s, r) then 14 else 0)
  }

  function WaitFuel(s: State, r: Request): nat {
    (if r in s.peerEvents then 7 else 0) +
    (if r in s.work.dirty then 6 else 0) +
    (if r in s.work.delayed then 7 else 0)
  }

  function PeerFuel(s: State, r: Request): nat {
    if r.peer in s.peers then 7 * Wrong(s.source, s.peers[r.peer], r.key) else 0
  }

  /** A bound on the useful steps that one request can still occasion. For a peer
      that is not found, a peer event can still be handled, and a call that found
      the peer before goes on. */
  function RequestFuel(s: State, r: Request): nat {
    if r.peer in s.known.found then 6 * |Pending(s, r.key)| + WaitFuel(s, r) + PeerFuel(s, r) + CallFuel(s, r)
    else (if r in s.peerEvents then 1 else 0) + (if r in s.calls then 2 * StepsLeft(s.calls[r]) else 0)
  }

  ghost function RequestsFuel(s: State, rs: set<Request>): nat {
    if rs == {} then 0
    else
      var r :| r in rs;
      RequestFuel(s, r) + RequestsFuel(s, rs - {r})
  }

  ghost function EventsFuel(s: State, keys: set<Key>): nat {
    if keys == {} then 0
    else
      var key :| key in keys;
      |Pending(s, key)| + EventsFuel(s, keys - {key})
  }

  function CleanUpFuel(s: State): nat {
    |s.known.listed - s.known.found| + |s.known.watched - s.known.found|
  }

  ghost function Fuel(s: State, rs: set<Request>, keys: set<Key>): nat {
    EventsFuel(s, keys) + RequestsFuel(s, rs) + CleanUpFuel(s)
  }

  predicate Mentioned(s: State, r: Request) {
    r in s.peerEvents || r in s.work.dirty || r in s.work.delayed || r in s.calls
  }

  /** Everything the agent still has to deal with is about these requests and
      names; all peers involved can be reached. */
  ghost predicate Within(s: State, rs: set<Request>, keys: set<Key>) {
    && (forall r :: Mentioned(s, r) ==> r in rs)
    && (forall r :: r in rs ==> r.peer in s.peers)
    && (forall key :: key in s.events ==> key in keys && Fanout(s.known.listed, key) <= rs)
  }

  ghost predicate QuietInv(s: State, rs: set<Request>, keys: set<Key>) {
    && CallsAreProcessing(s) && KnownNames(s) && EventsWatched(s) && CallsAreOwned(s) && PeersRouted(s)
    && Within(s, rs, keys)
  }

  lemma WorkMentions(s: State, step: Step, r: Request)
    requires CallsAreProcessing(s) && Enabled(s, step) && IsWork(step) && Mentioned(Apply(s, step), r)
    ensures Mentioned(s, r)
  {
  }

  /** A quiet step takes up a new request only for a pending event. */
  lemma QuietMentions(s: State, step: Step, r: Request)
    requires CallsAreProcessing(s) && Enabled(s, step) && IsQuiet(s, step) && Mentioned(Apply(s, step), r)
    ensures Mentioned(s, r) || (step == HandleEvent(r.key) && r in Fanout(s.known.listed, r.key))
  {
    if IsWork(step) {
      WorkMentions(s, step, r);
    }
  }

  lemma StepWithin(s: State, step: Step, rs: set<Request>, keys: set<Key>)
    requires CallsAreProcessing(s) && Within(s, rs, keys) && Enabled(s, step) && IsQuiet(s, step)
    ensures Within(Apply(s, step), rs, keys)
  {
    StepPeers(s, step);
    forall r | Mentioned(Apply(s, step), r) ensures r in rs {
      QuietMentions(s, step, r);
    }
  }

  lemma StepQuietInv(s: State, step: Step, rs: set<Request>, keys: set<Key>)
    requires QuietInv(s, rs, keys) && Enabled(s, step) && IsQuiet(s, step)
    ensures QuietInv(Apply(s, step), rs, keys)
  {
    StepCalls(s, step);
    StepNames(s, step);
    StepEventsWatched(s, step);
    StepOwned(s, step);
    StepKeepsRouting(s, step);
    StepWithin(s, step, rs, keys);
  }

  // ------------------------------------------------------------------- the sums

  lemma {:induction false} RequestsFuelPick(s: State, rs: set<Request>, r: Request)
    requires r in rs
    ensures RequestsFuel(s, rs) == RequestFuel(s, r) + RequestsFuel(s, rs - {r})
    decreases rs
  {
    var x :| x in rs && RequestsFuel(s, rs) == RequestFuel(s, x) + RequestsFuel(s, rs - {x});
    if x != r {
      RequestsFuelPick(s, rs - {x}, r);
      RequestsFuelPick(s, rs - {r}, x);
      assert rs - {x} - {r} == rs - {r} - {x};
    }
  }

  lemma {:induction false} RequestsFuelLess(s: State, s': State, rs: set<Request>)
    requires forall r :: r in rs ==> RequestFuel(s', r) <= RequestFuel(s, r)
    ensures RequestsFuel(s', rs) <= RequestsFuel(s, rs)
    decreases rs
  {
    if rs != {} {
      var r :| r in rs;
      RequestsFuelPick(s, rs, r);
      RequestsFuelPick(s', rs, r);
      RequestsFuelLess(s, s', rs - {r});
    }
  }

  lemma {:induction false} EventsFuelPick(s: State, keys: set<Key>, key: Key)
    requires key in keys
    ensures EventsFuel(s, keys) == |Pending(s, key)| + EventsFuel(s, keys - {key})
    decreases keys
  {
    var x :| x in keys && EventsFuel(s, keys) == |Pending(s, x)| + EventsFuel(s, keys - {x});
    if x != key {
      EventsFuelPick(s, keys - {x}, key);
      EventsFuelPick(s, keys - {key}, x);
      assert keys - {x} - {key} == keys - {key} - {x};
    }
  }

  lemma {:induction false} EventsFuelSame(s: State, s': State, keys: set<Key>)
    requires forall key :: key in keys ==> |Pending(s', key)| == |Pending(s, key)|
    ensures EventsFuel(s', keys) == EventsFuel(s, keys)
    decreases keys
  {
    if keys != {} {
      var key :| key in keys;
      EventsFuelPick(s, keys, key);
      EventsFuelPick(s', keys, key);
      EventsFuelSame(s, s', keys - {key});
    }
  }

  // ------------------------------------------------------------- single requests

  /** The agent's bookkeeping about `r` is the same before and after. */
  predicate Untouched(s: State, s': State, r: Request) {
    && s'.source == s.source && s'.known == s.known && s'.events == s.events
    && (r in s'.peerEvents <==> r in s.peerEvents)
    && (r in s'.work.dirty <==> r in s.work.dirty)
    && (r in s'.work.delayed <==> r in s.work.delayed)
    && Lookup(s'.calls, r) == Lookup(s.calls, r)
  }

  lemma StepTouchesOne(s: State, step: Step, r: Request)
    requires Enabled(s, step) && IsWork(step) && r != step.req
    ensures Untouched(s, Apply(s, step), r)
  {
  }

  lemma UntouchedFuel(s: State, s': State, r: Request)
    requires Untouched(s, s', r) && r.peer in s.peers && r.peer in s'.peers
    requires Wrong(s.source, s'.peers[r.peer], r.key) == Wrong(s.source, s.peers[r.peer], r.key)
    requires r in s.calls && Current(s, r) ==> r in s'.calls && Current(s', r)
    ensures RequestFuel(s', r) <= RequestFuel(s, r)
  {
    assert r in s'.calls <==> Lookup(s'.calls, r).Some?;
    assert r in s.calls <==> Lookup(s.calls, r).Some?;
  }

  lemma WriteSparesOthers(source: map<Key, Object>, server: Server, w: Write, key: Key)
    requires w.Nothing? || w.slot.key != key
    ensures Wrong(source, Execute(server, w), key) == Wrong(source, server, key)
  {
    var after := Execute(server, w);
    assert SlotsOf(after, key) == SlotsOf(server, key);
  }

  lemma CurrentKept(s: State, s': State, r: Request, w: Write)
    requires Untouched(s, s', r) && r.peer in s.peers && r.peer in s'.peers
    requires s'.peers[r.peer] == Execute(s.peers[r.peer], w) && (w.Nothing? || w.slot.key != r.key)
    requires r in s.calls && Current(s, r)
    ensures r in s'.calls && Current(s', r)
  {
    assert Lookup(s'.calls, r).Some?;
    WriteElsewhere(s.source, s.peers[r.peer], w, r.key);
  }

  /** What a step for another request does to `r`'s peer. */
  function WriteBeside(s: State, step: Step, r: Request): (w: Write)
    requires Enabled(s, step) && IsWork(step) && r != step.req
    ensures w.Nothing? || w.slot.key != r.key
  {
    if step.SubmitWrite? && r.peer == step.req.peer then PlannedWrite(s, step.req) else Nothing
  }

  lemma WroteBeside(s: State, step: Step, r: Request)
    requires Enabled(s, step) && IsWork(step) && r != step.req && r.peer in s.peers
    ensures r.peer in Apply(s, step).peers
    ensures Apply(s, step).peers[r.peer] == Execute(s.peers[r.peer], WriteBeside(s, step, r))
  {
    StepServer(s, step, r.peer);
  }

  /** A step for one request does not add fuel to another. */
  lemma StepSparesOthers(s: State, step: Step, r: Request)
    requires Enabled(s, step) && IsWork(step) && r != step.req && r.peer in s.peers
    ensures RequestFuel(Apply(s, step), r) <= RequestFuel(s, r)
  {
    var w := WriteBeside(s, step, r);
    StepTouchesOne(s, step, r);
    WroteBeside(s, step, r);
    WriteSparesOthers(s.source, s.peers[r.peer], w, r.key);
    if r in s.calls && Current(s, r) {
      CurrentKept(s, Apply(s, step), r, w);
    }
    UntouchedFuel(s, Apply(s, step), r);
  }

  lemma QueueStepBurns(s: State, step: Step)
    requires step.HandlePeerEvent? || step.RetryDue? || step.TakeRequest?
    requires CallsAreProcessing(s) && Enabled(s, step) && !IsFutile(s, step)
    ensures RequestFuel(Apply(s, step), step.req) < RequestFuel(s, step.req)
  {
    var s', r := Apply(s, step), step.req;
    assert Pending(s', r.key) == Pending(s, r.key) && PeerFuel(s', r) == PeerFuel(s, r);
    if step.TakeRequest? {
      assert r !in s.calls;
      assert WaitFuel(s', r) == WaitFuel(s, r) - 6 && CallFuel(s', r) == 5;
    } else {
      assert CallFuel(s', r) == CallFuel(s, r);
      assert WaitFuel(s', r) < WaitFuel(s, r);
    }
  }

  predicate IsReadStep(step: Step) {
    step.GetCluster? || step.GetSource? || step.CheckShard? || step.GetPeer?
  }

  /** A step that reads changes nothing but its call. */
  lemma ReadStepWaits(s: State, step: Step)
    requires Enabled(s, step) && IsReadStep(step) && !IsFutile(s, step)
    ensures var s' := Apply(s, step);
      && WaitFuel(s', step.req) == WaitFuel(s, step.req)
      && s'.source == s.source && s'.peers == s.peers && s'.known == s.known && s'.events == s.events
  {
  }

  lemma ReadStepAdvances(s: State, step: Step)
    requires Enabled(s, step) && IsReadStep(step) && !IsFutile(s, step)
    ensures CallFuel(Apply(s, step), step.req) < CallFuel(s, step.req)
    ensures var s' := Apply(s, step);
      !step.GetCluster? ==> step.req !in s'.calls || StepsLeft(s'.calls[step.req]) < StepsLeft(s.calls[step.req])
  {
  }

  lemma ReadStepBurns(s: State, step: Step)
    requires Enabled(s, step) && IsReadStep(step) && !IsFutile(s, step)
    ensures RequestFuel(Apply(s, step), step.req) < RequestFuel(s, step.req)
  {
    var s', r := Apply(s, step), step.req;
    ReadStepWaits(s, step);
    assert Pending(s', r.key) == Pending(s, r.key) && PeerFuel(s', r) == PeerFuel(s, r);
    ReadStepAdvances(s, step);
  }

  /** A write by a call whose reads are true brings the peer one write closer. */
  lemma TrueWriteHelps(s: State, r: Request)
    requires Enabled(s, SubmitWrite(r, true)) && Current(s, r)
    requires KnownNames(s) && CallsAreOwned(s) && PeersRouted(s)
    ensures var w := PlannedWrite(s, r);
      var server := s.peers[r.peer];
      Accepts(server, w) &&
      (w == Nothing || Wrong(s.source, Execute(server, w), r.key) == Wrong(s.source, server, r.key) - 1)
  {
    var w := PlannedWrite(s, r);
    var server := s.peers[r.peer];
    if w.Delete? {
      assert SlotsOf(Execute(server, w), r.key) == SlotsOf(server, r.key) - {w.slot};
    } else if w != Nothing {
      CopyMatches(s.source[r.key], server.next);
      assert w.obj.(version := server.next) == s.source[r.key].(version := server.next);
    }
  }

  lemma SubsetSize<T>(a: set<T>, b: set<T>)
    requires a <= b
    ensures |a| <= |b|
  {
    assert b == a + (b - a);
  }

  /** Any write sets the peer back by at most one. */
  lemma AnyWriteHurtsLittle(source: map<Key, Object>, server: Server, w: Write, key: Key)
    requires w == Nothing || w.slot.key == key
    ensures Wrong(source, Execute(server, w), key) <= Wrong(source, server, key) + 1
  {
    if w != Nothing {
      assert SlotsOf(Execute(server, w), key) <= SlotsOf(server, key) + {w.slot};
      SubsetSize(SlotsOf(Execute(server, w), key), SlotsOf(server, key) + {w.slot});
    }
  }

  /** A submitted write ends its call; it is noticed or retried, not both. */
  lemma WriteWaits(s: State, r: Request)
    requires Enabled(s, SubmitWrite(r, true))
    ensures var s' := Apply(s, SubmitWrite(r, true));
      && r !in s'.calls && s'.known == s.known && s'.events == s.events && s'.source == s.source
      && WaitFuel(s', r) <= WaitFuel(s, r) + (if PlannedWrite(s, r) == Nothing then 0 else 7)
  {
  }

  lemma FoundWriteBurns(s: State, r: Request)
    requires KnownNames(s) && CallsAreOwned(s) && PeersRouted(s)
    requires Enabled(s, SubmitWrite(r, true)) && r.peer in s.known.found
    ensures RequestFuel(Apply(s, SubmitWrite(r, true)), r) < RequestFuel(s, r)
  {
    var s', w := Apply(s, SubmitWrite(r, true)), PlannedWrite(s, r);
    WriteWaits(s, r);
    StepServer(s, SubmitWrite(r, true), r.peer);
    assert Pending(s', r.key) == Pending(s, r.key) && CallFuel(s', r) == 0;
    if Current(s, r) {
      TrueWriteHelps(s, r);
    } else {
      AnyWriteHurtsLittle(s.source, s.peers[r.peer], w, r.key);
    }
  }

  lemma WriteBurns(s: State, r: Request)
    requires KnownNames(s) && CallsAreOwned(s) && PeersRouted(s) && Enabled(s, SubmitWrite(r, true))
    ensures RequestFuel(Apply(s, SubmitWrite(r, true)), r) < RequestFuel(s, r)
  {
    if r.peer in s.known.found {
      FoundWriteBurns(s, r);
    } else {
      WriteWaits(s, r);
    }
  }

  /** The fuel of one pending event pays for the request it may add. */
  lemma EventAddsLittle(s: State, key: Key, r: Request)
    requires Pending(s, key) != []
    ensures RequestFuel(ApplyEvent(s, key), r) <= RequestFuel(s, r)
  {
    var s' := ApplyEvent(s, key);
    assert Pending(s', key) == Pending(s, key)[1..];
    assert PeerFuel(s', r) == PeerFuel(s, r) && CallFuel(s', r) == CallFuel(s, r);
    if r.key != key {
      assert Pending(s', r.key) == Pending(s, r.key);
      assert WaitFuel(s', r) == WaitFuel(s, r);
    } else {
      assert WaitFuel(s', r) <= WaitFuel(s, r) + 6;
    }
  }

  lemma EventBurns(s: State, key: Key, rs: set<Request>, keys: set<Key>)
    requires Pending(s, key) != [] && key in keys
    ensures Fuel(ApplyEvent(s, key), rs, keys) < Fuel(s, rs, keys)
  {
    var s' := ApplyEvent(s, key);
    forall r | r in rs ensures RequestFuel(s', r) <= RequestFuel(s, r) {
      EventAddsLittle(s, key, r);
    }
    RequestsFuelLess(s, s', rs);
    EventsFuelPick(s, keys, key);
    EventsFuelPick(s', keys, key);
    EventsFuelSame(s, s', keys - {key});
  }

  /** A futile step costs nothing and gains nothing. */
  lemma FutileStepIsFree(s: State, step: Step)
    requires Enabled(s, step) && IsFutile(s, step)
    ensures RequestFuel(Apply(s, step), step.req) <= RequestFuel(s, step.req)
  {
  }

  lemma OwnStepBurns(s: State, step: Step)
    requires CallsAreProcessing(s) && KnownNames(s) && EventsWatched(s) && CallsAreOwned(s) && PeersRouted(s)
    requires Enabled(s, step) && IsWork(step) && !IsFutile(s, step)
    ensures RequestFuel(Apply(s, step), step.req) < RequestFuel(s, step.req)
  {
    if step.SubmitWrite? {
      WriteBurns(s, step.req);
    } else if IsReadStep(step) {
      ReadStepBurns(s, step);
    } else {
      QueueStepBurns(s, step);
    }
  }

  lemma RequestStepBurns(s: State, s': State, r: Request, rs: set<Request>, keys: set<Key>)
    requires r in rs && RequestFuel(s', r) <= RequestFuel(s, r)
    requires forall x :: x in rs - {r} ==> RequestFuel(s', x) <= RequestFuel(s, x)
    requires s'.events == s.events && CleanUpFuel(s') == CleanUpFuel(s)
    ensures Fuel(s', rs, keys) <= Fuel(s, rs, keys) - RequestFuel(s, r) + RequestFuel(s', r)
  {
    RequestsFuelLess(s, s', rs - {r});
    RequestsFuelPick(s, rs, r);
    RequestsFuelPick(s', rs, r);
    EventsFuelSame(s, s', keys);
  }

  lemma WorkIsMentioned(s: State, step: Step)
    requires CallsAreProcessing(s) && Enabled(s, step) && IsWork(step)
    ensures Mentioned(s, step.req)
  {
  }

  /** Work on a request leaves the events and the places where peers are known alone. */
  lemma WorkKeepsRest(s: State, step: Step)
    requires Enabled(s, step) && IsWork(step)
    ensures Apply(s, step).events == s.events && Apply(s, step).known == s.known
  {
  }

  lemma LessToCleanUp(a: set<PeerName>, found: set<PeerName>, peer: PeerName)
    requires peer in a && peer !in found
    ensures |a - {peer} - found| < |a - found|
  {
    assert a - {peer} - found == a - found - {peer};
  }

  lemma CleanUpAddsNothing(s: State, step: Step, r: Request)
    requires Enabled(s, step) && IsCleanUp(s, step)
    ensures RequestFuel(Apply(s, step), r) <= RequestFuel(s, r)
  {
    var s' := Apply(s, step);
    assert Pending(s', r.key) == Pending(s, r.key) && PeerFuel(s', r) == PeerFuel(s, r);
    assert r.peer in s.known.found ==> (r in s'.peerEvents <==> r in s.peerEvents);
  }

  lemma CleanUpBurns(s: State, step: Step, rs: set<Request>, keys: set<Key>)
    requires Enabled(s, step) && IsCleanUp(s, step)
    ensures Fuel(Apply(s, step), rs, keys) < Fuel(s, rs, keys)
  {
    var s' := Apply(s, step);
    forall r | r in rs ensures RequestFuel(s', r) <= RequestFuel(s, r) {
      CleanUpAddsNothing(s, step, r);
    }
    RequestsFuelLess(s, s', rs);
    EventsFuelSame(s, s', keys);
    LessToCleanUp(if step.change.Delist? then s.known.listed else s.known.watched, s.known.found, step.peer);
  }

  /** Every quiet step burns fuel if it is useful, and adds none if it is futile. */
  lemma StepBurns(s: State, step: Step, rs: set<Request>, keys: set<Key>)
    requires QuietInv(s, rs, keys) && Enabled(s, step) && IsQuiet(s, step)
    ensures Fuel(Apply(s, step), rs, keys) <= Fuel(s, rs, keys)
    ensures IsUseful(s, step) ==> Fuel(Apply(s, step), rs, keys) < Fuel(s, rs, keys)
  {
    if step.HandleEvent? {
      EventBurns(s, step.key, rs, keys);
    } else if IsCleanUp(s, step) {
      CleanUpBurns(s, step, rs, keys);
    } else {
      WorkIsMentioned(s, step);
      WorkKeepsRest(s, step);
      if IsFutile(s, step) {
        FutileStepIsFree(s, step);
      } else {
        OwnStepBurns(s, step);
      }
      forall x | x in rs - {step.req} ensures RequestFuel(Apply(s, step), x) <= RequestFuel(s, x) {
        StepSparesOthers(s, step, x);
      }
      RequestStepBurns(s, Apply(s, step), step.req, rs, keys);
    }
  }

  // ------------------------------------------------------------------- quiet runs

  predicate AllQuiet(s: State, steps: seq<Step>)
    requires Runs(s, steps)
    decreases |steps|
  {
    steps == [] || (IsQuiet(s, steps[0]) && AllQuiet(Apply(s, steps[0]), steps[1..]))
  }

  predicate QuietRun(s: State, steps: seq<Step>) {
    Runs(s, steps) && AllQuiet(s, steps)
  }

  function UsefulSteps(s: State, steps: seq<Step>): nat
    requires Runs(s, steps)
    decreases |steps|
  {
    if steps == [] then 0
    else (if IsUseful(s, steps[0]) then 1 else 0) + UsefulSteps(Apply(s, steps[0]), steps[1..])
  }

  lemma {:induction false} QuietRunsAreBounded(s: State, steps: seq<Step>, rs: set<Request>, keys: set<Key>)
    requires QuietInv(s, rs, keys) && QuietRun(s, steps)
    ensures QuietInv(After(s, steps), rs, keys)
    ensures UsefulSteps(s, steps) + Fuel(After(s, steps), rs, keys) <= Fuel(s, rs, keys)
    decreases |steps|
  {
    if steps != [] {
      StepQuietInv(s, steps[0], rs, keys);
      StepBurns(s, steps[0], rs, keys);
      QuietRunsAreBounded(Apply(s, steps[0]), steps[1..], rs, keys);
    }
  }

  lemma SomeAnswer(server: Server, shard: Shard, key: Key) returns (answer: Option<Object>)
    ensures Answers(server, shard, key, answer)
  {
    answer := Lookup(server.objects, Slot(shard, key));
    if IsWild(shard) {
      answer := None;
      if slot :| slot in server.objects && slot.key == key {
        answer := Some(server.objects[slot]);
      }
    }
  }

  /** A call always has a next step, and it is a useful one unless the call is
      about to look up a peer that has left. */
  lemma NextOfCall(s: State, r: Request) returns (step: Step)
    requires r in s.calls && r.peer in s.peers
    ensures Enabled(s, step) && IsWork(step) && (IsReadStep(step) || step.SubmitWrite?) && step.req == r
    ensures IsFutile(s, step) <==> s.calls[r].Started? && r.peer !in s.known.found
  {
    match s.calls[r]
    case Started => step := GetCluster(r);
    case FoundPeer => step := GetSource(r);
    case ReadSource(_) => step := CheckShard(r);
    case Checked(src) =>
      var answer := SomeAnswer(s.peers[r.peer], ReadShard(src), r.key);
      step := GetPeer(r, answer);
    case ReadPeer(_, _) => step := SubmitWrite(r, true);
  }

  /** All that is left to do is to look for peers that are not to be found. */
  predicate OnlyDeparted(s: State) {
    && (forall key :: key in s.events ==> s.events[key] == [])
    && s.peerEvents == {} && s.known.listed <= s.known.found && s.known.watched <= s.known.found
    && (forall r :: r in s.work.dirty + s.work.delayed ==> r.peer !in s.known.found)
    && (forall r :: r in s.calls ==> r.peer !in s.known.found && s.calls[r].Started?)
  }

  /** An idle agent has nothing left to do for the peers that are there. */
  lemma IdleIsDone(s: State, rs: set<Request>, keys: set<Key>)
    requires QuietInv(s, rs, keys) && Idle(s)
    ensures OnlyDeparted(s)
  {
    forall key | key in s.events ensures s.events[key] == [] {
      assert IsStuck(s, HandleEvent(key));
    }
    forall r | r in s.calls ensures r.peer !in s.known.found && s.calls[r].Started? {
      var step := NextOfCall(s, r);
      assert IsStuck(s, step);
    }
    forall r ensures r !in s.peerEvents && (r in s.work.delayed || r in s.work.dirty ==> r.peer !in s.known.found) {
      assert IsStuck(s, HandlePeerEvent(r)) && IsStuck(s, RetryDue(r)) && IsStuck(s, TakeRequest(r));
    }
    forall p ensures p in s.known.listed + s.known.watched ==> p in s.known.found {
      assert IsStuck(s, ChangePeer(Delist, p)) && IsStuck(s, ChangePeer(Unwatch, p));
    }
  }

  predicate CoveredAgree(s: State) {
    forall r :: r in s.covered ==> r.peer in s.peers && Agrees(s.source, s.peers[r.peer], r.key)
  }

  lemma IdleAgrees(s: State, rs: set<Request>, keys: set<Key>)
    requires Inv(s) && QuietInv(s, rs, keys) && Idle(s)
    ensures OnlyDeparted(s) && CoveredAgree(s)
  {
    IdleIsDone(s, rs, keys);
    forall r | r in s.covered ensures Agrees(s.source, s.peers[r.peer], r.key) {
      assert PendingOrConsistent(s, r);
    }
  }

  /** The requests and names a state is about. */
  function AllRequests(s: State): set<Request> {
    s.peerEvents + s.work.dirty + s.work.delayed + s.calls.Keys +
    set p, key | p in s.known.listed && key in s.events :: Request(p, key)
  }

  /** Every request is for a peer server that exists. */
  ghost predicate PeersKnown(s: State) {
    forall r :: Mentioned(s, r) ==> r.peer in s.peers
  }

  lemma ChangeMentions(s: State, change: Change, peer: PeerName, r: Request)
    requires CanChange(s, change, peer) && Mentioned(Changed(s, change, peer), r)
    ensures Mentioned(s, r) || (change.Watch? && peer == r.peer)
  {
  }

  lemma StepMentions(s: State, step: Step, r: Request)
    requires CallsAreProcessing(s) && Enabled(s, step) && Mentioned(Apply(s, step), r)
    ensures Mentioned(s, r) || r.peer in s.known.listed + s.known.watched || step == ChangePeer(Watch, r.peer)
  {
    if step.ChangePeer? {
      ChangeMentions(s, step.change, step.peer, r);
    } else if IsWork(step) {
      WorkMentions(s, step, r);
    }
  }

  lemma StepKnown(s: State, step: Step)
    requires PeersKnown(s) && CallsAreProcessing(s) && KnownNames(s) && Enabled(s, step)
    ensures PeersKnown(Apply(s, step))
  {
    StepPeers(s, step);
    forall r | Mentioned(Apply(s, step), r) ensures r.peer in s.peers {
      StepMentions(s, step, r);
    }
  }

  lemma {:induction false} RunKnown(s: State, steps: seq<Step>)
    requires PeersKnown(s) && CallsAreProcessing(s) && KnownNames(s) && Runs(s, steps)
    ensures PeersKnown(After(s, steps))
    decreases |steps|
  {
    if steps != [] {
      StepKnown(s, steps[0]);
      StepCalls(s, steps[0]);
      StepNames(s, steps[0]);
      RunKnown(Apply(s, steps[0]), steps[1..]);
    }
  }

  lemma RunQuietInv(s: State, steps: seq<Step>)
    requires Init(s) && Runs(s, steps)
    ensures var now := After(s, steps);
      Inv(now) && QuietInv(now, AllRequests(now), now.events.Keys)
  {
    var now := After(s, steps);
    InitInv(s);
    RunInv(s, steps);
    RunKnown(s, steps);
    forall key | key in now.events ensures Fanout(now.known.listed, key) <= AllRequests(now) {
    }
    forall r | r in AllRequests(now) ensures r.peer in now.peers {
      assert Mentioned(now, r) || r.peer in now.known.listed;
    }
  }

  /** After any run of the whole system, disturbances and all: if from then on only
      the agent takes steps, at most `Fuel` of them are useful, in whatever order
      and with whatever futile retries between them. */
  lemma QuietRunsEnd(s: State, steps: seq<Step>, quiet: seq<Step>)
    requires Init(s) && Runs(s, steps) && QuietRun(After(s, steps), quiet)
    ensures var now := After(s, steps);
      UsefulSteps(now, quiet) <= Fuel(now, AllRequests(now), now.events.Keys)
  {
    var now := After(s, steps);
    RunQuietInv(s, steps);
    QuietRunsAreBounded(now, quiet, AllRequests(now), now.events.Keys);
  }

  /** And when no useful step is left, nothing is left to do for the peers that are
      there and every covered pair agrees with the source. */
  lemma EventuallyConsistent(s: State, steps: seq<Step>, quiet: seq<Step>)
    requires Init(s) && Runs(s, steps) && QuietRun(After(s, steps), quiet)
    requires Idle(After(After(s, steps), quiet))
    ensures var end := After(After(s, steps), quiet);
      OnlyDeparted(end) && CoveredAgree(end)
  {
    var now := After(s, steps);
    RunQuietInv(s, steps);
    QuietRunsAreBounded(now, quiet, AllRequests(now), now.events.Keys);
    RunInv(now, quiet);
    IdleAgrees(After(now, quiet), AllRequests(now), now.events.Keys);
  }

  /** A run of useful steps only, as long as can be, taken in any order one likes. */
  lemma {:induction false} RunToIdle(s: State, rs: set<Request>, keys: set<Key>) returns (quiet: seq<Step>)
    requires QuietInv(s, rs, keys)
    ensures QuietRun(s, quiet) && UsefulSteps(s, quiet) == |quiet| && Idle(After(s, quiet))
    decreases Fuel(s, rs, keys)
  {
    quiet := [];
    if step :| !IsStuck(s, step) {
      StepQuietInv(s, step, rs, keys);
      StepBurns(s, step, rs, keys);
      var rest := RunToIdle(Apply(s, step), rs, keys);
      quiet := [step] + rest;
      assert quiet[1..] == rest;
    }
  }

  /** And such an end is there to be reached from every reachable state, without a
      single futile step. */
  lemma AgentFinishes(s: State, steps: seq<Step>) returns (quiet: seq<Step>)
    requires Init(s) && Runs(s, steps)
    ensures QuietRun(After(s, steps), quiet) && UsefulSteps(After(s, steps), quiet) == |quiet|
    ensures var end := After(After(s, steps), quiet);
      OnlyDeparted(end) && CoveredAgree(end)
  {
    var now := After(s, steps);
    RunQuietInv(s, steps);
    quiet := RunToIdle(now, AllRequests(now), now.events.Keys);
    EventuallyConsistent(s, steps, quiet);
  }
}
