/** Replication as a transition system: source changes, watch events, the work
    queue, the separate reads and the write of every reconcile call, other
    writers on the peers, and failures, interleaved in any order. */
module ReplicationRuns {
  import opened Wrappers
  import opened Objects
  import opened Replication

  // ------------------------------------------------------------------- state

  /** A source watch event with the object the handler is given: the new object,
      or the last known one of a deleted name. */
  datatype Event = Upserted(obj: Object) | Deleted(obj: Object)

  /** The three sets of a client-go work queue, and the requests that wait for
      their retry delay to run out. */
  datatype WorkQueue = WorkQueue(
    queued: set<Request>, dirty: set<Request>, processing: set<Request>, delayed: set<Request>)
  {
    predicate Valid() { queued == dirty - processing }

    function Add(rs: set<Request>): (q: WorkQueue)
      ensures Valid() ==> q.Valid()
    {
      this.(dirty := dirty + rs, queued := queued + (rs - dirty - processing))
    }

    function Take(r: Request): (q: WorkQueue)
      ensures Valid() ==> q.Valid()
    {
      this.(queued := queued - {r}, dirty := dirty - {r}, processing := processing + {r})
    }

    /** The call returned; a request that became dirty meanwhile is queued again. */
    function Done(r: Request): (q: WorkQueue)
      ensures Valid() && r in processing ==> q.Valid()
    {
      this.(processing := processing - {r}, queued := queued + (if r in dirty then {r} else {}))
    }
  }

  /** How far a reconcile call got, with what it has read. A call that found its
      peer keeps the client it got, whether or not the peer leaves meanwhile. */
  datatype Call =
    | Started
    | FoundPeer
    | ReadSource(src: Option<Object>)
    | Checked(src: Option<Object>)
    | ReadPeer(src: Option<Object>, seen: Option<Object>)

  /** A peer is known in three places that change one after the other: `found` are
      the peers a look-up finds, `listed` those that source events fan out to, and
      `watched` those on which the controller has a watch running. */
  datatype Known = Known(found: set<PeerName>, listed: set<PeerName>, watched: set<PeerName>)

  /** `ever` and `covered` are bookkeeping that no step's guard looks at: all
      shards that have been authoritative so far, and the pairs the agent has
      promised to replicate, see `ApplyEvent` and `HandlePeerEvent`. */
  datatype State = State(
    source: map<Key, Object>,
    shards: set<Shard>,
    known: Known,
    peers: map<PeerName, Server>,
    events: map<Key, seq<Event>>,
    peerEvents: set<Request>,
    work: WorkQueue,
    calls: map<Request, Call>,
    ever: set<Shard>,
    covered: set<Request>)

  /** A peer joins or leaves one of the places where it is known. */
  datatype Change = Find | Lose | Enlist | Delist | Watch | Unwatch

  datatype Step =
    // the source and its watch
    | PutSource(key: Key, obj: Object)
    | DropSource(key: Key)
    | HandleEvent(key: Key)
    // the shard registry and the peers
    | GainShard(shard: Shard)
    | LoseShard(shard: Shard)
    | ChangePeer(change: Change, peer: PeerName)
    | HandlePeerEvent(req: Request)
    // other writers on a peer, which file objects under their own shard
    | ForeignPut(peer: PeerName, slot: Slot, obj: Object)
    | ForeignDelete(peer: PeerName, slot: Slot)
    // the controller's workers
    | TakeRequest(req: Request)
    | GetCluster(req: Request)
    | GetSource(req: Request)
    | CheckShard(req: Request)
    | GetPeer(req: Request, answer: Option<Object>)
    | SubmitWrite(req: Request, replied: bool)
    | FailCall(req: Request)
    | RetryDue(req: Request)

  function Pending(s: State, key: Key): seq<Event> {
    if key in s.events then s.events[key] else []
  }

  /** A peer write is noticed through the peer's watch, if there is one. */
  function Notice(s: State, peer: PeerName, key: Key): set<Request> {
    if peer in s.known.watched then s.peerEvents + {Request(peer, key)} else s.peerEvents
  }

  function Fanout(peers: set<PeerName>, key: Key): set<Request> {
    set p | p in peers :: Request(p, key)
  }

  function WithoutKey(rs: set<Request>, key: Key): set<Request> {
    set r | r in rs && r.key != key
  }

  function WithoutPeer(rs: set<Request>, peer: PeerName): set<Request> {
    set r | r in rs && r.peer != peer
  }

  /** The pair is the agent's to replicate: the peer is found and watched, and the
      source object, if there is one, belongs to an authoritative shard. */
  predicate IsOwn(s: State, r: Request) {
    r.peer in s.known.found && r.peer in s.known.watched && (r.key in s.source ==> ShardOf(s.source[r.key]) in s.shards)
  }

  predicate InShard(s: State, key: Key, shard: Shard) {
    key in s.source && ShardOf(s.source[key]) == shard
  }

  // ------------------------------------------------------------------- steps

  predicate CanChange(s: State, change: Change, peer: PeerName) {
    match change
    case Find => peer in s.peers
    case Lose => peer in s.known.found
    case Enlist => peer in s.peers
    case Delist => peer in s.known.listed
    case Watch => peer in s.peers
    case Unwatch => peer in s.known.watched
  }

  predicate Enabled(s: State, step: Step) {
    match step
    case PutSource(_, _) => true
    case DropSource(key) => key in s.source
    case HandleEvent(key) => Pending(s, key) != []
    case GainShard(shard) => IsShardName(shard)
    case LoseShard(shard) => shard in s.shards
    case ChangePeer(change, peer) => CanChange(s, change, peer)
    case HandlePeerEvent(req) => req in s.peerEvents
    case ForeignPut(peer, slot, obj) => peer in s.peers && ShardOf(obj) == slot.shard
    case ForeignDelete(peer, slot) => peer in s.peers && slot in s.peers[peer].objects
    case TakeRequest(req) => req in s.work.queued
    case GetCluster(req) => req in s.calls && s.calls[req].Started?
    case GetSource(req) => req in s.calls && s.calls[req].FoundPeer?
    case CheckShard(req) => req in s.calls && s.calls[req].ReadSource?
    case GetPeer(req, answer) =>
      && req in s.calls && s.calls[req].Checked? && req.peer in s.peers
      && Answers(s.peers[req.peer], ReadShard(s.calls[req].src), req.key, answer)
    case SubmitWrite(req, _) => req in s.calls && s.calls[req].ReadPeer? && req.peer in s.peers
    case FailCall(req) => req in s.calls
    case RetryDue(req) => req in s.work.delayed
  }

  /** A call that returns without error is forgotten, one that returns an error
      is retried after a delay. */
  function Returned(s: State, req: Request, failed: bool): State {
    var work := s.work.Done(req);
    s.(calls := s.calls - {req},
       work := if failed then work.(delayed := work.delayed + {req}) else work)
  }

  function Wrote(s: State, peer: PeerName, server: Server, key: Key): State {
    s.(peers := s.peers[peer := server], peerEvents := Notice(s, peer, key))
  }

  /** A new watch lists what is on the peer; a watch that stops reports nothing more. */
  function Changed(s: State, change: Change, peer: PeerName): State
    requires CanChange(s, change, peer)
  {
    var k := s.known;
    match change
    case Find => s.(known := k.(found := k.found + {peer}))
    case Lose => s.(known := k.(found := k.found - {peer}), covered := WithoutPeer(s.covered, peer))
    case Enlist => s.(known := k.(listed := k.listed + {peer}))
    case Delist => s.(known := k.(listed := k.listed - {peer}))
    case Watch =>
      s.(known := k.(watched := k.watched + {peer}),
         peerEvents := s.peerEvents + (set slot | slot in s.peers[peer].objects :: Request(peer, slot.key)))
    case Unwatch =>
      s.(known := k.(watched := k.watched - {peer}), peerEvents := WithoutPeer(s.peerEvents, peer),
         covered := WithoutPeer(s.covered, peer))
  }

  /** The source watch handler: if the event's object belongs to an authoritative
      shard, one request per listed peer is added. From here on those of them whose
      peer is found and watched are covered, and no others with that key. */
  function ApplyEvent(s: State, key: Key): State
    requires Pending(s, key) != []
  {
    var event := Pending(s, key)[0];
    var s1 := s.(events := s.events[key := Pending(s, key)[1..]]);
    if ShardOf(event.obj) in s.shards then
      s1.(work := s.work.Add(Fanout(s.known.listed, key)),
          covered := WithoutKey(s.covered, key) + Fanout(s.known.listed * s.known.found * s.known.watched, key))
    else
      s1.(covered := WithoutKey(s.covered, key))
  }

  function PlannedWrite(s: State, req: Request): Write
    requires req in s.calls && s.calls[req].ReadPeer?
  {
    Plan(req.key, s.calls[req].src, s.calls[req].seen)
  }

  function Apply(s: State, step: Step): State
    requires Enabled(s, step)
  {
    match step
    case PutSource(key, obj) =>
      s.(source := s.source[key := obj], events := s.events[key := Pending(s, key) + [Upserted(obj)]])
    case DropSource(key) =>
      s.(source := s.source - {key}, events := s.events[key := Pending(s, key) + [Deleted(s.source[key])]])
    case HandleEvent(key) => ApplyEvent(s, key)
    case GainShard(shard) => s.(shards := s.shards + {shard}, ever := s.ever + {shard})
    case LoseShard(shard) =>
      s.(shards := s.shards - {shard},
         covered := (set r | r in s.covered && !InShard(s, r.key, shard)))
    case ChangePeer(change, peer) => Changed(s, change, peer)
    case HandlePeerEvent(req) =>
      // drift on the peer: the pair is covered from here on, if it is the agent's
      s.(peerEvents := s.peerEvents - {req}, work := s.work.Add({req}),
         covered := if IsOwn(s, req) then s.covered + {req} else s.covered)
    case ForeignPut(peer, slot, obj) => Wrote(s, peer, Stored(s.peers[peer], slot, obj), slot.key)
    case ForeignDelete(peer, slot) =>
      Wrote(s, peer, s.peers[peer].(objects := s.peers[peer].objects - {slot}), slot.key)
    case TakeRequest(req) => s.(work := s.work.Take(req), calls := s.calls[req := Started])
    case GetCluster(req) =>
      if req.peer in s.known.found then s.(calls := s.calls[req := FoundPeer]) else Returned(s, req, true)
    case GetSource(req) => s.(calls := s.calls[req := ReadSource(Lookup(s.source, req.key))])
    case CheckShard(req) =>
      var src := s.calls[req].src;
      if Replicates(s.shards, src) then s.(calls := s.calls[req := Checked(src)]) else Returned(s, req, false)
    case GetPeer(req, answer) => s.(calls := s.calls[req := ReadPeer(s.calls[req].src, answer)])
    case SubmitWrite(req, replied) =>
      var w := PlannedWrite(s, req);
      var server := s.peers[req.peer];
      if w == Nothing then Returned(s, req, false)
      else
        var after := Execute(server, w);
        var s1 := if after != server then Wrote(s, req.peer, after, req.key) else s;
        Returned(s1, req, !Accepts(server, w) || !replied)
    case FailCall(req) => Returned(s, req, true)
    case RetryDue(req) => s.(work := s.work.(delayed := s.work.delayed - {req}).Add({req}))
  }

  /** The agent starts with nothing known about the source; the peers may already
      hold anything. */
  predicate Init(s: State) {
    && s.source == map[] && s.shards == {} && s.known == Known({}, {}, {})
    && s.events == map[] && s.peerEvents == {} && s.calls == map[]
    && s.work == WorkQueue({}, {}, {}, {})
    && s.ever == {} && s.covered == {}
    && forall p :: p in s.peers ==> ValidServer(s.peers[p]) && WellRouted(s.peers[p])
  }

  predicate Runs(s: State, steps: seq<Step>)
    decreases |steps|
  {
    steps == [] || (Enabled(s, steps[0]) && Runs(Apply(s, steps[0]), steps[1..]))
  }

  function After(s: State, steps: seq<Step>): State
    requires Runs(s, steps)
    decreases |steps|
  {
    if steps == [] then s else After(Apply(s, steps[0]), steps[1..])
  }

  // ---------------------------------------------------- what a step does to peers

  function ServerAfter(s: State, step: Step, p: PeerName): Server
    requires Enabled(s, step) && p in s.peers
  {
    var server := s.peers[p];
    if step.ForeignPut? && step.peer == p then Stored(server, step.slot, step.obj)
    else if step.ForeignDelete? && step.peer == p then server.(objects := server.objects - {step.slot})
    else if step.SubmitWrite? && step.req.peer == p then Execute(server, PlannedWrite(s, step.req))
    else server
  }

  lemma StepPeers(s: State, step: Step)
    requires Enabled(s, step)
    ensures Apply(s, step).peers.Keys == s.peers.Keys
  {
  }

  lemma WriteServer(s: State, req: Request, replied: bool, p: PeerName)
    requires Enabled(s, SubmitWrite(req, replied)) && p in s.peers
    ensures var after := Apply(s, SubmitWrite(req, replied));
      p in after.peers &&
      after.peers[p] == if req.peer == p then Execute(s.peers[p], PlannedWrite(s, req)) else s.peers[p]
  {
  }

  lemma StepServer(s: State, step: Step, p: PeerName)
    requires Enabled(s, step) && p in s.peers
    ensures p in Apply(s, step).peers && Apply(s, step).peers[p] == ServerAfter(s, step, p)
  {
    if step.SubmitWrite? {
      WriteServer(s, step.req, step.replied, p);
    }
  }

  predicate PeersRouted(s: State) {
    forall p :: p in s.peers ==> WellRouted(s.peers[p])
  }

  lemma ServerKeepsRouting(s: State, step: Step, p: PeerName)
    requires Enabled(s, step) && p in s.peers && WellRouted(s.peers[p])
    ensures WellRouted(ServerAfter(s, step, p))
  {
  }

  lemma StepKeepsRouting(s: State, step: Step)
    requires Enabled(s, step) && PeersRouted(s)
    ensures PeersRouted(Apply(s, step))
  {
    StepPeers(s, step);
    forall p | p in s.peers ensures WellRouted(Apply(s, step).peers[p]) {
      StepServer(s, step, p);
      ServerKeepsRouting(s, step, p);
    }
  }

  // --------------------------------------------------------------- invariant

  predicate Describes(event: Event, now: Option<Object>) {
    match event
    case Upserted(obj) => now == Some(obj)
    case Deleted(_) => now == None
  }

  ghost predicate EventsFollowSource(s: State) {
    forall key :: Pending(s, key) != [] ==>
      Describes(Pending(s, key)[|Pending(s, key)| - 1], Lookup(s.source, key))
  }

  predicate CallsAreProcessing(s: State) {
    s.work.Valid() && s.work.processing == s.calls.Keys
  }

  predicate CoveredIsOwned(s: State) {
    forall r :: r in s.covered ==>
      && r.peer in s.known.found && r.peer in s.known.watched && r.peer in s.peers
      && (r.key in s.source && Pending(s, r.key) == [] ==> ShardOf(s.source[r.key]) in s.shards)
  }

  predicate KnownNames(s: State) {
    && s.known.found <= s.peers.Keys && s.known.listed <= s.peers.Keys && s.known.watched <= s.peers.Keys
    && s.shards <= s.ever && forall shard :: shard in s.ever ==> IsShardName(shard)
  }

  predicate PastCheck(s: State, r: Request) {
    r in s.calls && (s.calls[r].Checked? || s.calls[r].ReadPeer?)
  }

  /** Past the check, a call works for a shard that was in the set at its check. */
  predicate CallsAreOwned(s: State) {
    forall r :: r in s.calls && PastCheck(s, r) ==> Replicates(s.ever, s.calls[r].src)
  }

  /** What the call has read is what is still there. */
  predicate Current(s: State, r: Request)
    requires r in s.calls && r.peer in s.peers
  {
    match s.calls[r]
    case Started => true
    case FoundPeer => true
    case ReadSource(src) => src == Lookup(s.source, r.key)
    case Checked(src) => src == Lookup(s.source, r.key)
    case ReadPeer(src, seen) =>
      src == Lookup(s.source, r.key) && Answers(s.peers[r.peer], ReadShard(src), r.key, seen)
  }

  /** The request is waiting to be looked at. */
  predicate Noticed(s: State, r: Request) {
    r in s.peerEvents || r in s.work.dirty || r in s.work.delayed
  }

  /** The request is waiting, or worked on with reads that are still true, or
      needs no work. */
  predicate Handled(s: State, r: Request)
    requires r.peer in s.peers
  {
    || Noticed(s, r)
    || (r in s.calls && Current(s, r))
    || Agrees(s.source, s.peers[r.peer], r.key)
  }

  predicate PendingOrConsistent(s: State, r: Request)
    requires r.peer in s.peers
  {
    Pending(s, r.key) != [] || Handled(s, r)
  }

  /** Peer events come from running watches. */
  predicate EventsWatched(s: State) {
    forall r :: r in s.peerEvents ==> r.peer in s.known.watched
  }

  ghost predicate Inv(s: State) {
    && EventsFollowSource(s) && CallsAreProcessing(s) && CoveredIsOwned(s)
    && KnownNames(s) && EventsWatched(s) && CallsAreOwned(s) && PeersRouted(s)
    && forall r :: r in s.covered ==> PendingOrConsistent(s, r)
  }

  lemma InitInv(s: State)
    requires Init(s)
    ensures Inv(s)
  {
  }

  predicate ChangesSource(step: Step, key: Key) {
    (step.PutSource? || step.DropSource?) && step.key == key
  }

  lemma PendingAfter(s: State, step: Step, key: Key)
    requires Enabled(s, step)
    ensures ChangesSource(step, key) ==>
      Pending(Apply(s, step), key) ==
        Pending(s, key) + [if step.PutSource? then Upserted(step.obj) else Deleted(s.source[key])]
    ensures step == HandleEvent(key) ==> Pending(Apply(s, step), key) == Pending(s, key)[1..]
    ensures !ChangesSource(step, key) && step != HandleEvent(key) ==> Pending(Apply(s, step), key) == Pending(s, key)
  {
  }

  lemma SourceAfter(s: State, step: Step, key: Key)
    requires Enabled(s, step)
    ensures Lookup(Apply(s, step).source, key) ==
      if !ChangesSource(step, key) then Lookup(s.source, key)
      else if step.PutSource? then Some(step.obj) else None
  {
  }

  lemma StepEvents(s: State, step: Step)
    requires EventsFollowSource(s) && Enabled(s, step)
    ensures EventsFollowSource(Apply(s, step))
  {
    var s' := Apply(s, step);
    forall key | Pending(s', key) != []
      ensures Describes(Pending(s', key)[|Pending(s', key)| - 1], Lookup(s'.source, key))
    {
      PendingAfter(s, step, key);
      SourceAfter(s, step, key);
    }
  }

  /** The event that was handled last shows the shard the source object is in. */
  lemma EventCovered(s: State, key: Key)
    requires EventsFollowSource(s) && CoveredIsOwned(s) && KnownNames(s) && Pending(s, key) != []
    ensures CoveredIsOwned(ApplyEvent(s, key))
  {
    var s' := ApplyEvent(s, key);
    var event := Pending(s, key)[0];
    assert Pending(s', key) == Pending(s, key)[1..];
    assert Pending(s', key) == [] ==> Describes(event, Lookup(s.source, key));
    forall r | r in s'.covered && r.key != key
      ensures r in s.covered && Pending(s', r.key) == Pending(s, r.key)
    {
    }
  }

  lemma ChangeUncovers(s: State, change: Change, peer: PeerName, r: Request)
    requires CanChange(s, change, peer) && r in Changed(s, change, peer).covered
    ensures r in s.covered && (peer == r.peer ==> !change.Lose? && !change.Unwatch?)
  {
  }

  lemma CoveredOrigin(s: State, step: Step, r: Request)
    requires Enabled(s, step) && step != HandleEvent(r.key) && r in Apply(s, step).covered
    ensures r in s.covered || (step == HandlePeerEvent(r) && IsOwn(s, r))
    ensures step != ChangePeer(Lose, r.peer) && step != ChangePeer(Unwatch, r.peer)
    ensures !(step.LoseShard? && InShard(s, r.key, step.shard))
  {
    if step.ChangePeer? {
      ChangeUncovers(s, step.change, step.peer, r);
    }
  }

  lemma CoveredOwned(s: State, step: Step, r: Request)
    requires CoveredIsOwned(s) && KnownNames(s) && Enabled(s, step) && !step.HandleEvent?
    requires r in Apply(s, step).covered
    ensures var s' := Apply(s, step);
      && r.peer in s'.known.found && r.peer in s'.known.watched && r.peer in s'.peers
      && (r.key in s'.source && Pending(s', r.key) == [] ==> ShardOf(s'.source[r.key]) in s'.shards)
  {
    StepPeers(s, step);
    CoveredOrigin(s, step, r);
    PendingAfter(s, step, r.key);
    SourceAfter(s, step, r.key);
    assert Lookup(s.source, r.key).Some? <==> r.key in s.source;
    assert Lookup(Apply(s, step).source, r.key).Some? <==> r.key in Apply(s, step).source;
  }

  lemma StepCovered(s: State, step: Step)
    requires EventsFollowSource(s) && CoveredIsOwned(s) && KnownNames(s) && Enabled(s, step)
    ensures CoveredIsOwned(Apply(s, step))
  {
    if step.HandleEvent? {
      EventCovered(s, step.key);
    } else {
      var s' := Apply(s, step);
      forall r | r in s'.covered
        ensures r.peer in s'.known.found && r.peer in s'.known.watched && r.peer in s'.peers
        ensures r.key in s'.source && Pending(s', r.key) == [] ==> ShardOf(s'.source[r.key]) in s'.shards
      {
        CoveredOwned(s, step, r);
      }
    }
  }

  lemma StepQueue(s: State, step: Step)
    requires CallsAreProcessing(s) && Enabled(s, step)
    ensures Apply(s, step).work.Valid()
  {
  }

  lemma StepCalls(s: State, step: Step)
    requires CallsAreProcessing(s) && Enabled(s, step)
    ensures CallsAreProcessing(Apply(s, step))
  {
    StepQueue(s, step);
    assert Apply(s, step).work.processing == Apply(s, step).calls.Keys;
  }

  lemma ChangeNames(s: State, change: Change, peer: PeerName)
    requires KnownNames(s) && CanChange(s, change, peer)
    ensures KnownNames(Changed(s, change, peer))
  {
  }

  lemma StepNames(s: State, step: Step)
    requires KnownNames(s) && Enabled(s, step)
    ensures KnownNames(Apply(s, step))
  {
    StepPeers(s, step);
    if step.ChangePeer? {
      ChangeNames(s, step.change, step.peer);
    }
  }

  lemma StepPastCheck(s: State, step: Step, r: Request)
    requires Enabled(s, step) && PastCheck(Apply(s, step), r)
    ensures r in s.calls && !s.calls[r].Started? && s.calls[r].src == Apply(s, step).calls[r].src
    ensures PastCheck(s, r) || (step == CheckShard(r) && Replicates(s.shards, s.calls[r].src))
    ensures step != TakeRequest(r)
  {
  }

  lemma StepOwned(s: State, step: Step)
    requires KnownNames(s) && CallsAreOwned(s) && Enabled(s, step)
    ensures CallsAreOwned(Apply(s, step))
  {
    var s' := Apply(s, step);
    assert s.ever <= s'.ever;
    forall r | r in s'.calls && PastCheck(s', r) ensures Replicates(s'.ever, s'.calls[r].src) {
      StepPastCheck(s, step, r);
    }
  }

  lemma StepEventsWatched(s: State, step: Step)
    requires EventsWatched(s) && Enabled(s, step)
    ensures EventsWatched(Apply(s, step))
  {
  }

  lemma ForeignHandled(s: State, step: Step, r: Request)
    requires Enabled(s, step) && (step.ForeignPut? || step.ForeignDelete?)
    requires r.peer in s.known.watched && r.peer in s.peers && Handled(s, r)
    ensures Handled(Apply(s, step), r)
  {
    if Request(step.peer, step.slot.key) == r {
      assert r in Apply(s, step).peerEvents;
    } else {
      assert Noticed(s, r) ==> Noticed(Apply(s, step), r);
    }
  }

  predicate IsWorkerStep(step: Step) {
    || step.TakeRequest? || step.GetCluster? || step.GetSource? || step.CheckShard? || step.GetPeer?
    || step.FailCall? || step.RetryDue?
  }

  lemma WorkerElsewhere(s: State, step: Step, r: Request)
    requires Enabled(s, step) && IsWorkerStep(step) && r != step.req
    requires r.peer in s.peers && Handled(s, r)
    ensures Handled(Apply(s, step), r)
  {
    assert Noticed(s, r) ==> Noticed(Apply(s, step), r);
  }

  lemma WorkerOwn(s: State, step: Step, r: Request)
    requires CallsAreProcessing(s) && Enabled(s, step) && IsWorkerStep(step)
    requires IsOwn(s, r) && r.peer in s.peers && Handled(s, r) && r == step.req
    ensures Handled(Apply(s, step), r)
  {
  }

  lemma WorkerHandled(s: State, step: Step, r: Request)
    requires CallsAreProcessing(s) && Enabled(s, step) && IsWorkerStep(step)
    requires IsOwn(s, r) && r.peer in s.peers && Handled(s, r)
    ensures Handled(Apply(s, step), r)
  {
    if r == step.req {
      WorkerOwn(s, step, r);
    } else {
      WorkerElsewhere(s, step, r);
    }
  }

  /** A write for one name says nothing about the others. */
  lemma WriteElsewhere(source: map<Key, Object>, server: Server, w: Write, key: Key)
    requires w.Nothing? || w.slot.key != key
    ensures var after := Execute(server, w);
      && (Agrees(source, server, key) ==> Agrees(source, after, key))
      && forall shard, answer :: Answers(server, shard, key, answer) ==> Answers(after, shard, key, answer)
  {
    var after := Execute(server, w);
    forall shard, answer | Answers(server, shard, key, answer) ensures Answers(after, shard, key, answer) {
      if IsWild(shard) && answer.Some? {
        var slot :| slot in server.objects && slot.key == key && server.objects[slot] == answer.value;
        assert slot in after.objects && after.objects[slot] == answer.value;
      }
    }
  }

  /** Whoever changed the peer is noticed, whoever was refused is retried, and
      whoever had nothing to change agreed. */
  lemma OwnWriteHandled(s: State, r: Request, replied: bool)
    requires Enabled(s, SubmitWrite(r, replied)) && IsOwn(s, r) && Handled(s, r)
    requires KnownNames(s) && PeersRouted(s)
    ensures Handled(Apply(s, SubmitWrite(r, replied)), r)
  {
    var s' := Apply(s, SubmitWrite(r, replied));
    var server := s.peers[r.peer];
    var w := PlannedWrite(s, r);
    if w != Nothing && Execute(server, w) != server {
      assert r in s'.peerEvents;
    } else if !Accepts(server, w) {
      assert r in s'.work.delayed;
    } else {
      assert Noticed(s, r) ==> Noticed(s', r);
      if !Noticed(s, r) && Current(s, r) {
        assert Agrees(s.source, server, r.key);
      }
    }
  }

  lemma WriteKeepsRequest(s: State, req: Request, replied: bool, r: Request)
    requires Enabled(s, SubmitWrite(req, replied)) && r != req
    ensures var s' := Apply(s, SubmitWrite(req, replied));
      && s'.source == s.source && (Noticed(s, r) ==> Noticed(s', r))
      && (r in s.calls ==> r in s'.calls && s'.calls[r] == s.calls[r])
  {
  }

  lemma OtherWriteHandled(s: State, req: Request, replied: bool, r: Request)
    requires Enabled(s, SubmitWrite(req, replied)) && r != req
    requires r.peer in s.peers && Handled(s, r)
    ensures Handled(Apply(s, SubmitWrite(req, replied)), r)
  {
    WriteKeepsRequest(s, req, replied, r);
    StepServer(s, SubmitWrite(req, replied), r.peer);
    if r.peer == req.peer {
      WriteElsewhere(s.source, s.peers[r.peer], PlannedWrite(s, req), r.key);
    }
  }

  /** Source, shard set and membership change nothing for `r`. */
  predicate LeavesTarget(step: Step, r: Request) {
    && !((step.PutSource? || step.DropSource?) && step.key == r.key)
    && step != ChangePeer(Unwatch, r.peer)
  }

  lemma ChangeHandled(s: State, change: Change, peer: PeerName, r: Request)
    requires CanChange(s, change, peer) && (peer == r.peer ==> !change.Unwatch?)
    requires r.peer in s.peers && Handled(s, r)
    ensures r.peer in Changed(s, change, peer).peers && Handled(Changed(s, change, peer), r)
  {
    assert Noticed(s, r) ==> Noticed(Changed(s, change, peer), r);
  }

  lemma ControlHandled(s: State, step: Step, r: Request)
    requires Enabled(s, step) && LeavesTarget(step, r) && r.peer in s.peers && Handled(s, r)
    requires !IsWorkerStep(step) && !step.SubmitWrite? && !step.ForeignPut? && !step.ForeignDelete?
    ensures r.peer in Apply(s, step).peers && Handled(Apply(s, step), r)
  {
    if step.ChangePeer? {
      ChangeHandled(s, step.change, step.peer, r);
    } else {
      assert Noticed(s, r) ==> Noticed(Apply(s, step), r);
      SourceAfter(s, step, r.key);
    }
  }

  /** One of the agent's own pairs stays handled whatever happens, as long as its
      source object and its peer's membership stay. */
  lemma StepHandled(s: State, step: Step, r: Request)
    requires CallsAreProcessing(s) && KnownNames(s) && PeersRouted(s) && Enabled(s, step)
    requires LeavesTarget(step, r) && IsOwn(s, r) && Handled(s, r)
    ensures r.peer in Apply(s, step).peers && Handled(Apply(s, step), r)
  {
    StepPeers(s, step);
    if IsWorkerStep(step) {
      WorkerHandled(s, step, r);
    } else if step.SubmitWrite? {
      if r == step.req {
        OwnWriteHandled(s, r, step.replied);
      } else {
        OtherWriteHandled(s, step.req, step.replied, r);
      }
    } else if step.ForeignPut? || step.ForeignDelete? {
      ForeignHandled(s, step, r);
    } else {
      ControlHandled(s, step, r);
    }
  }

  /** A pair whose event has just been handled is queued; a covered pair with no
      event outstanding is the agent's own and was handled before. */
  lemma CoveredBefore(s: State, step: Step, r: Request)
    requires CoveredIsOwned(s) && Enabled(s, step)
    requires r in Apply(s, step).covered && Pending(Apply(s, step), r.key) == []
    ensures r in Apply(s, step).work.dirty ||
      (r in s.covered && IsOwn(s, r) && Pending(s, r.key) == [] && LeavesTarget(step, r))
  {
    PendingAfter(s, step, r.key);
    if step == HandleEvent(r.key) {
      assert r in Apply(s, step).work.dirty;
    } else {
      CoveredOrigin(s, step, r);
      assert step == HandlePeerEvent(r) ==> r in Apply(s, step).work.dirty;
    }
  }

  lemma StepPending(s: State, step: Step, r: Request)
    requires Inv(s) && Enabled(s, step)
    requires r in Apply(s, step).covered && r.peer in Apply(s, step).peers
    ensures PendingOrConsistent(Apply(s, step), r)
  {
    if Pending(Apply(s, step), r.key) == [] {
      CoveredBefore(s, step, r);
      if r !in Apply(s, step).work.dirty {
        StepHandled(s, step, r);
      }
    }
  }

  lemma StepInv(s: State, step: Step)
    requires Inv(s) && Enabled(s, step)
    ensures Inv(Apply(s, step))
  {
    StepEvents(s, step);
    StepCovered(s, step);
    StepCalls(s, step);
    StepNames(s, step);
    StepEventsWatched(s, step);
    StepOwned(s, step);
    StepKeepsRouting(s, step);
    forall r | r in Apply(s, step).covered ensures PendingOrConsistent(Apply(s, step), r) {
      StepPending(s, step, r);
    }
  }

  // -------------------------------------------------------- pending or consistent

  lemma {:induction false} RunInv(s: State, steps: seq<Step>)
    requires Inv(s) && Runs(s, steps)
    ensures Inv(After(s, steps))
    decreases |steps|
  {
    if steps != [] {
      StepInv(s, steps[0]);
      RunInv(Apply(s, steps[0]), steps[1..]);
    }
  }

  /** In every run, every covered pair is waiting to be looked at, is being looked
      at with reads that are still true, or agrees with the source. */
  lemma EveryRunPendingOrConsistent(s: State, steps: seq<Step>, r: Request)
    requires Init(s) && Runs(s, steps)
    requires r in After(s, steps).covered
    ensures r.peer in After(s, steps).peers && PendingOrConsistent(After(s, steps), r)
  {
    InitInv(s);
    RunInv(s, steps);
  }

  // ------------------------------------------------------- what is covered

  /** The source handler sees an event of `r`'s key under an authoritative shard
      while `r`'s peer is found, listed and watched, or the peer's handler sees an
      event of `r` while it is the agent's own. */
  predicate CoversNow(s: State, step: Step, r: Request)
    requires Enabled(s, step)
  {
    || (step == HandleEvent(r.key) && r.peer in s.known.listed * s.known.found * s.known.watched
        && ShardOf(Pending(s, r.key)[0].obj) in s.shards)
    || (step == HandlePeerEvent(r) && IsOwn(s, r))
  }

  /** A later event of the key replaces the promise; the peer leaving, or the
      object's shard leaving the set, ends it. */
  predicate Uncovers(s: State, step: Step, r: Request)
    requires Enabled(s, step)
  {
    || (step == HandleEvent(r.key) && !CoversNow(s, step, r))
    || step == ChangePeer(Lose, r.peer) || step == ChangePeer(Unwatch, r.peer)
    || (step.LoseShard? && InShard(s, r.key, step.shard))
  }

  predicate StaysCovered(s: State, steps: seq<Step>, r: Request)
    requires Runs(s, steps)
    decreases |steps|
  {
    steps == [] || (!Uncovers(s, steps[0], r) && StaysCovered(Apply(s, steps[0]), steps[1..], r))
  }

  /** The i-th step covers `r` and nothing after it ends that. */
  predicate CoveredSince(s: State, steps: seq<Step>, r: Request, i: nat)
    requires Runs(s, steps) && i < |steps|
    decreases i
  {
    var s1 := Apply(s, steps[0]);
    if i == 0 then CoversNow(s, steps[0], r) && StaysCovered(s1, steps[1..], r)
    else CoveredSince(s1, steps[1..], r, i - 1)
  }

  lemma ChangeCoverage(s: State, change: Change, peer: PeerName, r: Request)
    requires CanChange(s, change, peer)
    ensures r in Changed(s, change, peer).covered <==>
      r in s.covered && !((change.Lose? || change.Unwatch?) && peer == r.peer)
  {
  }

  lemma EventCoverage(s: State, key: Key, r: Request)
    requires Enabled(s, HandleEvent(key))
    ensures r in ApplyEvent(s, key).covered <==>
      CoversNow(s, HandleEvent(key), r) || (r in s.covered && !Uncovers(s, HandleEvent(key), r))
  {
  }

  lemma StepCoverage(s: State, step: Step, r: Request)
    requires Enabled(s, step)
    ensures r in Apply(s, step).covered <==>
      CoversNow(s, step, r) || (r in s.covered && !Uncovers(s, step, r))
  {
    if step.ChangePeer? {
      ChangeCoverage(s, step.change, step.peer, r);
    } else if step.HandleEvent? {
      EventCoverage(s, step.key, r);
    }
  }

  lemma {:induction false} StaysCoveredCovers(s: State, steps: seq<Step>, r: Request)
    requires Runs(s, steps) && r in s.covered && StaysCovered(s, steps, r)
    ensures r in After(s, steps).covered
    decreases |steps|
  {
    if steps != [] {
      StepCoverage(s, steps[0], r);
      StaysCoveredCovers(Apply(s, steps[0]), steps[1..], r);
    }
  }

  lemma {:induction false} CoveredSinceCovers(s: State, steps: seq<Step>, r: Request, i: nat)
    requires Runs(s, steps) && i < |steps| && CoveredSince(s, steps, r, i)
    ensures r in After(s, steps).covered
    decreases i
  {
    if i == 0 {
      StepCoverage(s, steps[0], r);
      StaysCoveredCovers(Apply(s, steps[0]), steps[1..], r);
    } else {
      CoveredSinceCovers(Apply(s, steps[0]), steps[1..], r, i - 1);
    }
  }

  /** The step since which a covered pair is covered; -1 if it was from the start. */
  lemma {:induction false} CoveredHasReason(s: State, steps: seq<Step>, r: Request) returns (i: int)
    requires Runs(s, steps) && r in After(s, steps).covered
    ensures -1 <= i < |steps|
    ensures if i < 0 then r in s.covered && StaysCovered(s, steps, r) else CoveredSince(s, steps, r, i)
    decreases |steps|
  {
    i := -1;
    if steps != [] {
      var s1, rest := Apply(s, steps[0]), steps[1..];
      StepCoverage(s, steps[0], r);
      var later := CoveredHasReason(s1, rest, r);
      i := if later >= 0 then later + 1 else if CoversNow(s, steps[0], r) then 0 else -1;
    }
  }

  predicate CoveredByStep(s: State, steps: seq<Step>, r: Request, i: int)
    requires Runs(s, steps)
  {
    0 <= i < |steps| && CoveredSince(s, steps, r, i)
  }

  /** The covered pairs, told by the history of the run. */
  lemma CoveredMeans(s: State, steps: seq<Step>, r: Request)
    requires Init(s) && Runs(s, steps)
    ensures r in After(s, steps).covered <==> exists i :: CoveredByStep(s, steps, r, i)
  {
    if i :| CoveredByStep(s, steps, r, i) {
      CoveredSinceCovers(s, steps, r, i);
    }
    if r in After(s, steps).covered {
      var i := CoveredHasReason(s, steps, r);
      assert CoveredByStep(s, steps, r, i);
    }
  }

  predicate Quiescent(s: State) {
    && (forall key :: key in s.events ==> s.events[key] == [])
    && s.peerEvents == {} && s.work.dirty == {} && s.work.delayed == {} && s.calls == map[]
  }

  /** So once nothing is left to do, every covered pair agrees. */
  lemma QuiescentRunsAgree(s: State, steps: seq<Step>)
    requires Init(s) && Runs(s, steps) && Quiescent(After(s, steps))
    ensures var end := After(s, steps);
      forall r :: r in end.covered ==> r.peer in end.peers && Agrees(end.source, end.peers[r.peer], r.key)
  {
    var end := After(s, steps);
    forall r | r in end.covered ensures r.peer in end.peers && Agrees(end.source, end.peers[r.peer], r.key) {
      EveryRunPendingOrConsistent(s, steps, r);
    }
  }

  // ------------------------------------------------------------ short runs, step by step

  lemma {:induction false} RunThenStep(s: State, steps: seq<Step>, step: Step)
    requires Runs(s, steps) && Enabled(After(s, steps), step)
    ensures Runs(s, steps + [step]) && After(s, steps + [step]) == Apply(After(s, steps), step)
    decreases |steps|
  {
    if steps == [] {
      assert [] + [step] == [step] && [step][1..] == [];
    } else {
      assert (steps + [step])[1..] == steps[1..] + [step];
      RunThenStep(Apply(s, steps[0]), steps[1..], step);
    }
  }

  lemma UnfoldTwo(s: State, a: Step, b: Step)
    requires Enabled(s, a) && Enabled(Apply(s, a), b)
    ensures Runs(s, [a, b]) && After(s, [a, b]) == Apply(Apply(s, a), b)
  {
    assert [a, b][1..] == [b] && [b][1..] == [];
    var s1 := Apply(s, a);
    assert Runs(Apply(s1, b), []);
    assert Runs(s1, [b]);
    assert After(s1, [b]) == After(Apply(s1, b), []) == Apply(s1, b);
    assert [a, b][0] == a && Runs(s, [a, b]);
  }

  lemma UnfoldThree(s: State, a: Step, b: Step, c: Step)
    requires Enabled(s, a) && Enabled(Apply(s, a), b) && Enabled(Apply(Apply(s, a), b), c)
    ensures Runs(s, [a, b, c]) && After(s, [a, b, c]) == Apply(Apply(Apply(s, a), b), c)
  {
    UnfoldTwo(Apply(s, a), b, c);
    assert [a, b, c][1..] == [b, c];
  }

  lemma UnfoldFour(s: State, a: Step, b: Step, c: Step, d: Step)
    requires Enabled(s, a) && Enabled(Apply(s, a), b)
    requires var s2 := Apply(Apply(s, a), b); Enabled(s2, c) && Enabled(Apply(s2, c), d)
    ensures Runs(s, [a, b, c, d])
    ensures After(s, [a, b, c, d]) == Apply(Apply(Apply(Apply(s, a), b), c), d)
  {
    UnfoldTwo(Apply(Apply(s, a), b), c, d);
    assert [a, b, c, d][1..] == [b, c, d] && [b, c, d][1..] == [c, d];
  }
}
