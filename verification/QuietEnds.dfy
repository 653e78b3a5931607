/** Which pairs the agent's own steps bring into agreement: an exact answer for
    every pair that is the agent's to replicate, in every reachable state. Drift on
    a peer always is corrected; a late peer or a late shard gets what happens to be
    noticed, and nothing else. */
module QuietEnds {
  import opened Wrappers
  import opened Objects
  import opened Replication
  import opened ReplicationRuns
  import opened QuietRuns

  /** Some event of the name that the source handler has yet to see will pass its
      shard test. */
  predicate HasOwnEvent(s: State, key: Key) {
    exists i :: 0 <= i < |Pending(s, key)| && ShardOf(Pending(s, key)[i].obj) in s.shards
  }

  /** A call is going to send a write that changes the peer or is refused. On a
      watched peer either puts the request back into the queue. */
  predicate WillWrite(s: State, r: Request)
    requires r in s.calls && r.peer in s.peers
  {
    match s.calls[r]
    case Started =>
      var src := Lookup(s.source, r.key);
      Replicates(s.shards, src) && !Holds(s.peers[r.peer], r.key, src)
    case FoundPeer =>
      var src := Lookup(s.source, r.key);
      Replicates(s.shards, src) && !Holds(s.peers[r.peer], r.key, src)
    case ReadSource(src) => Replicates(s.shards, src) && !Holds(s.peers[r.peer], r.key, src)
    case Checked(src) => !Holds(s.peers[r.peer], r.key, src)
    case ReadPeer(_, _) =>
      var w := PlannedWrite(s, r);
      !w.Nothing? && (w.Delete? ==> w.slot in s.peers[r.peer].objects)
  }

  /** The two ways in which a call bears on the prospect of its pair. */
  predicate CallHelps(s: State, r: Request)
    requires r.peer in s.peers
  {
    r in s.calls && (Current(s, r) || WillWrite(s, r))
  }

  /** The agent is going to look at the pair with fresh reads, or need not. */
  predicate Foreseen(s: State, r: Request)
    requires r.peer in s.peers
  {
    || (r.peer in s.known.listed && HasOwnEvent(s, r.key))
    || Noticed(s, r) || CallHelps(s, r) || Agrees(s.source, s.peers[r.peer], r.key)
  }

  lemma StepIsOwn(s: State, step: Step, r: Request)
    requires Enabled(s, step) && IsQuiet(s, step)
    ensures IsOwn(Apply(s, step), r) <==> IsOwn(s, r)
  {
  }

  // ------------------------------------------------------- steps beside the pair

  /** A write for another name changes nothing that is known about this one. */
  lemma SameBeside(server: Server, w: Write, key: Key, shard: Shard, src: Option<Object>, answer: Option<Object>)
    requires w.Nothing? || w.slot.key != key
    ensures var after := Execute(server, w);
      && (Holds(after, key, src) <==> Holds(server, key, src))
      && (Answers(after, shard, key, answer) <==> Answers(server, shard, key, answer))
  {
    var after := Execute(server, w);
    forall slot: Slot | slot.key == key ensures Lookup(after.objects, slot) == Lookup(server.objects, slot) {
    }
    assert forall slot: Slot :: slot.key == key ==> (slot in after.objects <==> slot in server.objects);
    if IsWild(shard) && answer.Some? {
      if slot :| slot in server.objects && slot.key == key && server.objects[slot] == answer.value {
        assert slot in after.objects && after.objects[slot] == answer.value;
      }
    }
  }

  lemma CallSameBeside(s: State, step: Step, r: Request)
    requires Enabled(s, step) && IsWork(step) && r != step.req && r.peer in s.peers
    requires r in s.calls
    ensures var s' := Apply(s, step);
      && r in s'.calls && r.peer in s'.peers
      && (Current(s', r) <==> Current(s, r)) && (WillWrite(s', r) <==> WillWrite(s, r))
  {
    var s' := Apply(s, step);
    StepTouchesOne(s, step, r);
    WroteBeside(s, step, r);
    assert Lookup(s'.calls, r).Some? && s'.calls[r] == s.calls[r] && s'.shards == s.shards;
    var server, w := s.peers[r.peer], WriteBeside(s, step, r);
    match s.calls[r]
    case Started => SameBeside(server, w, r.key, "", Lookup(s.source, r.key), None);
    case FoundPeer => SameBeside(server, w, r.key, "", Lookup(s.source, r.key), None);
    case ReadSource(src) => SameBeside(server, w, r.key, "", src, None);
    case Checked(src) => SameBeside(server, w, r.key, "", src, None);
    case ReadPeer(src, seen) => SameBeside(server, w, r.key, ReadShard(src), src, seen);
  }

  lemma ForeseenBeside(s: State, step: Step, r: Request)
    requires Enabled(s, step) && IsWork(step) && r != step.req && r.peer in s.peers
    ensures r.peer in Apply(s, step).peers && (Foreseen(Apply(s, step), r) <==> Foreseen(s, r))
  {
    var s' := Apply(s, step);
    StepTouchesOne(s, step, r);
    WroteBeside(s, step, r);
    SameBeside(s.peers[r.peer], WriteBeside(s, step, r), r.key, "", Lookup(s.source, r.key), None);
    assert s'.shards == s.shards && s'.known == s.known && Pending(s', r.key) == Pending(s, r.key);
    if r in s.calls {
      CallSameBeside(s, step, r);
    } else {
      assert Lookup(s'.calls, r).None?;
    }
  }

  // ------------------------------------------------------------- steps of the pair

  /** An event of the name is taken; another name's events are left alone. */
  lemma EventForeseen(s: State, key: Key, r: Request)
    requires Pending(s, key) != [] && r.peer in s.peers
    ensures Foreseen(ApplyEvent(s, key), r) <==> Foreseen(s, r)
  {
    var s' := ApplyEvent(s, key);
    if r.key == key {
      assert Pending(s', key) == Pending(s, key)[1..];
      if i :| 0 <= i < |Pending(s, key)| && ShardOf(Pending(s, key)[i].obj) in s.shards {
        if i == 0 {
          assert r.peer in s.known.listed ==> r in s'.work.dirty;
        } else {
          assert Pending(s', key)[i - 1] == Pending(s, key)[i];
        }
      }
      if i :| 0 <= i < |Pending(s', key)| && ShardOf(Pending(s', key)[i].obj) in s.shards {
        assert Pending(s, key)[i + 1] == Pending(s', key)[i];
      }
    } else {
      assert Pending(s', r.key) == Pending(s, r.key);
    }
  }

  /** What a call that reads the peer now is going to write. */
  lemma ReadForesees(server: Server, key: Key, src: Option<Object>, answer: Option<Object>)
    requires WellRouted(server) && (src.Some? ==> IsShardName(ShardOf(src.value)))
    requires Answers(server, ReadShard(src), key, answer)
    ensures var w := Plan(key, src, answer);
      Holds(server, key, src) <==> w.Nothing?
    ensures var w := Plan(key, src, answer);
      w.Delete? ==> w.slot in server.objects
  {
  }

  /** A step that reads leaves all else that the prospect depends on alone. */
  lemma ReadKeepsRest(s: State, step: Step)
    requires Enabled(s, step) && IsReadStep(step) && !IsFutile(s, step)
    ensures var s' := Apply(s, step);
      && s'.source == s.source && s'.peers == s.peers && s'.shards == s.shards && s'.events == s.events
      && s'.known == s.known
      && (Noticed(s', step.req) <==> Noticed(s, step.req))
  {
  }

  lemma CheckKeepsHelp(s: State, r: Request)
    requires Enabled(s, CheckShard(r)) && IsOwn(s, r) && r.peer in s.peers
    ensures r.peer in Apply(s, CheckShard(r)).peers && (CallHelps(Apply(s, CheckShard(r)), r) <==> CallHelps(s, r))
  {
  }

  lemma ReadKeepsHelp(s: State, r: Request, src: Option<Object>, answer: Option<Object>)
    requires Enabled(s, GetPeer(r, answer)) && s.calls[r] == Checked(src)
    requires WellRouted(s.peers[r.peer]) && (src.Some? ==> IsShardName(ShardOf(src.value)))
    ensures r.peer in Apply(s, GetPeer(r, answer)).peers
    ensures CallHelps(Apply(s, GetPeer(r, answer)), r) <==> CallHelps(s, r)
  {
    var s' := Apply(s, GetPeer(r, answer));
    ReadForesees(s.peers[r.peer], r.key, src, answer);
    assert s'.calls[r] == ReadPeer(src, answer);
    assert WillWrite(s', r) <==> WillWrite(s, r);
  }

  lemma CallForeseen(s: State, step: Step)
    requires KnownNames(s) && CallsAreOwned(s) && PeersRouted(s)
    requires IsReadStep(step) && Enabled(s, step) && IsOwn(s, step.req) && step.req.peer in s.peers
    ensures step.req.peer in Apply(s, step).peers
    ensures Foreseen(Apply(s, step), step.req) <==> Foreseen(s, step.req)
  {
    ReadKeepsRest(s, step);
    assert Pending(Apply(s, step), step.req.key) == Pending(s, step.req.key);
    if step.CheckShard? {
      CheckKeepsHelp(s, step.req);
    } else if step.GetPeer? {
      assert PastCheck(s, step.req);
      ReadKeepsHelp(s, step.req, s.calls[step.req].src, step.answer);
    } else {
      assert CallHelps(s, step.req) && CallHelps(Apply(s, step), step.req);
    }
  }

  /** A write that has an effect or is refused brings the request of a watched peer
      back; one that is neither leaves everything as it was. */
  lemma WriteReturns(s: State, r: Request)
    requires Enabled(s, SubmitWrite(r, true)) && r.peer in s.known.watched
    ensures var s' := Apply(s, SubmitWrite(r, true));
      && r.peer in s'.peers && r !in s'.calls && s'.source == s.source && s'.shards == s.shards
      && s'.known == s.known && s'.events == s.events
      && (Noticed(s', r) <==> Noticed(s, r) || WillWrite(s, r))
      && (!WillWrite(s, r) ==> s'.peers[r.peer] == s.peers[r.peer])
  {
    StepServer(s, SubmitWrite(r, true), r.peer);
  }

  /** A call whose reads are true and that writes nothing finds the pair in agreement. */
  lemma NothingToWriteAgrees(s: State, r: Request)
    requires KnownNames(s) && CallsAreOwned(s) && PeersRouted(s)
    requires Enabled(s, SubmitWrite(r, true)) && Current(s, r) && !WillWrite(s, r)
    ensures Agrees(s.source, s.peers[r.peer], r.key)
  {
    assert PastCheck(s, r);
    ReadForesees(s.peers[r.peer], r.key, s.calls[r].src, s.calls[r].seen);
  }

  lemma WriteForeseen(s: State, r: Request)
    requires KnownNames(s) && CallsAreOwned(s) && PeersRouted(s)
    requires Enabled(s, SubmitWrite(r, true)) && IsOwn(s, r)
    ensures r.peer in Apply(s, SubmitWrite(r, true)).peers
    ensures Foreseen(Apply(s, SubmitWrite(r, true)), r) <==> Foreseen(s, r)
  {
    WriteReturns(s, r);
    assert Pending(Apply(s, SubmitWrite(r, true)), r.key) == Pending(s, r.key);
    if Current(s, r) && !WillWrite(s, r) {
      NothingToWriteAgrees(s, r);
    }
  }

  lemma QueueForeseen(s: State, step: Step)
    requires step.HandlePeerEvent? || step.RetryDue? || step.TakeRequest?
    requires CallsAreProcessing(s) && Enabled(s, step) && IsOwn(s, step.req) && step.req.peer in s.peers
    ensures step.req.peer in Apply(s, step).peers
    ensures Foreseen(Apply(s, step), step.req) && Foreseen(s, step.req)
  {
  }

  lemma CleanUpForeseen(s: State, step: Step, r: Request)
    requires Enabled(s, step) && IsCleanUp(s, step) && r.peer in s.known.found && r.peer in s.peers
    ensures r.peer in Apply(s, step).peers && (Foreseen(Apply(s, step), r) <==> Foreseen(s, r))
  {
    assert Pending(Apply(s, step), r.key) == Pending(s, r.key);
    assert Noticed(Apply(s, step), r) <==> Noticed(s, r);
  }

  /** None of the agent's own steps makes or breaks the prospect of a pair. */
  lemma StepForeseen(s: State, step: Step, r: Request)
    requires CallsAreProcessing(s) && KnownNames(s) && CallsAreOwned(s) && PeersRouted(s)
    requires Enabled(s, step) && IsQuiet(s, step) && IsOwn(s, r) && r.peer in s.peers
    ensures r.peer in Apply(s, step).peers && (Foreseen(Apply(s, step), r) <==> Foreseen(s, r))
  {
    if step.HandleEvent? {
      EventForeseen(s, step.key, r);
    } else if IsCleanUp(s, step) {
      CleanUpForeseen(s, step, r);
    } else if r != step.req {
      ForeseenBeside(s, step, r);
    } else if IsReadStep(step) {
      CallForeseen(s, step);
    } else if step.SubmitWrite? {
      WriteForeseen(s, r);
    } else {
      QueueForeseen(s, step);
    }
  }

  lemma {:induction false} RunForeseen(s: State, quiet: seq<Step>, r: Request, rs: set<Request>, keys: set<Key>)
    requires QuietInv(s, rs, keys) && QuietRun(s, quiet) && IsOwn(s, r) && r.peer in s.peers
    ensures var end := After(s, quiet);
      && QuietInv(end, rs, keys) && IsOwn(end, r) && r.peer in end.peers
      && (Foreseen(end, r) <==> Foreseen(s, r))
    decreases |quiet|
  {
    if quiet != [] {
      StepIsOwn(s, quiet[0], r);
      StepForeseen(s, quiet[0], r);
      StepQuietInv(s, quiet[0], rs, keys);
      RunForeseen(Apply(s, quiet[0]), quiet[1..], r, rs, keys);
    }
  }

  // ------------------------------------------------------------------ quiet ends

  /** After any run, for any pair that is the agent's to replicate: however the
      agent's own steps go on from there, when no useful one is left the peer agrees
      with the source exactly if that was to be foreseen. */
  lemma QuietEndsAgreeIff(s: State, steps: seq<Step>, quiet: seq<Step>, r: Request)
    requires Init(s) && Runs(s, steps) && IsOwn(After(s, steps), r)
    requires QuietRun(After(s, steps), quiet) && Idle(After(After(s, steps), quiet))
    ensures var now := After(s, steps);
      var end := After(now, quiet);
      && r.peer in now.peers && r.peer in end.peers
      && (Agrees(end.source, end.peers[r.peer], r.key) <==> Foreseen(now, r))
  {
    var now := After(s, steps);
    var end := After(now, quiet);
    RunQuietInv(s, steps);
    RunForeseen(now, quiet, r, AllRequests(now), now.events.Keys);
    IdleIsDone(end, AllRequests(now), now.events.Keys);
    assert Pending(end, r.key) == [] && !Noticed(end, r) && r !in end.calls;
  }

  /** Drift is corrected: whatever another writer does to a found and watched peer
      under one of the agent's names, in whatever state, once the agent has run out
      of steps the peer agrees with the source again. */
  lemma DriftIsCorrected(s: State, steps: seq<Step>, drift: Step, quiet: seq<Step>)
    requires Init(s) && Runs(s, steps) && Enabled(After(s, steps), drift)
    requires drift.ForeignPut? || drift.ForeignDelete?
    requires IsOwn(After(s, steps), Request(drift.peer, drift.slot.key))
    requires QuietRun(Apply(After(s, steps), drift), quiet)
    requires Idle(After(Apply(After(s, steps), drift), quiet))
    ensures var end := After(Apply(After(s, steps), drift), quiet);
      drift.peer in end.peers && Agrees(end.source, end.peers[drift.peer], drift.slot.key)
  {
    var r := Request(drift.peer, drift.slot.key);
    RunThenStep(s, steps, drift);
    QuietEndsAgreeIff(s, steps + [drift], quiet, r);
    assert r in Apply(After(s, steps), drift).peerEvents;
  }

  // ------------------------------------------------------- late peers, late shards

  /** A peer whose watch starts when the agent has nothing in hand for a name of its
      shards gets the object exactly if it holds some object of that name then, right
      or wrong: that is all the first listing of the watch can show. */
  lemma LatePeerIsServedIff(s: State, steps: seq<Step>, r: Request, quiet: seq<Step>)
    requires Init(s) && Runs(s, steps) && Enabled(After(s, steps), ChangePeer(Watch, r.peer))
    requires var now := After(s, steps);
      r.peer in now.known.found && r.key in now.source && ShardOf(now.source[r.key]) in now.shards
    requires Pending(After(s, steps), r.key) == [] && !Mentioned(After(s, steps), r)
    requires var late := Apply(After(s, steps), ChangePeer(Watch, r.peer));
      QuietRun(late, quiet) && Idle(After(late, quiet))
    ensures var end := After(Apply(After(s, steps), ChangePeer(Watch, r.peer)), quiet);
      r.peer in end.peers &&
      (Agrees(end.source, end.peers[r.peer], r.key) <==>
        exists slot :: slot in After(s, steps).peers[r.peer].objects && slot.key == r.key)
  {
    var now := After(s, steps);
    var late := Apply(now, ChangePeer(Watch, r.peer));
    RunThenStep(s, steps, ChangePeer(Watch, r.peer));
    QuietEndsAgreeIff(s, steps + [ChangePeer(Watch, r.peer)], quiet, r);
    assert Pending(late, r.key) == [] && r !in late.calls && !HasOwnEvent(late, r.key);
    assert Noticed(late, r) <==> r in late.peerEvents;
    if slot :| slot in now.peers[r.peer].objects && slot.key == r.key {
      assert r in late.peerEvents;
    }
  }

  /** A shard that becomes authoritative when the agent has nothing in hand for one
      of its names brings nothing about: the peer ends up in agreement exactly if it
      was already. */
  lemma LateShardIsServedIff(s: State, steps: seq<Step>, shard: Shard, r: Request, quiet: seq<Step>)
    requires Init(s) && Runs(s, steps) && Enabled(After(s, steps), GainShard(shard))
    requires var now := After(s, steps);
      r.peer in now.known.found * now.known.watched && r.key in now.source && ShardOf(now.source[r.key]) == shard
    requires Pending(After(s, steps), r.key) == [] && !Mentioned(After(s, steps), r)
    requires var late := Apply(After(s, steps), GainShard(shard));
      QuietRun(late, quiet) && Idle(After(late, quiet))
    ensures var now := After(s, steps);
      var end := After(Apply(now, GainShard(shard)), quiet);
      && r.peer in now.peers && r.peer in end.peers
      && (Agrees(end.source, end.peers[r.peer], r.key) <==> Agrees(now.source, now.peers[r.peer], r.key))
  {
    var late := Apply(After(s, steps), GainShard(shard));
    RunThenStep(s, steps, GainShard(shard));
    QuietEndsAgreeIff(s, steps + [GainShard(shard)], quiet, r);
    assert Pending(late, r.key) == [] && !HasOwnEvent(late, r.key);
  }

  /** The pair is the agent's own, and the agent's own steps do not serve it. */
  ghost predicate NotServed(s: State, r: Request) {
    && IsOwn(s, r) && r.key in s.source
    && forall quiet :: QuietRun(s, quiet) && Idle(After(s, quiet)) ==>
         var end := After(s, quiet);
         r.peer in end.peers && !Agrees(end.source, end.peers[r.peer], r.key)
  }

  lemma LatePeerIsMissed(s: State, steps: seq<Step>, r: Request)
    requires Init(s) && Runs(s, steps) && Enabled(After(s, steps), ChangePeer(Watch, r.peer))
    requires var now := After(s, steps);
      r.peer in now.known.found && r.key in now.source && ShardOf(now.source[r.key]) in now.shards
    requires Pending(After(s, steps), r.key) == [] && !Mentioned(After(s, steps), r)
    requires forall slot :: slot in After(s, steps).peers[r.peer].objects ==> slot.key != r.key
    ensures NotServed(Apply(After(s, steps), ChangePeer(Watch, r.peer)), r)
  {
    var late := Apply(After(s, steps), ChangePeer(Watch, r.peer));
    forall quiet | QuietRun(late, quiet) && Idle(After(late, quiet))
      ensures var e := After(late, quiet); r.peer in e.peers && !Agrees(e.source, e.peers[r.peer], r.key)
    {
      LatePeerIsServedIff(s, steps, r, quiet);
    }
  }

  lemma LateShardIsMissed(s: State, steps: seq<Step>, shard: Shard, r: Request)
    requires Init(s) && Runs(s, steps) && Enabled(After(s, steps), GainShard(shard))
    requires var now := After(s, steps);
      r.peer in now.known.found * now.known.watched && r.key in now.source && ShardOf(now.source[r.key]) == shard
    requires Pending(After(s, steps), r.key) == [] && !Mentioned(After(s, steps), r)
    requires var now := After(s, steps); r.peer in now.peers && !Agrees(now.source, now.peers[r.peer], r.key)
    ensures NotServed(Apply(After(s, steps), GainShard(shard)), r)
  {
    var late := Apply(After(s, steps), GainShard(shard));
    forall quiet | QuietRun(late, quiet) && Idle(After(late, quiet))
      ensures var e := After(late, quiet); r.peer in e.peers && !Agrees(e.source, e.peers[r.peer], r.key)
    {
      LateShardIsServedIff(s, steps, shard, r, quiet);
    }
  }

  /** The agent has served the object to the peers listed, none, and is idle. */
  predicate ServedNobody(s: State, r: Request, obj: Object) {
    && s.source == map[r.key := obj] && Pending(s, r.key) == [] && !Mentioned(s, r)
    && r.peer in s.known.found && r.peer in s.peers && s.peers[r.peer].objects == map[]
  }

  lemma EventBeforeWatch(s: State, r: Request, obj: Object)
    requires Init(s) && r.peer in s.peers && s.peers[r.peer].objects == map[] && IsShardName(ShardOf(obj))
    ensures var shard := ShardOf(obj);
      var steps := [ChangePeer(Find, r.peer), GainShard(shard), PutSource(r.key, obj), HandleEvent(r.key)];
      Runs(s, steps) && ServedNobody(After(s, steps), r, obj) && shard in After(s, steps).shards
  {
    UnfoldFour(s, ChangePeer(Find, r.peer), GainShard(ShardOf(obj)), PutSource(r.key, obj), HandleEvent(r.key));
  }

  lemma EventBeforeShard(s: State, r: Request, obj: Object)
    requires Init(s) && r.peer in s.peers && s.peers[r.peer].objects == map[] && IsShardName(ShardOf(obj))
    ensures var steps :=
        [ChangePeer(Find, r.peer), ChangePeer(Watch, r.peer), PutSource(r.key, obj), HandleEvent(r.key)];
      Runs(s, steps) && ServedNobody(After(s, steps), r, obj) && r.peer in After(s, steps).known.watched
  {
    UnfoldFour(s, ChangePeer(Find, r.peer), ChangePeer(Watch, r.peer), PutSource(r.key, obj), HandleEvent(r.key));
  }

  /** So an empty peer whose watch starts after the object's event, even if it was
      found before, and a shard that becomes authoritative after it, are left
      without the object, until another source event of the name comes. */
  lemma LateComersAreMissed(s: State, r: Request, obj: Object)
    requires Init(s) && r.peer in s.peers && s.peers[r.peer].objects == map[] && IsShardName(ShardOf(obj))
    ensures var shard := ShardOf(obj);
      var steps := [ChangePeer(Find, r.peer), GainShard(shard), PutSource(r.key, obj), HandleEvent(r.key)];
      Runs(s, steps) && Enabled(After(s, steps), ChangePeer(Watch, r.peer)) &&
      NotServed(Apply(After(s, steps), ChangePeer(Watch, r.peer)), r)
    ensures var steps :=
        [ChangePeer(Find, r.peer), ChangePeer(Watch, r.peer), PutSource(r.key, obj), HandleEvent(r.key)];
      Runs(s, steps) && Enabled(After(s, steps), GainShard(ShardOf(obj))) &&
      NotServed(Apply(After(s, steps), GainShard(ShardOf(obj))), r)
  {
    var shard := ShardOf(obj);
    var run := [ChangePeer(Find, r.peer), GainShard(shard), PutSource(r.key, obj), HandleEvent(r.key)];
    EventBeforeWatch(s, r, obj);
    LatePeerIsMissed(s, run, r);
    var run' := [ChangePeer(Find, r.peer), ChangePeer(Watch, r.peer), PutSource(r.key, obj), HandleEvent(r.key)];
    EventBeforeShard(s, r, obj);
    LateShardIsMissed(s, run', shard, r);
  }

  /** Drift on a peer whose watch has yet to start is lost, if it leaves the peer
      without any object of the name: the first listing does not show it. */
  lemma DriftBeforeWatchIsMissed(s: State, steps: seq<Step>, r: Request, slot: Slot)
    requires Init(s) && Runs(s, steps) && slot.key == r.key
    requires var now := After(s, steps);
      && Enabled(now, ForeignDelete(r.peer, slot)) && r.peer in now.known.found && r.peer !in now.known.watched
      && r.key in now.source && ShardOf(now.source[r.key]) in now.shards
      && (forall other :: other in now.peers[r.peer].objects && other.key == r.key ==> other == slot)
    requires Pending(After(s, steps), r.key) == [] && !Mentioned(After(s, steps), r)
    ensures var drifted := Apply(After(s, steps), ForeignDelete(r.peer, slot));
      Enabled(drifted, ChangePeer(Watch, r.peer)) && NotServed(Apply(drifted, ChangePeer(Watch, r.peer)), r)
  {
    RunThenStep(s, steps, ForeignDelete(r.peer, slot));
    LatePeerIsMissed(s, steps + [ForeignDelete(r.peer, slot)], r);
  }

  /** Another source event of the name, such as a periodic resync that reports the
      object as it is, serves every listed peer whatever was missed before. */
  lemma ResyncServes(s: State, steps: seq<Step>, r: Request, quiet: seq<Step>)
    requires Init(s) && Runs(s, steps) && IsOwn(After(s, steps), r)
    requires r.peer in After(s, steps).known.listed && r.key in After(s, steps).source
    requires var now := After(s, steps);
      var synced := Apply(now, PutSource(r.key, now.source[r.key]));
      QuietRun(synced, quiet) && Idle(After(synced, quiet))
    ensures var now := After(s, steps);
      var end := After(Apply(now, PutSource(r.key, now.source[r.key])), quiet);
      r.peer in end.peers && Agrees(end.source, end.peers[r.peer], r.key)
  {
    var now := After(s, steps);
    var resync := PutSource(r.key, now.source[r.key]);
    RunThenStep(s, steps, resync);
    var synced := Apply(now, resync);
    var events := Pending(synced, r.key);
    assert events == Pending(now, r.key) + [Upserted(now.source[r.key])];
    assert events[|events| - 1].obj == now.source[r.key];
    QuietEndsAgreeIff(s, steps + [resync], quiet, r);
  }
}
