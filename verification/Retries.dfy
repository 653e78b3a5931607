/** Requests for peers that have left: when the agent retries one forever, exactly. */
module Retries {
  import opened Wrappers
  import opened Objects
  import opened Replication
  import opened ReplicationRuns
  import opened QuietRuns
  import opened QuietEnds

  /** A call for a peer that is not found is going to bring its request back: it has
      yet to look the peer up; or it found the peer before, and its write will be
      reported by a watch that still runs, or will be refused. */
  predicate CallSpins(s: State, r: Request)
    requires r.peer in s.peers
  {
    r in s.calls &&
    (|| s.calls[r].Started?
     || (r.peer in s.known.watched && WillWrite(s, r))
     || (s.calls[r].ReadPeer? && !Accepts(s.peers[r.peer], PlannedWrite(s, r))))
  }

  /** The request is for a peer that is not found, and it can come to be retried
      forever: it is reported, queued or delayed; its call will bring it back; or
      the peer is still listed and a source event will fan out to it. */
  predicate Spins(s: State, r: Request) {
    r.peer in s.peers && r.peer !in s.known.found &&
    (Noticed(s, r) || CallSpins(s, r) || (r.peer in s.known.listed && HasOwnEvent(s, r.key)))
  }

  ghost predicate NoneSpins(s: State) {
    forall r :: !Spins(s, r)
  }

  lemma AllWorkIsQuiet(s: State, a: Step, b: Step, c: Step)
    requires IsWork(a) && IsWork(b) && IsWork(c)
    requires Enabled(s, a) && Enabled(Apply(s, a), b) && Enabled(Apply(Apply(s, a), b), c)
    ensures QuietRun(s, [a, b, c]) && After(s, [a, b, c]) == Apply(Apply(Apply(s, a), b), c)
  {
    var s1, s2 := Apply(s, a), Apply(Apply(s, a), b);
    UnfoldThree(s, a, b, c);
    assert [a, b, c][1..] == [b, c] && [b, c][1..] == [c] && [c][1..] == [];
    assert Runs(Apply(s2, c), []) && Runs(s2, [c]) && Runs(s1, [b, c]);
    assert AllQuiet(s2, [c]) && AllQuiet(s1, [b, c]);
  }

  lemma RetryStates(s: State, r: Request)
    requires CallsAreProcessing(s) && r.peer !in s.known.found && r in s.work.delayed
    requires r !in s.work.dirty && r !in s.calls
    ensures Enabled(s, RetryDue(r)) && Enabled(Apply(s, RetryDue(r)), TakeRequest(r))
    ensures var s2 := Apply(Apply(s, RetryDue(r)), TakeRequest(r));
      Enabled(s2, GetCluster(r)) && Apply(s2, GetCluster(r)) == s
  {
    var s2 := Apply(Apply(s, RetryDue(r)), TakeRequest(r));
    assert s2.work.delayed == s.work.delayed - {r} && s2.work.queued == s.work.queued;
    assert s2.work.dirty == s.work.dirty && s2.work.processing == s.work.processing + {r};
    var s3 := Apply(s2, GetCluster(r));
    assert s3.work.delayed == s.work.delayed && s3.work.processing == s.work.processing;
    assert s3.work == s.work && s3.calls == s.calls;
  }

  /** The retry of such a request leads back to the state it started from. */
  lemma RetryLoops(s: State, r: Request)
    requires CallsAreProcessing(s) && r.peer !in s.known.found && r in s.work.delayed
    requires r !in s.work.dirty && r !in s.calls
    ensures var steps := [RetryDue(r), TakeRequest(r), GetCluster(r)];
      QuietRun(s, steps) && After(s, steps) == s
  {
    RetryStates(s, r);
    AllWorkIsQuiet(s, RetryDue(r), TakeRequest(r), GetCluster(r));
  }

  // ----------------------------------------------------------- what a call brings

  /** Reading does not change whether a call is going to write. */
  lemma GetSourceKeepsWrite(s: State, r: Request)
    requires Enabled(s, GetSource(r)) && r.peer in s.peers
    ensures var s' := Apply(s, GetSource(r));
      r in s'.calls && r.peer in s'.peers && (WillWrite(s', r) <==> WillWrite(s, r))
  {
  }

  lemma CheckKeepsWrite(s: State, r: Request)
    requires Enabled(s, CheckShard(r)) && r.peer in s.peers
    ensures var s' := Apply(s, CheckShard(r));
      r.peer in s'.peers && (r in s'.calls && WillWrite(s', r) <==> WillWrite(s, r))
  {
  }

  /** And a call that reads the peer now is not refused, unless the peer changes. */
  lemma GetPeerKeepsWrite(s: State, r: Request, src: Option<Object>, answer: Option<Object>)
    requires Enabled(s, GetPeer(r, answer)) && s.calls[r] == Checked(src)
    requires WellRouted(s.peers[r.peer]) && (src.Some? ==> IsShardName(ShardOf(src.value)))
    ensures var s' := Apply(s, GetPeer(r, answer));
      && r in s'.calls && r.peer in s'.peers && (WillWrite(s', r) <==> WillWrite(s, r))
      && s'.calls[r] == ReadPeer(src, answer) && Accepts(s'.peers[r.peer], PlannedWrite(s', r))
  {
    ReadForesees(s.peers[r.peer], r.key, src, answer);
  }

  /** The reads of a call neither start nor stop its spinning. */
  lemma ReadStepSpins(s: State, step: Step)
    requires KnownNames(s) && CallsAreOwned(s) && PeersRouted(s)
    requires Enabled(s, step) && IsReadStep(step) && !step.GetCluster? && step.req.peer in s.peers
    ensures step.req.peer in Apply(s, step).peers
    ensures CallSpins(Apply(s, step), step.req) <==> CallSpins(s, step.req)
  {
    var s', r := Apply(s, step), step.req;
    assert s'.known == s.known;
    if step.GetSource? {
      GetSourceKeepsWrite(s, r);
    } else if step.CheckShard? {
      CheckKeepsWrite(s, r);
      assert r in s'.calls ==> s'.calls[r].Checked?;
    } else {
      assert PastCheck(s, r);
      GetPeerKeepsWrite(s, r, s.calls[r].src, step.answer);
    }
  }

  /** The write of a call brings the request back exactly if the call spins. */
  lemma WriteSpins(s: State, r: Request)
    requires Enabled(s, SubmitWrite(r, true))
    ensures var s' := Apply(s, SubmitWrite(r, true));
      r !in s'.calls && (Noticed(s', r) <==> Noticed(s, r) || CallSpins(s, r))
  {
  }

  // -------------------------------------------------------------- it goes on forever

  lemma EventSpins(s: State, r: Request)
    requires r.peer in s.peers && r.peer in s.known.listed && HasOwnEvent(s, r.key)
    ensures Pending(s, r.key) != []
    ensures var s' := ApplyEvent(s, r.key);
      Noticed(s', r) || (r.peer in s'.known.listed && HasOwnEvent(s', r.key))
  {
    var s' := ApplyEvent(s, r.key);
    var i :| 0 <= i < |Pending(s, r.key)| && ShardOf(Pending(s, r.key)[i].obj) in s.shards;
    assert Pending(s', r.key) == Pending(s, r.key)[1..];
    if i == 0 {
      assert r in s'.work.dirty;
    } else {
      assert Pending(s', r.key)[i - 1] == Pending(s, r.key)[i];
    }
  }

  lemma CallGoesOn(s: State, r: Request) returns (step: Step)
    requires CallsAreProcessing(s) && KnownNames(s) && CallsAreOwned(s) && PeersRouted(s)
    requires Spins(s, r) && r in s.calls
    ensures Enabled(s, step) && IsWork(step) && Spins(Apply(s, step), r)
  {
    step := NextOfCall(s, r);
    var s' := Apply(s, step);
    StepPeers(s, step);
    assert s'.known == s.known && s'.shards == s.shards && s'.events == s.events;
    assert Pending(s', r.key) == Pending(s, r.key);
    if step.SubmitWrite? {
      WriteSpins(s, r);
    } else if step.GetCluster? {
      assert Noticed(s', r);
    } else {
      assert Noticed(s, r) ==> Noticed(s', r);
      ReadStepSpins(s, step);
    }
  }

  lemma SpinGoesOn(s: State, r: Request) returns (step: Step)
    requires CallsAreProcessing(s) && KnownNames(s) && CallsAreOwned(s) && PeersRouted(s) && Spins(s, r)
    ensures Enabled(s, step) && IsQuiet(s, step) && Spins(Apply(s, step), r)
  {
    if r in s.calls {
      step := CallGoesOn(s, r);
    } else if Noticed(s, r) {
      step := if r in s.peerEvents then HandlePeerEvent(r)
              else if r in s.work.dirty then TakeRequest(r) else RetryDue(r);
    } else {
      EventSpins(s, r);
      step := HandleEvent(r.key);
    }
  }

  lemma {:induction false} SpinsForever(s: State, r: Request, n: nat, rs: set<Request>, keys: set<Key>)
    returns (quiet: seq<Step>)
    requires QuietInv(s, rs, keys) && Spins(s, r)
    ensures QuietRun(s, quiet) && |quiet| == n
    decreases n
  {
    quiet := [];
    if n > 0 {
      var step := SpinGoesOn(s, r);
      StepQuietInv(s, step, rs, keys);
      var rest := SpinsForever(Apply(s, step), r, n - 1, rs, keys);
      quiet := [step] + rest;
      assert quiet[1..] == rest;
    }
  }

  // ------------------------------------------------------------- or it never starts

  lemma AcceptedBeside(server: Server, w: Write, beside: Write)
    requires beside.Nothing? || w.Nothing? || beside.slot.key != w.slot.key
    ensures Accepts(Execute(server, beside), w) <==> Accepts(server, w)
  {
  }

  /** Work on another request starts no spin of `r`. */
  lemma NoSpinBeside(s: State, step: Step, r: Request)
    requires Enabled(s, step) && IsWork(step) && r != step.req && !Spins(s, r)
    ensures !Spins(Apply(s, step), r)
  {
    var s' := Apply(s, step);
    if r.peer in s.peers && r.peer !in s.known.found {
      StepTouchesOne(s, step, r);
      WroteBeside(s, step, r);
      assert s'.known == s.known && s'.shards == s.shards;
      assert Pending(s', r.key) == Pending(s, r.key);
      assert r in s'.calls <==> Lookup(s'.calls, r).Some?;
      if r in s.calls {
        CallSameBeside(s, step, r);
        assert Lookup(s'.calls, r).Some? && s'.calls[r] == s.calls[r];
        if s.calls[r].ReadPeer? {
          AcceptedBeside(s.peers[r.peer], PlannedWrite(s, r), WriteBeside(s, step, r));
        }
      }
    } else {
      StepPeers(s, step);
    }
  }

  lemma NoSpinOfOwn(s: State, step: Step)
    requires CallsAreProcessing(s) && KnownNames(s) && CallsAreOwned(s) && PeersRouted(s)
    requires Enabled(s, step) && IsWork(step) && step.req.peer in s.peers && !Spins(s, step.req)
    ensures !Spins(Apply(s, step), step.req)
  {
    var s', r := Apply(s, step), step.req;
    if r.peer !in s.known.found {
      assert s'.known == s.known && s'.shards == s.shards;
      assert Pending(s', r.key) == Pending(s, r.key);
      if step.SubmitWrite? {
        WriteSpins(s, r);
      } else {
        assert IsReadStep(step) && !step.GetCluster?;
        ReadStepSpins(s, step);
        assert Noticed(s', r) ==> Noticed(s, r);
      }
    }
  }

  lemma NoSpinOfEvent(s: State, key: Key, r: Request)
    requires Pending(s, key) != [] && !Spins(s, r)
    ensures !Spins(ApplyEvent(s, key), r)
  {
    var s' := ApplyEvent(s, key);
    if r.key == key {
      assert Pending(s', key) == Pending(s, key)[1..];
      if i :| 0 <= i < |Pending(s', key)| && ShardOf(Pending(s', key)[i].obj) in s.shards {
        assert Pending(s, key)[i + 1] == Pending(s', key)[i];
      }
    } else {
      assert Pending(s', r.key) == Pending(s, r.key);
    }
  }

  lemma NoSpinOfCleanUp(s: State, step: Step, r: Request)
    requires Enabled(s, step) && IsCleanUp(s, step) && !Spins(s, r)
    ensures !Spins(Apply(s, step), r)
  {
    assert Pending(Apply(s, step), r.key) == Pending(s, r.key);
  }

  lemma StepKeepsNoSpin(s: State, step: Step, rs: set<Request>, keys: set<Key>)
    requires QuietInv(s, rs, keys) && NoneSpins(s) && Enabled(s, step) && IsQuiet(s, step)
    ensures IsUseful(s, step) && NoneSpins(Apply(s, step))
  {
    if IsWork(step) {
      WorkIsMentioned(s, step);
      assert !Spins(s, step.req);
    }
    forall r ensures !Spins(Apply(s, step), r) {
      if step.HandleEvent? {
        NoSpinOfEvent(s, step.key, r);
      } else if IsCleanUp(s, step) {
        NoSpinOfCleanUp(s, step, r);
      } else if r == step.req {
        NoSpinOfOwn(s, step);
      } else {
        NoSpinBeside(s, step, r);
      }
    }
  }

  lemma {:induction false} AllStepsUseful(s: State, steps: seq<Step>, rs: set<Request>, keys: set<Key>)
    requires QuietInv(s, rs, keys) && NoneSpins(s) && QuietRun(s, steps)
    ensures UsefulSteps(s, steps) == |steps| && NoneSpins(After(s, steps))
    decreases |steps|
  {
    if steps != [] {
      StepKeepsNoSpin(s, steps[0], rs, keys);
      StepQuietInv(s, steps[0], rs, keys);
      AllStepsUseful(Apply(s, steps[0]), steps[1..], rs, keys);
    }
  }

  // ----------------------------------------------------------------- exactly when

  /** No run of the agent's own steps from here on is longer than n. */
  ghost predicate StopsWithin(s: State, n: nat) {
    forall quiet :: QuietRun(s, quiet) ==> |quiet| <= n
  }

  /** After any run, the agent's own steps, retries included, come to an end
      whatever their order exactly when no request spins. */
  lemma AgentStopsIff(s: State, steps: seq<Step>)
    requires Init(s) && Runs(s, steps)
    ensures var now := After(s, steps);
      (exists n :: StopsWithin(now, n)) <==> NoneSpins(now)
  {
    var now := After(s, steps);
    var rs, keys := AllRequests(now), now.events.Keys;
    RunQuietInv(s, steps);
    if NoneSpins(now) {
      var n := Fuel(now, rs, keys);
      forall quiet | QuietRun(now, quiet) ensures |quiet| <= n {
        AllStepsUseful(now, quiet, rs, keys);
        QuietRunsEnd(s, steps, quiet);
      }
      assert StopsWithin(now, n);
    } else {
      var r :| Spins(now, r);
      forall n: nat ensures !StopsWithin(now, n) {
        var quiet := SpinsForever(now, r, n + 1, rs, keys);
        assert QuietRun(now, quiet);
      }
    }
  }

  /** When no request spins, an idle agent has nothing left to do at all. */
  lemma IdleWithoutSpins(s: State, rs: set<Request>, keys: set<Key>)
    requires QuietInv(s, rs, keys) && Idle(s)
    ensures NoneSpins(s) <==> Quiescent(s)
  {
    IdleIsDone(s, rs, keys);
    if NoneSpins(s) {
      forall r ensures r !in s.work.dirty && r !in s.work.delayed && r !in s.calls {
        assert Mentioned(s, r) ==> r.peer in s.peers;
        assert !Spins(s, r);
      }
      assert s.calls.Keys == {};
    }
  }

  /** A peer that leaves while a source event of its own is on the way starts such
      retries, whether the event is handled before the peer leaves or only before
      it is taken off the list. */
  lemma DepartureSpins(s: State, r: Request)
    requires r.peer in s.peers && r.peer in s.known.found && r.peer in s.known.listed && HasOwnEvent(s, r.key)
    ensures var left := Apply(s, ChangePeer(Lose, r.peer));
      && Spins(left, r) && Enabled(left, HandleEvent(r.key)) && Spins(Apply(left, HandleEvent(r.key)), r)
  {
    var left := Apply(s, ChangePeer(Lose, r.peer));
    assert Pending(left, r.key) == Pending(s, r.key);
    assert HasOwnEvent(left, r.key);
    EventSpins(left, r);
  }

  lemma SpinIsReachable(s: State, r: Request, obj: Object)
    requires Init(s) && r.peer in s.peers && IsShardName(ShardOf(obj))
    ensures var shard := ShardOf(obj);
      var steps := [GainShard(shard), ChangePeer(Find, r.peer), ChangePeer(Enlist, r.peer), PutSource(r.key, obj)];
      Runs(s, steps) && Enabled(After(s, steps), ChangePeer(Lose, r.peer)) &&
      Spins(Apply(After(s, steps), ChangePeer(Lose, r.peer)), r)
  {
    var shard := ShardOf(obj);
    var steps := [GainShard(shard), ChangePeer(Find, r.peer), ChangePeer(Enlist, r.peer), PutSource(r.key, obj)];
    UnfoldFour(s, GainShard(shard), ChangePeer(Find, r.peer), ChangePeer(Enlist, r.peer), PutSource(r.key, obj));
    var now := After(s, steps);
    assert now.known == Known({r.peer}, {r.peer}, {}) && now.shards == {shard};
    assert Pending(now, r.key) == [Upserted(obj)];
    assert ShardOf(Pending(now, r.key)[0].obj) in now.shards;
    DepartureSpins(now, r);
  }
}
