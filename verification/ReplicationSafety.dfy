/** What every run of the replication system is safe from: lost updates, writes
    outside the agent's shards, misfiled objects; and how the separate steps of a
    call make up the whole call. */
module ReplicationSafety {
  import opened Wrappers
  import opened Objects
  import opened Replication
  import opened ReplicationRuns

  // ------------------------------------------------------------ no lost update

  predicate ServersValid(s: State) {
    forall p :: p in s.peers ==> ValidServer(s.peers[p])
  }

  /** The call found the object on the peer. */
  predicate HasSeen(s: State, r: Request) {
    r in s.calls && s.calls[r].ReadPeer? && s.calls[r].seen.Some?
  }

  /** The slot the object was read from: under the shard of the source object, or,
      read without a shard, under its own. */
  function ReadSlot(key: Key, src: Option<Object>, seen: Object): Slot {
    Slot(ShardOf(if src.Some? then src.value else seen), key)
  }

  predicate ReadVersionKnown(server: Server, slot: Slot, seen: Object) {
    && seen.version < server.next
    && (slot in server.objects && server.objects[slot].version == seen.version ==> server.objects[slot] == seen)
  }

  /** A version read from a slot is either still there or gone for good: no later
      write reuses its resource version. */
  ghost predicate ReadVersionsKnown(s: State) {
    forall r :: HasSeen(s, r) && r.peer in s.peers ==>
      ReadVersionKnown(s.peers[r.peer], ReadSlot(r.key, s.calls[r].src, s.calls[r].seen.value), s.calls[r].seen.value)
  }

  ghost predicate VersionInv(s: State) {
    KnownNames(s) && CallsAreOwned(s) && ServersValid(s) && PeersRouted(s) && ReadVersionsKnown(s)
  }

  /** What any step does to a server: a slot keeps its object, loses it, or gets
      one with a resource version not used before. */
  predicate Evolves(before: Server, after: Server) {
    && before.next <= after.next
    && forall slot :: slot in after.objects ==>
         || (slot in before.objects && after.objects[slot] == before.objects[slot])
         || before.next <= after.objects[slot].version < after.next
  }

  lemma StepEvolves(s: State, step: Step, p: PeerName)
    requires Enabled(s, step) && p in s.peers
    ensures p in Apply(s, step).peers && Evolves(s.peers[p], Apply(s, step).peers[p])
  {
    StepServer(s, step, p);
    assert Evolves(s.peers[p], ServerAfter(s, step, p));
  }

  /** A call in its reading phase is at it since before the step, or reads now. */
  lemma StepReads(s: State, step: Step, r: Request)
    requires Enabled(s, step) && r in Apply(s, step).calls && Apply(s, step).calls[r].ReadPeer?
    ensures r in s.calls
    ensures s.calls[r] == Apply(s, step).calls[r] ||
      (step.GetPeer? && step.req == r && s.calls[r] == Checked(Apply(s, step).calls[r].src)
       && Apply(s, step).calls[r].seen == step.answer && Apply(s, step).peers == s.peers)
  {
  }

  lemma StepServersValid(s: State, step: Step)
    requires ServersValid(s) && Enabled(s, step)
    ensures ServersValid(Apply(s, step))
  {
    StepPeers(s, step);
    forall p | p in s.peers ensures ValidServer(Apply(s, step).peers[p]) {
      StepServer(s, step, p);
      assert ValidServer(ServerAfter(s, step, p));
    }
  }

  /** What a GET answers with is what the slot it was read from holds. */
  lemma AnswerIsStored(server: Server, key: Key, src: Option<Object>, seen: Object)
    requires WellRouted(server) && (src.Some? ==> IsShardName(ShardOf(src.value)))
    requires Answers(server, ReadShard(src), key, Some(seen))
    ensures Lookup(server.objects, ReadSlot(key, src, seen)) == Some(seen)
  {
  }

  lemma ReadVersionAfter(s: State, step: Step, r: Request)
    requires VersionInv(s) && Enabled(s, step) && HasSeen(Apply(s, step), r) && r.peer in s.peers
    ensures r.peer in Apply(s, step).peers
    ensures var call := Apply(s, step).calls[r];
      ReadVersionKnown(Apply(s, step).peers[r.peer], ReadSlot(r.key, call.src, call.seen.value), call.seen.value)
  {
    var call := Apply(s, step).calls[r];
    StepReads(s, step, r);
    StepEvolves(s, step, r.peer);
    if s.calls[r] != call {
      assert PastCheck(s, r);
      AnswerIsStored(s.peers[r.peer], r.key, call.src, call.seen.value);
    }
  }

  lemma StepReadVersions(s: State, step: Step)
    requires VersionInv(s) && Enabled(s, step)
    ensures ReadVersionsKnown(Apply(s, step))
  {
    var s' := Apply(s, step);
    StepPeers(s, step);
    forall r | HasSeen(s', r) && r.peer in s'.peers
      ensures ReadVersionKnown(s'.peers[r.peer], ReadSlot(r.key, s'.calls[r].src, s'.calls[r].seen.value),
                               s'.calls[r].seen.value)
    {
      ReadVersionAfter(s, step, r);
    }
  }

  lemma {:induction false} RunVersionInv(s: State, steps: seq<Step>)
    requires VersionInv(s) && Runs(s, steps)
    ensures VersionInv(After(s, steps))
    decreases |steps|
  {
    if steps != [] {
      StepNames(s, steps[0]);
      StepOwned(s, steps[0]);
      StepServersValid(s, steps[0]);
      StepKeepsRouting(s, steps[0]);
      StepReadVersions(s, steps[0]);
      RunVersionInv(Apply(s, steps[0]), steps[1..]);
    }
  }

  /** In every run, with arbitrary other writers: a create or update goes to the
      shard and name of the object it carries, under a shard that was
      authoritative when the call checked it, and the peer accepts it exactly
      when the slot still holds the very version, or absence, the call read. */
  lemma NoLostUpdate(s: State, steps: seq<Step>, r: Request)
    requires Init(s) && Runs(s, steps) && Enabled(After(s, steps), SubmitWrite(r, true))
    requires var w := PlannedWrite(After(s, steps), r); w.Create? || w.Update?
    ensures var end := After(s, steps);
      var w := PlannedWrite(end, r);
      && w.slot == Slot(ShardOf(w.obj), r.key) && w.slot.shard in end.ever && IsShardName(w.slot.shard)
      && (Accepts(end.peers[r.peer], w) <==> Lookup(end.peers[r.peer].objects, w.slot) == end.calls[r].seen)
  {
    RunVersionInv(s, steps);
  }

  /** A delete carries no resource version and is always accepted. So it takes away
      nothing the call has not read exactly if the slot is empty by now or still
      has the resource version that was read. */
  lemma DeleteRespectsReadIff(s: State, steps: seq<Step>, r: Request)
    requires Init(s) && Runs(s, steps) && Enabled(After(s, steps), SubmitWrite(r, true))
    requires PlannedWrite(After(s, steps), r).Delete?
    ensures var end := After(s, steps);
      var slot := PlannedWrite(end, r).slot;
      var now := Lookup(end.peers[r.peer].objects, slot);
      && end.calls[r].seen.Some? && slot == Slot(ShardOf(end.calls[r].seen.value), r.key)
      && Accepts(end.peers[r.peer], PlannedWrite(end, r))
      && slot !in Execute(end.peers[r.peer], PlannedWrite(end, r)).objects
      && (now.None? || now == end.calls[r].seen <==>
            now.None? || now.value.version == end.calls[r].seen.value.version)
  {
    RunVersionInv(s, steps);
    assert HasSeen(After(s, steps), r);
  }

  /** That fails in every run that has a delete to send: whatever another writer
      puts there first goes too. */
  lemma DeleteDropsUnreadVersion(s: State, steps: seq<Step>, r: Request, obj: Object)
    requires Init(s) && Runs(s, steps) && Enabled(After(s, steps), SubmitWrite(r, true))
    requires PlannedWrite(After(s, steps), r).Delete?
    requires ShardOf(obj) == PlannedWrite(After(s, steps), r).slot.shard
    ensures var now := After(s, steps);
      var slot := PlannedWrite(now, r).slot;
      Enabled(now, ForeignPut(r.peer, slot, obj)) &&
      var put := Apply(now, ForeignPut(r.peer, slot, obj));
      && Enabled(put, SubmitWrite(r, true)) && slot in put.peers[r.peer].objects
      && put.calls[r].seen.Some? && put.peers[r.peer].objects[slot].version != put.calls[r].seen.value.version
      && r.peer in Apply(put, SubmitWrite(r, true)).peers
      && slot !in Apply(put, SubmitWrite(r, true)).peers[r.peer].objects
  {
    RunVersionInv(s, steps);
    assert HasSeen(After(s, steps), r);
  }

  // ------------------------------------------------------------ what is written

  /** The call has read the source. */
  predicate PastSource(s: State, r: Request) {
    r in s.calls && (s.calls[r].ReadSource? || PastCheck(s, r))
  }

  lemma StepPastSource(s: State, step: Step, r: Request)
    requires Enabled(s, step) && PastSource(Apply(s, step), r)
    ensures r in s.calls && step != TakeRequest(r)
    ensures if PastSource(s, r) then s.calls[r].src == Apply(s, step).calls[r].src
            else step == GetSource(r) && Apply(s, step).calls[r].src == Lookup(s.source, r.key)
  {
  }

  function StateAt(s: State, steps: seq<Step>, j: nat): State
    requires Runs(s, steps) && j <= |steps|
    decreases j
  {
    if j == 0 then s else StateAt(Apply(s, steps[0]), steps[1..], j - 1)
  }

  lemma {:induction false} PastSourceWasRead(s: State, steps: seq<Step>, r: Request) returns (j: int)
    requires Runs(s, steps) && PastSource(After(s, steps), r)
    ensures -1 <= j < |steps| && forall k :: j < k < |steps| ==> steps[k] != TakeRequest(r)
    ensures j < 0 ==> PastSource(s, r) && s.calls[r].src == After(s, steps).calls[r].src
    ensures j >= 0 ==> steps[j] == GetSource(r)
    ensures j >= 0 ==> After(s, steps).calls[r].src == Lookup(StateAt(s, steps, j).source, r.key)
    decreases |steps|
  {
    j := -1;
    if steps != [] {
      var later := PastSourceWasRead(Apply(s, steps[0]), steps[1..], r);
      if later >= 0 {
        j := later + 1;
      } else {
        StepPastSource(s, steps[0], r);
        j := if PastSource(s, r) then -1 else 0;
      }
    }
  }

  lemma WriteStores(s: State, r: Request, replied: bool)
    requires Enabled(s, SubmitWrite(r, replied))
    requires var w := PlannedWrite(s, r); w.Create? || w.Update?
    ensures s.calls[r].src.Some?
    ensures var o := s.calls[r].src.value;
      var slot := Slot(ShardOf(o), r.key);
      var after := Apply(s, SubmitWrite(r, replied)).peers;
      && r.peer in after
      && after[r.peer].objects == if Accepts(s.peers[r.peer], PlannedWrite(s, r))
           then s.peers[r.peer].objects[slot := o.(version := s.peers[r.peer].next)] else s.peers[r.peer].objects
  {
    StepServer(s, SubmitWrite(r, replied), r.peer);
    var o, w := s.calls[r].src.value, PlannedWrite(s, r);
    assert w.obj.(version := s.peers[r.peer].next) == o.(version := s.peers[r.peer].next);
  }

  /** In every run, a create or update that is accepted leaves on the peer, under the
      shard its annotation names, the source object its own call read, in full, with
      a fresh resource version, and touches nothing else there; one that is refused
      touches nothing. The step at which the call read the source is j. */
  lemma WriteCopiesSource(s: State, steps: seq<Step>, r: Request, replied: bool) returns (j: int)
    requires Init(s) && Runs(s, steps) && Enabled(After(s, steps), SubmitWrite(r, replied))
    requires var w := PlannedWrite(After(s, steps), r); w.Create? || w.Update?
    ensures 0 <= j < |steps| && steps[j] == GetSource(r)
    ensures forall k :: j < k < |steps| ==> steps[k] != TakeRequest(r)
    ensures r.key in StateAt(s, steps, j).source
    ensures var end := After(s, steps);
      var o := StateAt(s, steps, j).source[r.key];
      var slot := Slot(Get(o.annotations, "kcp.io/shard"), r.key);
      var after := Apply(end, SubmitWrite(r, replied)).peers;
      && r.peer in after
      && after[r.peer].objects == if Accepts(end.peers[r.peer], PlannedWrite(end, r))
           then end.peers[r.peer].objects[slot := o.(version := end.peers[r.peer].next)]
           else end.peers[r.peer].objects
  {
    var end := After(s, steps);
    j := PastSourceWasRead(s, steps, r);
    WriteStores(end, r, replied);
    assert Lookup(StateAt(s, steps, j).source, r.key) == end.calls[r].src;
  }

  /** A planned write whose reply is lost is retried, served or not; so is one that is
      refused, and only those. */
  lemma LostReplyIsRetried(s: State, r: Request, replied: bool)
    requires Enabled(s, SubmitWrite(r, replied)) && r !in s.work.delayed
    ensures r in Apply(s, SubmitWrite(r, replied)).work.delayed <==>
      PlannedWrite(s, r) != Nothing && (!replied || !Accepts(s.peers[r.peer], PlannedWrite(s, r)))
  {
  }

  /** A call can fail at any point; then its request is retried and no peer has
      changed. */
  lemma FailedCallIsRetried(s: State, r: Request)
    requires r in s.calls
    ensures Enabled(s, FailCall(r)) &&
      var failed := Apply(s, FailCall(r));
      && r in failed.work.delayed && r !in failed.calls && failed.peers == s.peers
      && failed.peerEvents == s.peerEvents && (r in failed.work.dirty <==> r in s.work.dirty)
  {
  }

  // -------------------------------------------------- routing and ownership

  /** In every run every object on every peer sits under the shard its annotation
      names. */
  lemma PeersStayRouted(s: State, steps: seq<Step>)
    requires Init(s) && Runs(s, steps)
    ensures PeersRouted(After(s, steps))
  {
    InitInv(s);
    RunInv(s, steps);
  }

  lemma {:induction false} PastCheckWasChecked(s: State, steps: seq<Step>, r: Request) returns (j: int)
    requires Runs(s, steps) && PastCheck(After(s, steps), r)
    ensures -1 <= j < |steps| && forall k :: j < k < |steps| ==> steps[k] != TakeRequest(r)
    ensures j < 0 ==> PastCheck(s, r) && s.calls[r].src == After(s, steps).calls[r].src
    ensures j >= 0 ==> steps[j] == CheckShard(r)
    ensures j >= 0 ==> Replicates(StateAt(s, steps, j).shards, After(s, steps).calls[r].src)
    decreases |steps|
  {
    j := -1;
    if steps != [] {
      var later := PastCheckWasChecked(Apply(s, steps[0]), steps[1..], r);
      if later >= 0 {
        j := later + 1;
      } else {
        StepPastCheck(s, steps[0], r);
        j := if PastCheck(s, r) then -1 else 0;
      }
    }
  }

  /** In every run, a create or update goes to a shard that was in the agent's set
      at the step at which its call checked the object; no other call of that
      request was begun since. */
  lemma WriteWasChecked(s: State, steps: seq<Step>, r: Request) returns (j: int)
    requires Init(s) && Runs(s, steps) && Enabled(After(s, steps), SubmitWrite(r, true))
    requires var w := PlannedWrite(After(s, steps), r); w.Create? || w.Update?
    ensures 0 <= j < |steps| && steps[j] == CheckShard(r)
    ensures forall k :: j < k < |steps| ==> steps[k] != TakeRequest(r)
    ensures PlannedWrite(After(s, steps), r).slot.shard in StateAt(s, steps, j).shards
  {
    j := PastCheckWasChecked(s, steps, r);
  }

  /** The i-th step of the run asks `peer` to create or update `slot`. */
  predicate WritesAt(s: State, steps: seq<Step>, i: nat, peer: PeerName, slot: Slot)
    requires Runs(s, steps) && i < |steps|
    decreases i
  {
    if i > 0 then WritesAt(Apply(s, steps[0]), steps[1..], i - 1, peer, slot)
    else
      steps[0].SubmitWrite? && steps[0].req.peer == peer &&
      var w := PlannedWrite(s, steps[0].req);
      (w.Create? || w.Update?) && w.slot == slot
  }

  lemma {:induction false} EverGrows(s: State, steps: seq<Step>)
    requires Runs(s, steps)
    ensures s.ever <= After(s, steps).ever
    decreases |steps|
  {
    if steps != [] {
      assert s.ever <= Apply(s, steps[0]).ever;
      EverGrows(Apply(s, steps[0]), steps[1..]);
    }
  }

  lemma {:induction false} WritesAreOwned(s: State, steps: seq<Step>, i: nat, peer: PeerName, slot: Slot)
    requires Runs(s, steps) && i < |steps| && WritesAt(s, steps, i, peer, slot)
    requires KnownNames(s) && CallsAreOwned(s)
    ensures slot.shard in After(s, steps).ever
    decreases i
  {
    var s1 := Apply(s, steps[0]);
    if i == 0 {
      assert slot.shard in s.ever;
      EverGrows(s, steps);
    } else {
      StepNames(s, steps[0]);
      StepOwned(s, steps[0]);
      WritesAreOwned(s1, steps[1..], i - 1, peer, slot);
    }
  }

  /** Two agents that never own a common shard never create or update the same
      slot of a peer, whatever each of them sees the other do. */
  lemma DisjointAgentsNeverCollide(a: State, runA: seq<Step>, b: State, runB: seq<Step>,
                                   i: nat, j: nat, peer: PeerName, slotA: Slot, slotB: Slot)
    requires Init(a) && Runs(a, runA) && i < |runA| && WritesAt(a, runA, i, peer, slotA)
    requires Init(b) && Runs(b, runB) && j < |runB| && WritesAt(b, runB, j, peer, slotB)
    requires After(a, runA).ever !! After(b, runB).ever
    ensures slotA != slotB
  {
    WritesAreOwned(a, runA, i, peer, slotA);
    WritesAreOwned(b, runB, j, peer, slotB);
  }

  // ------------------------------------------------- small steps refine the call

  /** The separate steps of one call, if nothing else happens meanwhile. */
  function CallSteps(s: State, r: Request, answer: Option<Object>): seq<Step> {
    if r.peer !in s.known.found then [TakeRequest(r), GetCluster(r)]
    else if !Replicates(s.shards, Lookup(s.source, r.key)) then
      [TakeRequest(r), GetCluster(r), GetSource(r)] + [CheckShard(r)]
    else
      [TakeRequest(r), GetCluster(r), GetSource(r)] + [CheckShard(r)] + [GetPeer(r, answer)] + [SubmitWrite(r, true)]
  }

  /** What those steps come to: the peers are as after the whole call, and the
      request is done, unless the peer was not to be found or refused the write. */
  predicate CallsEffect(s: State, end: State, r: Request, answer: Option<Object>)
    requires r.peer in s.peers
  {
    var src := Lookup(s.source, r.key);
    && end.peers ==
         (if r.peer !in s.known.found then s.peers
          else s.peers[r.peer := Reconciled(s.source, s.shards, s.peers[r.peer], r.key, answer)])
    && r !in end.calls && r !in end.work.dirty
    && (r in end.work.delayed <==>
          || r.peer !in s.known.found
          || (Replicates(s.shards, src) && !Accepts(s.peers[r.peer], Plan(r.key, src, answer))))
  }

  lemma MissingPeerCall(s: State, r: Request, answer: Option<Object>)
    requires CallsAreProcessing(s) && r in s.work.queued && r.peer in s.peers && r.peer !in s.known.found
    ensures var steps := [TakeRequest(r), GetCluster(r)];
      Runs(s, steps) && CallsEffect(s, After(s, steps), r, answer)
  {
    UnfoldTwo(s, TakeRequest(r), GetCluster(r));
  }

  /** The call as it is when it has read the source. */
  function AtSource(s: State, r: Request): State {
    s.(work := s.work.Take(r), calls := s.calls[r := ReadSource(Lookup(s.source, r.key))])
  }

  lemma SourceCall(s: State, r: Request)
    requires r in s.work.queued && r.peer in s.known.found
    ensures var steps := [TakeRequest(r), GetCluster(r), GetSource(r)];
      Runs(s, steps) && After(s, steps) == AtSource(s, r)
  {
    var s1 := Apply(s, TakeRequest(r));
    assert s1 == s.(work := s.work.Take(r), calls := s.calls[r := Started]);
    assert Apply(s1, GetCluster(r)) == s.(work := s.work.Take(r), calls := s.calls[r := FoundPeer]);
    UnfoldThree(s, TakeRequest(r), GetCluster(r), GetSource(r));
  }

  lemma SkippedCall(s: State, r: Request, answer: Option<Object>)
    requires CallsAreProcessing(s) && r in s.work.queued && r !in s.work.delayed
    requires r.peer in s.peers && r.peer in s.known.found && !Replicates(s.shards, Lookup(s.source, r.key))
    ensures var steps := [TakeRequest(r), GetCluster(r), GetSource(r)] + [CheckShard(r)];
      Runs(s, steps) && CallsEffect(s, After(s, steps), r, answer)
  {
    SourceCall(s, r);
    RunThenStep(s, [TakeRequest(r), GetCluster(r), GetSource(r)], CheckShard(r));
  }

  function AtPeer(s: State, r: Request): State {
    s.(work := s.work.Take(r), calls := s.calls[r := Checked(Lookup(s.source, r.key))])
  }

  lemma CheckedCall(s: State, r: Request)
    requires r in s.work.queued && r.peer in s.known.found && Replicates(s.shards, Lookup(s.source, r.key))
    ensures var steps := [TakeRequest(r), GetCluster(r), GetSource(r)] + [CheckShard(r)];
      Runs(s, steps) && After(s, steps) == AtPeer(s, r)
  {
    SourceCall(s, r);
    RunThenStep(s, [TakeRequest(r), GetCluster(r), GetSource(r)], CheckShard(r));
    assert AtSource(s, r).calls[r := Checked(Lookup(s.source, r.key))] == AtPeer(s, r).calls;
  }

  function BeforeWrite(s: State, r: Request, answer: Option<Object>): State {
    s.(work := s.work.Take(r), calls := s.calls[r := ReadPeer(Lookup(s.source, r.key), answer)])
  }

  lemma ReadCall(s: State, r: Request, answer: Option<Object>)
    requires r in s.work.queued && r.peer in s.known.found && r.peer in s.peers
    requires Replicates(s.shards, Lookup(s.source, r.key))
    requires Answers(s.peers[r.peer], ReadShard(Lookup(s.source, r.key)), r.key, answer)
    ensures var steps := [TakeRequest(r), GetCluster(r), GetSource(r)] + [CheckShard(r)] + [GetPeer(r, answer)];
      Runs(s, steps) && After(s, steps) == BeforeWrite(s, r, answer)
  {
    CheckedCall(s, r);
    RunThenStep(s, [TakeRequest(r), GetCluster(r), GetSource(r)] + [CheckShard(r)], GetPeer(r, answer));
    assert AtPeer(s, r).calls[r := ReadPeer(Lookup(s.source, r.key), answer)] == BeforeWrite(s, r, answer).calls;
  }

  lemma WriteOfCallOnPeers(s: State, r: Request, answer: Option<Object>)
    requires r.peer in s.peers && Replicates(s.shards, Lookup(s.source, r.key))
    ensures Apply(BeforeWrite(s, r, answer), SubmitWrite(r, true)).peers ==
      s.peers[r.peer := Reconciled(s.source, s.shards, s.peers[r.peer], r.key, answer)]
  {
    var w := Plan(r.key, Lookup(s.source, r.key), answer);
    assert Execute(s.peers[r.peer], w) == s.peers[r.peer] ==> s.peers == s.peers[r.peer := s.peers[r.peer]];
  }

  lemma WriteOfCallOnQueue(s: State, r: Request, answer: Option<Object>)
    requires r.peer in s.peers && r !in s.work.delayed
    ensures var end := Apply(BeforeWrite(s, r, answer), SubmitWrite(r, true));
      && r !in end.calls && r !in end.work.dirty
      && (r in end.work.delayed <==> !Accepts(s.peers[r.peer], Plan(r.key, Lookup(s.source, r.key), answer)))
  {
  }

  /** Run without interruption, the separate steps of a call do what the whole call
      does, whichever way it goes. */
  lemma UndisturbedCall(s: State, r: Request, answer: Option<Object>)
    requires CallsAreProcessing(s) && r in s.work.queued && r.peer in s.peers && r !in s.work.delayed
    requires Replicates(s.shards, Lookup(s.source, r.key)) ==>
      Answers(s.peers[r.peer], ReadShard(Lookup(s.source, r.key)), r.key, answer)
    ensures Runs(s, CallSteps(s, r, answer)) && CallsEffect(s, After(s, CallSteps(s, r, answer)), r, answer)
  {
    if r.peer !in s.known.found {
      MissingPeerCall(s, r, answer);
    } else if Replicates(s.shards, Lookup(s.source, r.key)) {
      ReadCall(s, r, answer);
      WriteOfCallOnPeers(s, r, answer);
      WriteOfCallOnQueue(s, r, answer);
      RunThenStep(s, [TakeRequest(r), GetCluster(r), GetSource(r)] + [CheckShard(r)] + [GetPeer(r, answer)],
                  SubmitWrite(r, true));
    } else {
      SkippedCall(s, r, answer);
    }
  }
}
