/** What a schedule of reconcile calls achieves when the source and the shard set
    stay put and nobody else writes: every write does one unit of the work that
    is there, and the work gets done. */
module Convergence {
  import opened Wrappers
  import opened Objects
  import opened Replication

  /** One write that is due: an authoritative source object whose peer copy is
      missing or different, or a peer object whose name the source lacks. */
  datatype Item = Fix(peer: PeerName, key: Key) | Remove(peer: PeerName, slot: Slot)

  type Mesh = map<PeerName, Server>

  /** One reconcile call: the request and what the peer's GET answered. */
  datatype Call = Call(req: Request, seen: Option<Object>)

  predicate NeedsFix(source: map<Key, Object>, shards: set<Shard>, server: Server, key: Key) {
    key in source && ShardOf(source[key]) in shards && !Agrees(source, server, key)
  }

  /** The work left for one peer and one name. */
  function Due(source: map<Key, Object>, shards: set<Shard>, mesh: Mesh, req: Request): set<Item> {
    if req.peer !in mesh then {}
    else if req.key in source then
      if NeedsFix(source, shards, mesh[req.peer], req.key) then {Fix(req.peer, req.key)} else {}
    else
      set slot | slot in mesh[req.peer].objects && slot.key == req.key :: Remove(req.peer, slot)
  }

  /** A call for a peer that is not engaged fails before it reads anything. */
  function Reconcile(source: map<Key, Object>, shards: set<Shard>, mesh: Mesh, call: Call): Mesh {
    var req := call.req;
    if req.peer in mesh
    then mesh[req.peer := Reconciled(source, shards, mesh[req.peer], req.key, call.seen)]
    else mesh
  }

  /** The call's read is one the peer could have answered. */
  predicate Possible(source: map<Key, Object>, shards: set<Shard>, mesh: Mesh, call: Call) {
    call.req.peer in mesh && Replicates(shards, Lookup(source, call.req.key)) ==>
      Answers(mesh[call.req.peer], ReadShard(Lookup(source, call.req.key)), call.req.key, call.seen)
  }

  /** The call sends a write request to its peer. */
  predicate Sends(source: map<Key, Object>, shards: set<Shard>, mesh: Mesh, call: Call) {
    && call.req.peer in mesh && Replicates(shards, Lookup(source, call.req.key))
    && Plan(call.req.key, Lookup(source, call.req.key), call.seen) != Nothing
  }

  predicate GoodMesh(shards: set<Shard>, mesh: Mesh) {
    && (forall s :: s in shards ==> IsShardName(s))
    && forall p :: p in mesh ==> WellRouted(mesh[p])
  }

  // -------------------------------------------------------------- single calls

  lemma ElsewhereUnchanged(source: map<Key, Object>, shards: set<Shard>, mesh: Mesh, call: Call, req: Request)
    requires GoodMesh(shards, mesh) && Possible(source, shards, mesh, call) && req != call.req
    ensures Due(source, shards, Reconcile(source, shards, mesh, call), req) == Due(source, shards, mesh, req)
  {
    if call.req.peer in mesh && req.peer == call.req.peer {
      var before := mesh[req.peer];
      var after := Reconciled(source, shards, before, call.req.key, call.seen);
      forall slot: Slot | slot.key == req.key ensures slot in after.objects <==> slot in before.objects {
        assert Lookup(after.objects, slot) == Lookup(before.objects, slot);
      }
    }
  }

  lemma FixOne(source: map<Key, Object>, shards: set<Shard>, server: Server, key: Key, seen: Option<Object>)
    requires key in source && ShardOf(source[key]) in shards && IsShardName(ShardOf(source[key]))
    requires Answers(server, ShardOf(source[key]), key, seen)
    ensures var after := Reconciled(source, shards, server, key, seen);
      && Agrees(source, after, key)
      && (WellRouted(server) ==> WellRouted(after))
      && (Agrees(source, server, key) ==> after == server)
      && (!Agrees(source, server, key) ==> after.next == server.next + 1)
  {
    ReconciledAgrees(source, {ShardOf(source[key])}, server, key, seen);
  }

  /** A call with nothing due sends no write and changes nothing. A call with work
      due sends one write and does one item of it: the peer changes, and the item
      is the only difference in what is due. */
  lemma CallTakesOneItem(source: map<Key, Object>, shards: set<Shard>, mesh: Mesh, call: Call)
    requires GoodMesh(shards, mesh) && Possible(source, shards, mesh, call)
    ensures var mesh' := Reconcile(source, shards, mesh, call);
      var due := Due(source, shards, mesh, call.req);
      && GoodMesh(shards, mesh')
      && (Sends(source, shards, mesh, call) <==> due != {})
      && (mesh' != mesh <==> due != {})
      && (due != {} ==> exists item :: item in due && Due(source, shards, mesh', call.req) == due - {item})
  {
    var req := call.req;
    var mesh' := Reconcile(source, shards, mesh, call);
    var due := Due(source, shards, mesh, req);
    if req.peer in mesh && Replicates(shards, Lookup(source, req.key)) {
      var before, after := mesh[req.peer], mesh'[req.peer];
      if req.key in source {
        FixOne(source, shards, before, req.key, call.seen);
        assert NeedsFix(source, shards, before, req.key) ==>
          Due(source, shards, mesh', req) == due - {Fix(req.peer, req.key)};
      } else if call.seen.Some? {
        var slot := Slot(ShardOf(call.seen.value), req.key);
        assert slot in before.objects;
        assert Remove(req.peer, slot) in due;
        assert after.objects == before.objects - {slot};
        assert Due(source, shards, mesh', req) == due - {Remove(req.peer, slot)};
      }
    }
  }

  // ----------------------------------------------------------------- schedules

  predicate Schedule(source: map<Key, Object>, shards: set<Shard>, mesh: Mesh, calls: seq<Call>) {
    calls == [] ||
    (Possible(source, shards, mesh, calls[0]) &&
     Schedule(source, shards, Reconcile(source, shards, mesh, calls[0]), calls[1..]))
  }

  function After(source: map<Key, Object>, shards: set<Shard>, mesh: Mesh, calls: seq<Call>): Mesh {
    if calls == [] then mesh
    else After(source, shards, Reconcile(source, shards, mesh, calls[0]), calls[1..])
  }

  /** The number of write requests the calls of the schedule send. */
  function Writes(source: map<Key, Object>, shards: set<Shard>, mesh: Mesh, calls: seq<Call>): nat {
    if calls == [] then 0
    else
      (if Sends(source, shards, mesh, calls[0]) then 1 else 0) +
      Writes(source, shards, Reconcile(source, shards, mesh, calls[0]), calls[1..])
  }

  function Count(calls: seq<Call>, req: Request): nat {
    if calls == [] then 0 else (if calls[0].req == req then 1 else 0) + Count(calls[1..], req)
  }

  /** After any schedule, what is left for a pair is what was there minus one item
      per call for that pair, down to nothing. */
  lemma {:induction false} WorkLeft(source: map<Key, Object>, shards: set<Shard>, mesh: Mesh,
                                       calls: seq<Call>, req: Request)
    requires GoodMesh(shards, mesh) && Schedule(source, shards, mesh, calls)
    ensures var before := |Due(source, shards, mesh, req)|;
      var left := |Due(source, shards, After(source, shards, mesh, calls), req)|;
      left == if Count(calls, req) < before then before - Count(calls, req) else 0
    decreases |calls|
  {
    if calls != [] {
      var mesh' := Reconcile(source, shards, mesh, calls[0]);
      CallTakesOneItem(source, shards, mesh, calls[0]);
      if calls[0].req != req {
        ElsewhereUnchanged(source, shards, mesh, calls[0], req);
      }
      WorkLeft(source, shards, mesh', calls[1..], req);
    }
  }

  /** All work of the mesh. */
  function AllDue(source: map<Key, Object>, shards: set<Shard>, mesh: Mesh): set<Item> {
    (set p, key | p in mesh && key in source && NeedsFix(source, shards, mesh[p], key) :: Fix(p, key)) +
    (set p, slot | p in mesh && slot in mesh[p].objects && slot.key !in source :: Remove(p, slot))
  }

  function RequestOf(item: Item): Request {
    match item
    case Fix(p, key) => Request(p, key)
    case Remove(p, slot) => Request(p, slot.key)
  }

  lemma AllDueByRequest(source: map<Key, Object>, shards: set<Shard>, mesh: Mesh, item: Item)
    ensures item in AllDue(source, shards, mesh) <==> item in Due(source, shards, mesh, RequestOf(item))
  {
  }

  lemma DueOfRequest(source: map<Key, Object>, shards: set<Shard>, mesh: Mesh, req: Request, item: Item)
    requires item in Due(source, shards, mesh, req)
    ensures RequestOf(item) == req
  {
  }

  lemma CallTakesFromAllDue(source: map<Key, Object>, shards: set<Shard>, mesh: Mesh, call: Call, item: Item, x: Item)
    requires GoodMesh(shards, mesh) && Possible(source, shards, mesh, call)
    requires item in Due(source, shards, mesh, call.req)
    requires Due(source, shards, Reconcile(source, shards, mesh, call), call.req)
          == Due(source, shards, mesh, call.req) - {item}
    ensures x in AllDue(source, shards, Reconcile(source, shards, mesh, call))
       <==> x in AllDue(source, shards, mesh) && x != item
  {
    DueOfRequest(source, shards, mesh, call.req, item);
    AllDueByRequest(source, shards, mesh, x);
    AllDueByRequest(source, shards, Reconcile(source, shards, mesh, call), x);
    if RequestOf(x) != call.req {
      ElsewhereUnchanged(source, shards, mesh, call, RequestOf(x));
    }
  }

  lemma RemovedOne(all: set<Item>, left: set<Item>, item: Item)
    requires item in all && forall x :: x in left <==> x in all && x != item
    ensures |left| == |all| - 1
  {
    assert left == all - {item};
  }

  lemma WorkingCallShrinks(source: map<Key, Object>, shards: set<Shard>, mesh: Mesh, call: Call)
    requires GoodMesh(shards, mesh) && Possible(source, shards, mesh, call)
    requires Due(source, shards, mesh, call.req) != {}
    ensures |AllDue(source, shards, Reconcile(source, shards, mesh, call))| == |AllDue(source, shards, mesh)| - 1
  {
    var mesh' := Reconcile(source, shards, mesh, call);
    CallTakesOneItem(source, shards, mesh, call);
    var due := Due(source, shards, mesh, call.req);
    var item :| item in due && Due(source, shards, mesh', call.req) == due - {item};
    DueOfRequest(source, shards, mesh, call.req, item);
    AllDueByRequest(source, shards, mesh, item);
    var all, left := AllDue(source, shards, mesh), AllDue(source, shards, mesh');
    forall x ensures x in left <==> x in all && x != item {
      CallTakesFromAllDue(source, shards, mesh, call, item, x);
    }
    RemovedOne(all, left, item);
  }

  lemma CallShrinksAllDue(source: map<Key, Object>, shards: set<Shard>, mesh: Mesh, call: Call)
    requires GoodMesh(shards, mesh) && Possible(source, shards, mesh, call)
    ensures var mesh' := Reconcile(source, shards, mesh, call);
      |AllDue(source, shards, mesh')| ==
        |AllDue(source, shards, mesh)| - (if Sends(source, shards, mesh, call) then 1 else 0)
  {
    CallTakesOneItem(source, shards, mesh, call);
    if Due(source, shards, mesh, call.req) != {} {
      WorkingCallShrinks(source, shards, mesh, call);
    }
  }

  /** Work is conserved: the writes of a schedule and the work it leaves add up to
      the work there was. In particular there are never more writes than that. */
  lemma {:induction false} WritesPlusLeft(source: map<Key, Object>, shards: set<Shard>, mesh: Mesh, calls: seq<Call>)
    requires GoodMesh(shards, mesh) && Schedule(source, shards, mesh, calls)
    ensures Writes(source, shards, mesh, calls) + |AllDue(source, shards, After(source, shards, mesh, calls))|
         == |AllDue(source, shards, mesh)|
    decreases |calls|
  {
    if calls != [] {
      CallTakesOneItem(source, shards, mesh, calls[0]);
      CallShrinksAllDue(source, shards, mesh, calls[0]);
      WritesPlusLeft(source, shards, Reconcile(source, shards, mesh, calls[0]), calls[1..]);
    }
  }

  /** No work is left exactly when every authoritative name agrees on every peer
      and no peer holds a name the source lacks; then every further call is a
      no-op. */
  lemma NothingDue(source: map<Key, Object>, shards: set<Shard>, mesh: Mesh)
    requires GoodMesh(shards, mesh)
    ensures AllDue(source, shards, mesh) == {} <==>
      forall p, key :: p in mesh && (key !in source || ShardOf(source[key]) in shards) ==> Agrees(source, mesh[p], key)
    ensures AllDue(source, shards, mesh) == {} ==>
      forall call :: Possible(source, shards, mesh, call) ==> Reconcile(source, shards, mesh, call) == mesh
  {
    if AllDue(source, shards, mesh) == {} {
      forall p, key | p in mesh && (key !in source || ShardOf(source[key]) in shards)
        ensures Agrees(source, mesh[p], key)
      {
        if key in source {
          assert Fix(p, key) !in AllDue(source, shards, mesh);
        } else {
          forall slot | slot in mesh[p].objects ensures slot.key != key {
            assert Remove(p, slot) !in AllDue(source, shards, mesh);
          }
        }
      }
      forall call | Possible(source, shards, mesh, call) ensures Reconcile(source, shards, mesh, call) == mesh {
        CallTakesOneItem(source, shards, mesh, call);
        if item :| item in Due(source, shards, mesh, call.req) {
          DueOfRequest(source, shards, mesh, call.req, item);
          AllDueByRequest(source, shards, mesh, item);
        }
      }
    }
  }

  /** A schedule that calls each pair as often as it has items leaves no work. */
  lemma FairSchedulesConverge(source: map<Key, Object>, shards: set<Shard>, mesh: Mesh, calls: seq<Call>)
    requires GoodMesh(shards, mesh) && Schedule(source, shards, mesh, calls)
    requires forall req :: |Due(source, shards, mesh, req)| <= Count(calls, req)
    ensures AllDue(source, shards, After(source, shards, mesh, calls)) == {}
    ensures Writes(source, shards, mesh, calls) == |AllDue(source, shards, mesh)|
  {
    var end := After(source, shards, mesh, calls);
    if item :| item in AllDue(source, shards, end) {
      AllDueByRequest(source, shards, end, item);
      WorkLeft(source, shards, mesh, calls, RequestOf(item));
      assert false;
    }
    WritesPlusLeft(source, shards, mesh, calls);
  }
}
