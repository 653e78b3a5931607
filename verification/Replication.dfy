/** One reconcile call of a replication controller against one peer
    cache-server: what it reads, the write it decides on, and what the server
    does with that write. */
module Replication {
  import opened Wrappers
  import opened Objects

  type PeerName = string

  /** Where an object is stored on a cache-server. */
  datatype Slot = Slot(shard: Shard, key: Key)

  datatype Request = Request(peer: PeerName, key: Key)

  // ------------------------------------------------------- the peer's storage

  /** `next` is the resource version the next write receives. */
  datatype Server = Server(objects: map<Slot, Object>, next: nat)

  predicate ValidServer(server: Server) {
    server.next > 0 &&
    forall slot :: slot in server.objects ==> 0 < server.objects[slot].version < server.next
  }

  /** Every object sits under the shard its own annotation names. */
  predicate WellRouted(server: Server) {
    forall slot :: slot in server.objects ==> ShardOf(server.objects[slot]) == slot.shard
  }

  function Stored(server: Server, slot: Slot, obj: Object): Server {
    Server(server.objects[slot := obj.(version := server.next)], server.next + 1)
  }

  predicate IsWild(shard: Shard) { shard == "" || shard == WILDCARD }

  /** The possible answers to a GET: exact for a named shard; any object of that
      name, whatever its shard, for a wildcard request. */
  predicate Answers(server: Server, shard: Shard, key: Key, answer: Option<Object>) {
    if IsWild(shard) then
      match answer
      case Some(o) => exists slot :: slot in server.objects && slot.key == key && server.objects[slot] == o
      case None => forall slot :: slot in server.objects ==> slot.key != key
    else
      answer == Lookup(server.objects, Slot(shard, key))
  }

  /** A write request and the error-or-not it returns. */
  datatype Write =
    | Nothing
    | Create(slot: Slot, obj: Object)
    | Update(slot: Slot, obj: Object)
    | Delete(slot: Slot)

  /** Create fails if the slot is taken or a resource version is set, Update if the
      resource version moved on, Delete (whose not-found is ignored) never. */
  predicate Accepts(server: Server, w: Write) {
    match w
    case Nothing => true
    case Create(slot, obj) => slot !in server.objects && obj.version == 0
    case Update(slot, obj) => slot in server.objects && server.objects[slot].version == obj.version
    case Delete(_) => true
  }

  function Execute(server: Server, w: Write): Server {
    if !Accepts(server, w) then server
    else match w
      case Nothing => server
      case Create(slot, obj) => Stored(server, slot, obj)
      case Update(slot, obj) => Stored(server, slot, obj)
      case Delete(slot) => server.(objects := server.objects - {slot})
  }

  // ------------------------------------------------------------- the decision

  /** The shard put into the request context for reading the peer. */
  function ReadShard(source: Option<Object>): Shard {
    match source
    case Some(o) => ShardOf(o)
    case None => ""
  }

  /** The write chosen from what was read on the source and on the peer. */
  function Plan(key: Key, source: Option<Object>, seen: Option<Object>): Write {
    match (source, seen)
    case (None, None) => Nothing
    case (None, Some(q)) => Delete(Slot(ShardOf(q), key))
    case (Some(o), None) => Create(Slot(ShardOf(o), key), o.(version := 0))
    case (Some(o), Some(q)) =>
      if ObjectsMatch(o, q) then Nothing else Update(Slot(ShardOf(o), key), o.(version := q.version))
  }

  predicate Replicates(shards: set<Shard>, source: Option<Object>) {
    source.Some? ==> ShardOf(source.value) in shards
  }

  /** A whole reconcile call with nobody else acting meanwhile. */
  function Reconciled(source: map<Key, Object>, shards: set<Shard>, server: Server, key: Key,
                      seen: Option<Object>): Server {
    var src := Lookup(source, key);
    if Replicates(shards, src) then Execute(server, Plan(key, src, seen)) else server
  }

  // ----------------------------------------------------- what the call is for

  /** The peer holds what it should if `src` is the source object of that name. */
  predicate Holds(server: Server, key: Key, src: Option<Object>) {
    match src
    case Some(o) =>
      var slot := Slot(ShardOf(o), key);
      slot in server.objects && ObjectsMatch(o, server.objects[slot])
    case None => forall slot :: slot in server.objects ==> slot.key != key
  }

  /** The peer agrees with the source about `key`. */
  predicate Agrees(source: map<Key, Object>, server: Server, key: Key) {
    Holds(server, key, Lookup(source, key))
  }

  lemma CopyMatches(o: Object, version: nat)
    ensures ObjectsMatch(o, o.(version := version))
  {
    EqualPartsMatch(o, o.(version := version));
  }

  /** An undisturbed call on an authoritative key is never refused and leaves the
      peer in agreement; on a key whose shard is not authoritative it leaves the
      peer alone. Other names and other shards are not touched. */
  lemma ReconciledAgrees(source: map<Key, Object>, shards: set<Shard>, server: Server, key: Key,
                         seen: Option<Object>)
    requires forall s :: s in shards ==> IsShardName(s)
    requires Replicates(shards, Lookup(source, key)) ==> Answers(server, ReadShard(Lookup(source, key)), key, seen)
    ensures var after := Reconciled(source, shards, server, key, seen);
      && (key in source && ShardOf(source[key]) in shards ==> Agrees(source, after, key))
      && (key in source && ShardOf(source[key]) !in shards ==> after == server)
      && (forall slot: Slot :: slot.key != key || (key in source && slot.shard != ShardOf(source[key])) ==>
            Lookup(after.objects, slot) == Lookup(server.objects, slot))
      && (Replicates(shards, Lookup(source, key)) ==> Accepts(server, Plan(key, Lookup(source, key), seen)))
  {
    if key in source {
      CopyMatches(source[key], server.next);
      assert source[key].(version := 0).(version := server.next) == source[key].(version := server.next);
    }
  }

  /** What a create or update leaves behind: under the shard the source object's
      annotation names, that object in full, with a fresh resource version; nothing
      is left out of it and nothing added. A call writes it unless the peer's copy
      matches. */
  lemma CopyIsComplete(source: map<Key, Object>, shards: set<Shard>, server: Server, key: Key, seen: Option<Object>)
    requires key in source && ShardOf(source[key]) in shards && forall s :: s in shards ==> IsShardName(s)
    requires Answers(server, ReadShard(Some(source[key])), key, seen)
    ensures var after := Reconciled(source, shards, server, key, seen);
      var slot := Slot(Get(source[key].annotations, "kcp.io/shard"), key);
      if slot in server.objects && ObjectsMatch(source[key], server.objects[slot]) then after == server
      else
        && after.objects == server.objects[slot := source[key].(version := server.next)]
        && after.next == server.next + 1
  {
    var o := source[key];
    assert o.(version := 0).(version := server.next) == o.(version := server.next);
    if seen.Some? {
      assert o.(version := seen.value.version).(version := server.next) == o.(version := server.next);
    }
  }

  /** Every slot the call changes lies in one of these shards. */
  ghost predicate ChangesOnly(before: Server, after: Server, shards: set<Shard>) {
    forall slot: Slot :: Lookup(after.objects, slot) != Lookup(before.objects, slot) ==> slot.shard in shards
  }

  /** A call stays within the agent's shards exactly unless it finds, for a name
      that is gone from the source, a peer object of another shard: the delete
      branch never looks at the shard set. */
  lemma OnlyDeletesIgnoreAuthority(source: map<Key, Object>, shards: set<Shard>, server: Server, key: Key,
                                   seen: Option<Object>)
    requires WellRouted(server) && forall s :: s in shards ==> IsShardName(s)
    requires Replicates(shards, Lookup(source, key)) ==> Answers(server, ReadShard(Lookup(source, key)), key, seen)
    ensures ChangesOnly(server, Reconciled(source, shards, server, key, seen), shards) <==>
      !(key !in source && seen.Some? && ShardOf(seen.value) !in shards)
  {
    if key !in source && seen.Some? {
      var slot := Slot(ShardOf(seen.value), key);
      var after := Reconciled(source, shards, server, key, seen);
      assert Lookup(after.objects, slot).None? && Lookup(server.objects, slot).Some?;
    }
  }

  /** An agent that owns no shard at all deletes any peer object whose name is gone
      from the source. */
  lemma DeleteIgnoresAuthority(source: map<Key, Object>, server: Server, slot: Slot)
    requires slot in server.objects && slot.key !in source && WellRouted(server)
    ensures Answers(server, "", slot.key, Some(server.objects[slot]))
    ensures Reconciled(source, {}, server, slot.key, Some(server.objects[slot])).objects == server.objects - {slot}
    ensures !ChangesOnly(server, Reconciled(source, {}, server, slot.key, Some(server.objects[slot])), {})
  {
    OnlyDeletesIgnoreAuthority(source, {}, server, slot.key, Some(server.objects[slot]));
  }

  // ---------------------------------------------------------- the controller

  /** A peer cache-server behind its client. */
  class CacheServer {
    var objects: map<Slot, Object>
    var next: nat

    function State(): Server reads this { Server(objects, next) }

    method Get(shard: Shard, key: Key) returns (answer: Option<Object>)
      ensures Answers(State(), shard, key, answer)
    {
      if IsWild(shard) {
        if slot :| slot in objects && slot.key == key {
          return Some(objects[slot]);
        } else {
          return None;
        }
      }
      return Lookup(objects, Slot(shard, key));
    }

    method Submit(w: Write) returns (ok: bool)
      modifies this
      ensures State() == Execute(old(State()), w)
      ensures ok <==> Accepts(old(State()), w)
    {
      match w
      case Nothing => ok := true;
      case Create(slot, obj) =>
        ok := slot !in objects && obj.version == 0;
        if ok {
          objects, next := objects[slot := obj.(version := next)], next + 1;
        }
      case Update(slot, obj) =>
        ok := slot in objects && objects[slot].version == obj.version;
        if ok {
          objects, next := objects[slot := obj.(version := next)], next + 1;
        }
      case Delete(slot) =>
        ok := true;
        objects := objects - {slot};
    }
  }

  /** Which of the requests a reconcile call makes come back with an error. */
  datatype Faults = Faults(source: bool, read: bool, write: bool)

  class Reconciler {
    var source: map<Key, Object>
    var shards: set<Shard>
    var clusters: map<PeerName, CacheServer>

    function IsAuthoritative(obj: Object): bool reads this { ShardOf(obj) in shards }

    /** Without faults the peer ends up as `Reconciled` says, for some answer the
        peer may give, and the call fails only on a refused write. Every failing
        call reports an error, which puts the request back into the queue. */
    method Reconcile(req: Request, faults: Faults) returns (failed: bool, ghost seen: Option<Object>)
      modifies if req.peer in clusters then {clusters[req.peer]} else {}
      ensures req.peer !in clusters ==> failed
      ensures req.peer in clusters ==>
        var peer := clusters[req.peer];
        var src := Lookup(source, req.key);
        && (Replicates(shards, src) && !faults.source && !faults.read ==>
              Answers(old(peer.State()), ReadShard(src), req.key, seen))
        && (|| peer.State() == old(peer.State())
            || peer.State() == Reconciled(source, shards, old(peer.State()), req.key, seen))
        && (!failed ==> peer.State() == Reconciled(source, shards, old(peer.State()), req.key, seen))
        && (faults == Faults(false, false, false) ==>
              peer.State() == Reconciled(source, shards, old(peer.State()), req.key, seen) &&
              (failed <==> Replicates(shards, src) && !Accepts(old(peer.State()), Plan(req.key, src, seen))))
        && (faults.source ==> failed)
        && (faults.read && Replicates(shards, src) ==> failed)
        && (!faults.source && !faults.read && Replicates(shards, src) ==>
              (failed <==> Plan(req.key, src, seen) != Nothing &&
                           (faults.write || !Accepts(old(peer.State()), Plan(req.key, src, seen)))))
        && (!faults.source && !Replicates(shards, src) ==> !failed && peer.State() == old(peer.State()))
    {
      seen := None;
      failed := false;
      if req.peer !in clusters {
        return true, None;
      }
      var peer := clusters[req.peer];
      if faults.source {
        return true, None;
      }
      var sourceObj := Lookup(source, req.key);
      if sourceObj.Some? && !IsAuthoritative(sourceObj.value) {
        return false, None;
      }
      if faults.read {
        return true, None;
      }
      var peerShard := if sourceObj.Some? then ShardOf(sourceObj.value) else "";
      var peerObj := peer.Get(peerShard, req.key);
      seen := peerObj;
      var request := Nothing;
      if sourceObj.None? {
        if peerObj.Some? {
          request := Delete(Slot(ShardOf(peerObj.value), req.key));
        }
      } else if peerObj.None? {
        request := Create(Slot(peerShard, req.key), sourceObj.value.(version := 0));
      } else if !ObjectsMatch(sourceObj.value, peerObj.value) {
        request := Update(Slot(peerShard, req.key), sourceObj.value.(version := peerObj.value.version));
      }
      if request == Nothing {
        return false, peerObj;
      }
      // A request that fails in transit may or may not have been served.
      var served: bool := *;
      if !faults.write || served {
        var ok := peer.Submit(request);
        failed := !ok || faults.write;
      } else {
        failed := true;
      }
    }
  }
}
