/** The set of shards the agent is authoritative for, kept up to date by one
    reconcile call per Shard object event. */
module ShardRegistry {
  import opened Wrappers
  import opened Objects

  const CACHE_ANNOTATION := "kcp.io/cache"

  /** What reading a Shard object came back with. */
  datatype Read = Failed | Missing | Found(annotations: map<string, string>)

  datatype Observation = Observation(name: Shard, read: Read)

  /** The Shard object names `own` as the cache-server it is connected to. */
  predicate Names(read: Read, own: string) {
    read.Found? && Get(read.annotations, CACHE_ANNOTATION) == own
  }

  function Observe(own: string, shards: set<Shard>, o: Observation): set<Shard> {
    if o.read.Failed? then shards
    else if Names(o.read, own) then shards + {o.name}
    else shards - {o.name}
  }

  class Registry {
    const ownName: string
    var shardSet: set<Shard>

    constructor (ownName: string)
      ensures this.ownName == ownName && shardSet == {}
    {
      this.ownName := ownName;
      shardSet := {};
    }

    method Add(name: Shard)
      modifies `shardSet
      ensures shardSet == old(shardSet) + {name}
    {
      if name !in shardSet {
        shardSet := shardSet + {name};
      }
    }

    method Remove(name: Shard)
      modifies `shardSet
      ensures shardSet == old(shardSet) - {name}
    {
      if name in shardSet {
        shardSet := shardSet - {name};
      }
    }

    method Reconcile(o: Observation) returns (failed: bool)
      modifies `shardSet
      ensures shardSet == Observe(ownName, old(shardSet), o)
      ensures failed <==> o.read.Failed?
    {
      failed := false;
      match o.read
      case Failed =>
        failed := true;
      case Missing =>
        Remove(o.name);
      case Found(annotations) =>
        if Get(annotations, CACHE_ANNOTATION) == ownName {
          Add(o.name);
        } else {
          Remove(o.name);
        }
    }

    method IsAuthoritative(name: Shard) returns (yes: bool)
      ensures yes <==> name in shardSet
    {
      yes := name in shardSet;
    }
  }

  // ---------------------------------------------------------------- refinement

  /** The set after a sequence of reconciles, from empty. */
  function Observed(own: string, history: seq<Observation>): set<Shard> {
    if history == [] then {}
    else Observe(own, Observed(own, history[..|history| - 1]), history[|history| - 1])
  }

  /** The i-th observation is the last successful one of `name`. */
  predicate IsLatest(history: seq<Observation>, name: Shard, i: int) {
    && 0 <= i < |history| && history[i].name == name && !history[i].read.Failed?
    && forall j :: i < j < |history| && history[j].name == name ==> history[j].read.Failed?
  }

  /** A shard is in the set exactly when its last successful observation found it
      with the agent's own name. */
  lemma {:induction false} LatestDecides(own: string, history: seq<Observation>, name: Shard)
    ensures name in Observed(own, history) <==>
      exists i :: IsLatest(history, name, i) && Names(history[i].read, own)
    decreases |history|
  {
    if history != [] {
      var last := |history| - 1;
      var before := history[..last];
      LatestDecides(own, before, name);
      if history[last].name == name && !history[last].read.Failed? {
        assert IsLatest(history, name, last);
        assert forall i :: IsLatest(history, name, i) ==> i == last;
      } else {
        assert !IsLatest(history, name, last);
        forall i | 0 <= i < last ensures IsLatest(history, name, i) <==> IsLatest(before, name, i) {
          assert forall j :: 0 <= j < last ==> before[j] == history[j];
        }
        if i :| IsLatest(before, name, i) && Names(before[i].read, own) {
          assert IsLatest(history, name, i) && Names(history[i].read, own);
        }
        if i :| IsLatest(history, name, i) && Names(history[i].read, own) {
          assert IsLatest(before, name, i) && Names(before[i].read, own);
        }
      }
    }
  }

  // ------------------------------------------------------------- a store at rest

  type Store = map<Shard, map<string, string>>

  function ReadFrom(store: Store, name: Shard): Read {
    if name in store then Found(store[name]) else Missing
  }

  /** The tail of the history, from `start` on, read a store that stayed the same,
      and each name that matters was read there. */
  predicate Settled(store: Store, history: seq<Observation>, start: nat, name: Shard) {
    && (forall i :: start <= i < |history| ==>
          history[i].read.Failed? || history[i].read == ReadFrom(store, history[i].name))
    && exists i :: start <= i < |history| && history[i].name == name && !history[i].read.Failed?
  }

  /** Whatever happened before, once a name has been read from a store at rest its
      membership is that of the defining comprehension. */
  lemma {:induction false} SettledDecides(own: string, store: Store, history: seq<Observation>, start: nat, name: Shard)
    requires Settled(store, history, start, name)
    ensures name in Observed(own, history) <==> Names(ReadFrom(store, name), own)
    decreases |history|
  {
    var last := |history| - 1;
    var before := history[..last];
    if history[last].name != name || history[last].read.Failed? {
      var i :| start <= i < |history| && history[i].name == name && !history[i].read.Failed?;
      assert before[i] == history[i];
      assert forall j :: 0 <= j < last ==> before[j] == history[j];
      SettledDecides(own, store, before, start, name);
    }
  }

  /** After every stored and every known shard was read from a store at rest, the
      set is exactly the shards whose object names the agent, and agents with
      different names have no shard in common. */
  lemma SettledSet(own: string, other: string, store: Store,
                   history: seq<Observation>, start: nat, history': seq<Observation>, start': nat)
    requires own != other
    requires forall name :: name in store || name in Observed(own, history) ==> Settled(store, history, start, name)
    requires forall name :: name in store || name in Observed(other, history') ==>
      Settled(store, history', start', name)
    ensures Observed(own, history) == set name | name in store && Get(store[name], "kcp.io/cache") == own
    ensures Observed(own, history) !! Observed(other, history')
  {
    forall name | name in store || name in Observed(own, history)
      ensures name in Observed(own, history) <==> Names(ReadFrom(store, name), own)
    {
      SettledDecides(own, store, history, start, name);
    }
    forall name | name in store || name in Observed(other, history')
      ensures name in Observed(other, history') <==> Names(ReadFrom(store, name), other)
    {
      SettledDecides(other, store, history', start', name);
    }
  }

  // ------------------------------------------------------- a store that changes

  /** The observations read the store as it successively was, the i-th one in its
      state `times[i]`; each agent looks when it gets to it, but in order. */
  predicate Follows(stores: seq<Store>, history: seq<Observation>, times: seq<nat>) {
    && |times| == |history|
    && (forall i, j :: 0 <= i < j < |times| ==> times[i] <= times[j])
    && forall i :: 0 <= i < |history| ==>
         times[i] < |stores| &&
         (history[i].read.Failed? || history[i].read == ReadFrom(stores[times[i]], history[i].name))
  }

  /** Some agent that has been following these states holds the shard now. */
  ghost predicate CanHold(own: string, stores: seq<Store>, name: Shard) {
    exists history, times :: Follows(stores, history, times) && name in Observed(own, history)
  }

  lemma CanHoldIff(own: string, stores: seq<Store>, name: Shard)
    ensures CanHold(own, stores, name) <==> exists i :: 0 <= i < |stores| && Names(ReadFrom(stores[i], name), own)
  {
    if history: seq<Observation>, times: seq<nat> :| Follows(stores, history, times) && name in Observed(own, history) {
      LatestDecides(own, history, name);
      var i :| IsLatest(history, name, i) && Names(history[i].read, own);
      assert Names(ReadFrom(stores[times[i]], name), own);
    }
    if i :| 0 <= i < |stores| && Names(ReadFrom(stores[i], name), own) {
      var history := [Observation(name, ReadFrom(stores[i], name))];
      assert history[..0] == [];
      assert Follows(stores, history, [i]) && name in Observed(own, history);
    }
  }

  /** Two agents that follow one store can hold a shard at the same time exactly
      when each of them was named in some state of the store: a shard that changes
      hands is held by both until the first agent looks again. */
  lemma AgentsOverlapIff(a: string, b: string, stores: seq<Store>, name: Shard)
    ensures CanHold(a, stores, name) && CanHold(b, stores, name) <==>
      exists i, j :: 0 <= i < |stores| && 0 <= j < |stores| &&
        Names(ReadFrom(stores[i], name), a) && Names(ReadFrom(stores[j], name), b)
  {
    CanHoldIff(a, stores, name);
    CanHoldIff(b, stores, name);
  }
}
