/** The CRD watcher: which peer clusters it knows, which replication controllers
    it runs, and what it asks those controllers to engage. The functions below
    are the bodies of its critical sections; the class runs them one after the
    other, module CrdRuns interleaves them. */
module CrdManager {
  import opened Wrappers

  type ClusterName = string
  type CrdName = string

  /** Identity of one Engage call: the context and cluster it was given. */
  type Instance = nat

  /** Identity of one created replication controller and its context. */
  type Controller = nat

  /** `controller.Engage(ctx, name, cluster)` has been called. */
  datatype Ask = Ask(controller: Controller, name: ClusterName, inst: Instance)

  /** `asked` and `cancelled` record the calls made on controllers and on their
      cancel functions. */
  datatype Manager = Manager(
    clusters: map<ClusterName, Instance>,
    syncEntries: map<CrdName, Controller>,
    asked: set<Ask>,
    cancelled: set<Controller>)

  // -------------------------------------------------------- critical sections

  function RecordCluster(m: Manager, name: ClusterName, inst: Instance): Manager {
    m.(clusters := m.clusters[name := inst])
  }

  /** The goroutine behind a cancelled peer context: it deletes by name. */
  function ForgetCluster(m: Manager, name: ClusterName): Manager {
    m.(clusters := m.clusters - {name})
  }

  /** One turn of the loop in Engage. */
  function AskOne(m: Manager, key: CrdName, name: ClusterName, inst: Instance): Manager
    requires key in m.syncEntries
  {
    m.(asked := m.asked + {Ask(m.syncEntries[key], name, inst)})
  }

  function AskAll(m: Manager, name: ClusterName, inst: Instance): Manager {
    m.(asked := m.asked + set key | key in m.syncEntries :: Ask(m.syncEntries[key], name, inst))
  }

  /** A new controller is asked to engage every known cluster. */
  function Seed(m: Manager, c: Controller): Manager {
    m.(asked := m.asked + set name | name in m.clusters :: Ask(c, name, m.clusters[name]))
  }

  function Register(m: Manager, key: CrdName, c: Controller): Manager {
    m.(syncEntries := m.syncEntries[key := c])
  }

  function Cancel(m: Manager, c: Controller): Manager {
    m.(cancelled := m.cancelled + {c})
  }

  function Cleanup(m: Manager, key: CrdName): Manager {
    if key in m.syncEntries
    then Cancel(m, m.syncEntries[key]).(syncEntries := m.syncEntries - {key})
    else m
  }

  /** The goroutine behind a controller that returned: it deletes its own entry only. */
  function Deregister(m: Manager, key: CrdName, c: Controller): Manager {
    if key in m.syncEntries && m.syncEntries[key] == c
    then m.(syncEntries := m.syncEntries - {key})
    else m
  }

  // --------------------------------------------------------------------- CRDs

  datatype Version = Version(name: string, storage: bool)

  datatype Crd = Crd(name: CrdName, deleting: bool, versions: seq<Version>)

  predicate IsFirstStorage(versions: seq<Version>, i: int) {
    0 <= i < |versions| && versions[i].storage && forall j :: 0 <= j < i ==> !versions[j].storage
  }

  /** The version a controller is started for: the first storage version; the
      first listed one if there is none or its name is empty; no name, no version. */
  ghost predicate IsVersionOf(versions: seq<Version>, v: Option<string>) {
    if exists i :: IsFirstStorage(versions, i) && versions[i].name != "" then
      v.Some? && exists i :: IsFirstStorage(versions, i) && versions[i].name == v.value
    else if |versions| > 0 && versions[0].name != "" then
      v == Some(versions[0].name)
    else
      v == None
  }

  function StorageName(versions: seq<Version>): string {
    if versions == [] then "" else if versions[0].storage then versions[0].name else StorageName(versions[1..])
  }

  function VersionOf(versions: seq<Version>): Option<string> {
    var storage := StorageName(versions);
    var version := if storage == "" && |versions| > 0 then versions[0].name else storage;
    if version == "" then None else Some(version)
  }

  lemma {:induction false} StorageNameIsFirst(versions: seq<Version>)
    ensures (exists i :: IsFirstStorage(versions, i) && versions[i].name == StorageName(versions))
         || (StorageName(versions) == "" && forall i :: 0 <= i < |versions| ==> !versions[i].storage)
  {
    if versions != [] {
      if versions[0].storage {
        assert IsFirstStorage(versions, 0);
      } else {
        StorageNameIsFirst(versions[1..]);
        if i :| IsFirstStorage(versions[1..], i) && versions[1..][i].name == StorageName(versions[1..]) {
          assert IsFirstStorage(versions, i + 1);
        } else {
          forall i | 0 <= i < |versions| ensures !versions[i].storage {
            assert i > 0 ==> versions[i] == versions[1..][i - 1];
          }
        }
      }
    }
  }

  lemma VersionOfChooses(versions: seq<Version>)
    ensures IsVersionOf(versions, VersionOf(versions))
  {
    StorageNameIsFirst(versions);
    forall i, j | IsFirstStorage(versions, i) && IsFirstStorage(versions, j) ensures i == j {
    }
  }

  // ---------------------------------------------------- whole calls, undisturbed

  datatype Got = Found(crd: Crd) | NotFound | GetFailed

  function Ensure(m: Manager, crd: Crd, c: Controller, created: bool): Manager {
    if crd.name in m.syncEntries || VersionOf(crd.versions).None? then m
    else if !created then Cancel(m, c)
    else Register(Seed(m, c), crd.name, c)
  }

  function Reconciled(m: Manager, name: CrdName, got: Got, c: Controller, created: bool): Manager {
    match got
    case GetFailed => m
    case NotFound => Cleanup(m, name)
    case Found(crd) => if crd.deleting then Cleanup(m, name) else Ensure(m, crd, c, created)
  }

  function Engaged(m: Manager, name: ClusterName, inst: Instance): Manager {
    AskAll(RecordCluster(m, name, inst), name, inst)
  }

  // ------------------------------------------------------------- the reconciler

  class Reconciler {
    var clusters: map<ClusterName, Instance>
    var syncEntries: map<CrdName, Controller>
    var asked: set<Ask>
    var cancelled: set<Controller>
    var nextController: Controller

    function State(): Manager reads this { Manager(clusters, syncEntries, asked, cancelled) }

    /** The next controller to be created is a new one. */
    predicate FreshController() reads this {
      && (forall key :: key in syncEntries ==> syncEntries[key] < nextController)
      && (forall c :: c in cancelled ==> c < nextController)
      && (forall ask :: ask in asked ==> ask.controller < nextController)
    }

    constructor ()
      ensures FreshController() && State() == Manager(map[], map[], {}, {})
    {
      clusters, syncEntries, asked, cancelled, nextController := map[], map[], {}, {}, 0;
    }

    method Engage(name: ClusterName, inst: Instance)
      modifies `clusters, `asked
      ensures State() == Engaged(old(State()), name, inst)
      ensures clusters == old(clusters)[name := inst]
      ensures asked == old(asked) + set key | key in syncEntries :: Ask(syncEntries[key], name, inst)
    {
      clusters := clusters[name := inst];
      var todo := syncEntries.Keys;
      while todo != {}
        invariant clusters == old(clusters)[name := inst] && syncEntries == old(syncEntries)
        invariant todo <= syncEntries.Keys
        invariant asked == old(asked) +
          set key | key in syncEntries && key !in todo :: Ask(syncEntries[key], name, inst)
        decreases |todo|
      {
        var key :| key in todo;
        asked := asked + {Ask(syncEntries[key], name, inst)};
        todo := todo - {key};
      }
    }

    /** The body of the goroutine that waits for a peer's context. */
    method PeerContextDone(name: ClusterName)
      modifies `clusters
      ensures State() == ForgetCluster(old(State()), name)
      ensures clusters == old(clusters) - {name}
    {
      clusters := clusters - {name};
    }

    method EngagedClusterNames() returns (names: seq<ClusterName>)
      ensures forall name :: name in names <==> name in clusters
      ensures |names| == |clusters|
    {
      names := [];
      var todo := clusters.Keys;
      while todo != {}
        invariant todo <= clusters.Keys
        invariant forall name :: name in names <==> name in clusters.Keys - todo
        invariant |names| + |todo| == |clusters.Keys|
        decreases |todo|
      {
        var name :| name in todo;
        names := names + [name];
        todo := todo - {name};
      }
    }

    /** The loop of gvrAndGVKFromCRD. */
    method SelectVersion(versions: seq<Version>) returns (v: Option<string>)
      ensures v == VersionOf(versions) && IsVersionOf(versions, v)
    {
      VersionOfChooses(versions);
      var version := "";
      var i := 0;
      while i < |versions|
        invariant 0 <= i <= |versions| && version == ""
        invariant StorageName(versions) == StorageName(versions[i..])
      {
        if versions[i].storage {
          version := versions[i].name;
          break;
        }
        i := i + 1;
      }
      if version == "" && |versions| > 0 {
        version := versions[0].name;
      }
      v := if version == "" then None else Some(version);
    }

    method EnsureReplicationController(crd: Crd, created: bool) returns (failed: bool)
      modifies this
      ensures State() == Ensure(old(State()), crd, old(nextController), created)
      ensures old(FreshController()) ==> FreshController()
      ensures failed <==> crd.name !in old(syncEntries) && (VersionOf(crd.versions).None? || !created)
      ensures crd.name in old(syncEntries) || VersionOf(crd.versions).None? ==> State() == old(State())
      ensures crd.name !in old(syncEntries) && VersionOf(crd.versions).Some? ==>
        var c := old(nextController);
        && clusters == old(clusters)
        && cancelled == (if created then old(cancelled) else old(cancelled) + {c})
        && syncEntries == (if created then old(syncEntries)[crd.name := c] else old(syncEntries))
        && asked == old(asked) +
             (if created then set name | name in clusters :: Ask(c, name, clusters[name]) else {})
    {
      if crd.name in syncEntries {
        return false;
      }
      var version := SelectVersion(crd.versions);
      if version.None? {
        return true;
      }
      var c := nextController;
      nextController := nextController + 1;
      if !created {
        cancelled := cancelled + {c};
        return true;
      }
      var todo := clusters.Keys;
      while todo != {}
        invariant clusters == old(clusters) && syncEntries == old(syncEntries) && cancelled == old(cancelled)
        invariant todo <= clusters.Keys && nextController == c + 1
        invariant asked == old(asked) + set name | name in clusters && name !in todo :: Ask(c, name, clusters[name])
        decreases |todo|
      {
        var name :| name in todo;
        asked := asked + {Ask(c, name, clusters[name])};
        todo := todo - {name};
      }
      syncEntries := syncEntries[crd.name := c];
      return false;
    }

    /** The end of the goroutine that runs a controller. */
    method ControllerReturned(key: CrdName, c: Controller)
      modifies `syncEntries
      ensures State() == Deregister(old(State()), key, c)
      ensures syncEntries ==
        if key in old(syncEntries) && old(syncEntries)[key] == c then old(syncEntries) - {key} else old(syncEntries)
    {
      if key in syncEntries && syncEntries[key] == c {
        syncEntries := syncEntries - {key};
      }
    }

    method CleanupController(key: CrdName)
      modifies `syncEntries, `cancelled
      ensures State() == Cleanup(old(State()), key)
      ensures syncEntries == old(syncEntries) - {key}
      ensures cancelled == old(cancelled) + if key in old(syncEntries) then {old(syncEntries)[key]} else {}
    {
      if key in syncEntries {
        cancelled := cancelled + {syncEntries[key]};
        syncEntries := syncEntries - {key};
      }
    }

    method Reconcile(name: CrdName, got: Got, created: bool) returns (failed: bool)
      requires got.Found? ==> got.crd.name == name
      modifies this
      ensures State() == Reconciled(old(State()), name, got, old(nextController), created)
      ensures old(FreshController()) ==> FreshController()
      ensures failed <==> got.GetFailed? || (got.Found? && !got.crd.deleting && name !in old(syncEntries) &&
                                             (VersionOf(got.crd.versions).None? || !created))
      ensures got.GetFailed? ==> State() == old(State())
      ensures got.NotFound? || (got.Found? && got.crd.deleting) ==>
        && clusters == old(clusters) && asked == old(asked) && syncEntries == old(syncEntries) - {name}
        && cancelled == old(cancelled) + if name in old(syncEntries) then {old(syncEntries)[name]} else {}
      ensures got.Found? && !got.crd.deleting ==>
        && (forall other :: other != name ==> Lookup(syncEntries, other) == Lookup(old(syncEntries), other))
        && (name in syncEntries <==>
              name in old(syncEntries) || (created && VersionOf(got.crd.versions).Some?))
        && (name in old(syncEntries) ==> State() == old(State()))
        && (name !in old(syncEntries) && name in syncEntries ==>
              syncEntries[name] == old(nextController) && cancelled == old(cancelled) &&
              asked == old(asked) + set n | n in clusters :: Ask(old(nextController), n, clusters[n]))
    {
      match got
      case NotFound =>
        CleanupController(name);
        failed := false;
      case GetFailed =>
        failed := true;
      case Found(crd) =>
        if crd.deleting {
          CleanupController(name);
          failed := false;
        } else {
          failed := EnsureReplicationController(crd, created);
        }
    }
  }

  // -------------------------------------------------------- CRD-set convergence

  type Store = map<CrdName, Crd>

  predicate Named(store: Store) {
    forall name :: name in store ==> store[name].name == name
  }

  function Read(store: Store, name: CrdName): Got {
    if name in store then Found(store[name]) else NotFound
  }

  /** Reconciling `names` in order against a store that stays as it is; the i-th
      call would create controller `next + i`. */
  function Reconciling(m: Manager, store: Store, names: seq<CrdName>, next: Controller): Manager
    decreases |names|
  {
    if names == [] then m
    else Reconciling(Reconciled(m, names[0], Read(store, names[0]), next, true), store, names[1..], next + 1)
  }

  /** A CRD that ends up with a controller: it is there, not going away, and either
      already had one or has a usable version. */
  predicate Wanted(m: Manager, store: Store, name: CrdName) {
    name in store && !store[name].deleting && (name in m.syncEntries || VersionOf(store[name].versions).Some?)
  }

  lemma {:induction false} ReconcilingOne(m: Manager, store: Store, names: seq<CrdName>,
                                             next: Controller, name: CrdName)
    requires Named(store)
    ensures var end := Reconciling(m, store, names, next);
      && (name in names ==> (name in end.syncEntries <==> Wanted(m, store, name)))
      && (name !in names ==> Lookup(end.syncEntries, name) == Lookup(m.syncEntries, name))
      && (name in m.syncEntries && name in end.syncEntries ==> end.syncEntries[name] == m.syncEntries[name])
    decreases |names|
  {
    if names != [] {
      var m1 := Reconciled(m, names[0], Read(store, names[0]), next, true);
      ReconcilingOne(m1, store, names[1..], next + 1, name);
      assert name in names <==> name == names[0] || name in names[1..];
      if name != names[0] {
        assert Lookup(m1.syncEntries, name) == Lookup(m.syncEntries, name);
      } else {
        assert name in m1.syncEntries <==> Wanted(m, store, name);
      }
    }
  }

  /** Any schedule that names every stored and every registered CRD ends with
      controllers for exactly the wanted ones, keeps those that were running, and
      leaves nothing for a further reconcile of any CRD to do. */
  lemma CrdSetConverges(m: Manager, store: Store, names: seq<CrdName>, next: Controller)
    requires Named(store)
    requires forall name :: name in store || name in m.syncEntries ==> name in names
    ensures var end := Reconciling(m, store, names, next);
      && (forall name :: name in end.syncEntries <==> Wanted(m, store, name))
      && (forall name :: name in end.syncEntries && name in m.syncEntries ==>
            end.syncEntries[name] == m.syncEntries[name])
      && (forall name, c :: Reconciled(end, name, Read(store, name), c, true) == end)
  {
    var end := Reconciling(m, store, names, next);
    forall name ensures name in end.syncEntries <==> Wanted(m, store, name) {
      ReconcilingOne(m, store, names, next, name);
    }
    forall name | name in end.syncEntries && name in m.syncEntries
      ensures end.syncEntries[name] == m.syncEntries[name]
    {
      ReconcilingOne(m, store, names, next, name);
    }
  }
}
