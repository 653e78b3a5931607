/** The CRD watcher under concurrency: any number of Engage calls, CRD
    reconciles, peer-context goroutines and controller goroutines, interleaved
    between their critical sections. */
module CrdRuns {
  import opened Wrappers
  import opened CrdManager

  /** Where an Engage call is: it has recorded its cluster and waits for the read
      lock on the sync entries; or it holds that lock and still has to ask the
      controllers of `todo`; or it has returned. */
  datatype EngagePhase = Recorded | Asking(todo: set<CrdName>) | Finished

  datatype EngageCall = EngageCall(name: ClusterName, phase: EngagePhase)

  /** The registration that holds the write lock on the sync entries. */
  datatype Writer = Writer(key: CrdName, controller: Controller, seeded: bool)

  /** The goroutine of a controller: not started yet, in Start, returned from
      Start but not past its own cleanup, gone. */
  datatype Phase = Created | Running | Returned | Gone

  datatype ControllerInfo = ControllerInfo(key: CrdName, phase: Phase)

  /** `done` are the instances whose context is cancelled, `cleaned` those whose
      goroutine has run. */
  datatype State = State(
    m: Manager,
    writer: Option<Writer>,
    engages: map<Instance, EngageCall>,
    done: set<Instance>,
    cleaned: set<Instance>,
    controllers: map<Controller, ControllerInfo>)

  datatype Step =
    | Record(name: ClusterName, inst: Instance)
    | LockForAsking(inst: Instance)
    | AskNext(inst: Instance, key: CrdName)
    | FinishEngage(inst: Instance)
    | CancelPeer(inst: Instance)
    | CleanPeer(inst: Instance)
    | BeginEnsure(key: CrdName, c: Controller)
    | FailCreate
    | SeedClusters
    | FinishEnsure
    | CleanupCrd(key: CrdName)
    | ControllerReturns(c: Controller)
    | ControllerLeaves(c: Controller)

  predicate IsAsking(s: State, inst: Instance) {
    inst in s.engages && s.engages[inst].phase.Asking?
  }

  predicate NoReaders(s: State) {
    forall inst :: inst in s.engages ==> !s.engages[inst].phase.Asking?
  }

  predicate WriteLockFree(s: State) {
    s.writer.None? && NoReaders(s)
  }

  predicate Enabled(s: State, step: Step) {
    match step
    case Record(_, inst) => inst !in s.engages
    case LockForAsking(inst) => inst in s.engages && s.engages[inst].phase.Recorded? && s.writer.None?
    case AskNext(inst, key) => IsAsking(s, inst) && key in s.engages[inst].phase.todo && key in s.m.syncEntries
    case FinishEngage(inst) => IsAsking(s, inst) && s.engages[inst].phase.todo == {}
    case CancelPeer(inst) => inst in s.engages && inst !in s.done
    case CleanPeer(inst) => inst in s.engages && inst in s.done && inst !in s.cleaned
    case BeginEnsure(key, c) => WriteLockFree(s) && key !in s.m.syncEntries && c !in s.controllers
    case FailCreate => s.writer.Some? && !s.writer.value.seeded
    case SeedClusters => s.writer.Some? && !s.writer.value.seeded
    case FinishEnsure => s.writer.Some? && s.writer.value.seeded && s.writer.value.controller in s.controllers
    case CleanupCrd(_) => WriteLockFree(s)
    case ControllerReturns(c) => c in s.controllers && s.controllers[c].phase.Running?
    case ControllerLeaves(c) => WriteLockFree(s) && c in s.controllers && s.controllers[c].phase.Returned?
  }

  function SetPhase(s: State, inst: Instance, phase: EngagePhase): State
    requires inst in s.engages
  {
    s.(engages := s.engages[inst := s.engages[inst].(phase := phase)])
  }

  function SetController(s: State, c: Controller, phase: Phase): State
    requires c in s.controllers
  {
    s.(controllers := s.controllers[c := s.controllers[c].(phase := phase)])
  }

  function Apply(s: State, step: Step): State
    requires Enabled(s, step)
  {
    match step
    case Record(name, inst) =>
      s.(m := RecordCluster(s.m, name, inst), engages := s.engages[inst := EngageCall(name, Recorded)])
    case LockForAsking(inst) => SetPhase(s, inst, Asking(s.m.syncEntries.Keys))
    case AskNext(inst, key) =>
      var call := s.engages[inst];
      SetPhase(s, inst, Asking(call.phase.todo - {key})).(m := AskOne(s.m, key, call.name, inst))
    case FinishEngage(inst) => SetPhase(s, inst, Finished)
    case CancelPeer(inst) => s.(done := s.done + {inst})
    case CleanPeer(inst) => s.(m := ForgetCluster(s.m, s.engages[inst].name), cleaned := s.cleaned + {inst})
    case BeginEnsure(key, c) =>
      s.(writer := Some(Writer(key, c, false)), controllers := s.controllers[c := ControllerInfo(key, Created)])
    case FailCreate => s.(writer := None, m := Cancel(s.m, s.writer.value.controller))
    case SeedClusters =>
      s.(writer := Some(s.writer.value.(seeded := true)), m := Seed(s.m, s.writer.value.controller))
    case FinishEnsure =>
      var w := s.writer.value;
      SetController(s, w.controller, Running).(writer := None, m := Register(s.m, w.key, w.controller))
    case CleanupCrd(key) => s.(m := Cleanup(s.m, key))
    case ControllerReturns(c) => SetController(s, c, Returned)
    case ControllerLeaves(c) => SetController(s, c, Gone).(m := Deregister(s.m, s.controllers[c].key, c))
  }

  predicate Init(s: State) {
    s == State(Manager(map[], map[], {}, {}), None, map[], {}, {}, map[])
  }

  predicate Runs(s: State, steps: seq<Step>)
    decreases |steps|
  {
    steps == [] || (Enabled(s, steps[0]) && Runs(Apply(s, steps[0]), steps[1..]))
  }

  function After(s: State, steps: seq<Step>): State
    requires Runs(s, steps)
    decreases |steps|
  {
    if steps == [] then s else After(Apply(s, steps[0]), steps[1..])
  }

  // ------------------------------------------------------------- no missed pair

  /** An Engage call that recorded `inst` under `name` is still going to ask the
      controller registered for `key`. */
  predicate WillAsk(s: State, name: ClusterName, inst: Instance, key: CrdName) {
    inst in s.engages && s.engages[inst].name == name &&
    match s.engages[inst].phase
    case Recorded => true
    case Asking(todo) => key in todo
    case Finished => false
  }

  ghost predicate NoMissedPair(s: State) {
    forall key, name :: key in s.m.syncEntries && name in s.m.clusters ==>
      var inst := s.m.clusters[name];
      Ask(s.m.syncEntries[key], name, inst) in s.m.asked || WillAsk(s, name, inst, key)
  }

  /** Readers and a writer of the sync entries exclude each other, and a reader's
      keys stay registered. */
  ghost predicate LockHeld(s: State) {
    && (s.writer.Some? ==> NoReaders(s))
    && (forall inst :: IsAsking(s, inst) ==> s.engages[inst].phase.todo <= s.m.syncEntries.Keys)
  }

  /** A known cluster that the seeded controller was not asked about was recorded
      after the seeding, by a call that cannot have started asking. */
  ghost predicate SeedComplete(s: State) {
    s.writer.Some? && s.writer.value.seeded ==>
      forall name :: name in s.m.clusters ==>
        var inst := s.m.clusters[name];
        || Ask(s.writer.value.controller, name, inst) in s.m.asked
        || (inst in s.engages && s.engages[inst] == EngageCall(name, Recorded))
  }

  ghost predicate PairInv(s: State) {
    NoMissedPair(s) && LockHeld(s) && SeedComplete(s)
  }

  lemma StepLock(s: State, step: Step)
    requires LockHeld(s) && Enabled(s, step)
    ensures LockHeld(Apply(s, step))
  {
  }

  lemma StepSeed(s: State, step: Step)
    requires LockHeld(s) && SeedComplete(s) && Enabled(s, step)
    ensures SeedComplete(Apply(s, step))
  {
  }

  lemma StepPair(s: State, step: Step)
    requires PairInv(s) && Enabled(s, step)
    ensures NoMissedPair(Apply(s, step))
  {
  }

  lemma {:induction false} RunPair(s: State, steps: seq<Step>)
    requires PairInv(s) && Runs(s, steps)
    ensures PairInv(After(s, steps))
    decreases |steps|
  {
    if steps != [] {
      StepLock(s, steps[0]);
      StepSeed(s, steps[0]);
      StepPair(s, steps[0]);
      RunPair(Apply(s, steps[0]), steps[1..]);
    }
  }

  /** In every run, each registered controller has been asked to engage each known
      cluster, or the Engage call for that cluster is under way and will do it. */
  lemma EveryRunNoMissedPair(s: State, steps: seq<Step>)
    requires Init(s) && Runs(s, steps)
    ensures NoMissedPair(After(s, steps))
  {
    RunPair(s, steps);
  }

  // --------------------------------------------------- one controller per CRD

  predicate Registered(s: State, c: Controller) {
    c in s.controllers && s.controllers[c].key in s.m.syncEntries && s.m.syncEntries[s.controllers[c].key] == c
  }

  /** A controller may still act: it is in Start and nobody cancelled it. */
  predicate IsLive(s: State, c: Controller) {
    c in s.controllers && s.controllers[c].phase.Running? && c !in s.m.cancelled
  }

  ghost predicate EntriesKnown(s: State) {
    forall key :: key in s.m.syncEntries ==>
      var c := s.m.syncEntries[key];
      && c in s.controllers && s.controllers[c].key == key && c !in s.m.cancelled
      && (s.controllers[c].phase.Running? || s.controllers[c].phase.Returned?)
  }

  ghost predicate LiveIsRegistered(s: State) {
    forall c :: IsLive(s, c) ==> Registered(s, c)
  }

  ghost predicate WriterFresh(s: State) {
    s.writer.Some? ==>
      var w := s.writer.value;
      && w.key !in s.m.syncEntries && w.controller !in s.m.cancelled
      && w.controller in s.controllers && s.controllers[w.controller] == ControllerInfo(w.key, Created)
  }

  /** A controller whose creation failed was cancelled. */
  ghost predicate LeftoversCancelled(s: State) {
    forall c :: c in s.controllers && s.controllers[c].phase.Created? && c !in s.m.cancelled ==>
      s.writer.Some? && s.writer.value.controller == c
  }

  ghost predicate ControllerInv(s: State) {
    && EntriesKnown(s) && LiveIsRegistered(s) && WriterFresh(s) && LeftoversCancelled(s)
    && forall c :: c in s.m.cancelled ==> c in s.controllers
  }

  lemma StepController(s: State, step: Step)
    requires ControllerInv(s) && Enabled(s, step)
    ensures ControllerInv(Apply(s, step))
  {
    var s' := Apply(s, step);
    forall c | IsLive(s', c) ensures Registered(s', c) {
      assert IsLive(s, c) || step.FinishEnsure?;
    }
  }

  lemma {:induction false} RunController(s: State, steps: seq<Step>)
    requires ControllerInv(s) && Runs(s, steps)
    ensures ControllerInv(After(s, steps))
    decreases |steps|
  {
    if steps != [] {
      StepController(s, steps[0]);
      RunController(Apply(s, steps[0]), steps[1..]);
    }
  }

  /** In every run: a registered controller has not been cancelled and has not left; a
      controller that runs uncancelled is the registered one of its CRD, so there are
      never two of them for one CRD; and one that was created but is not being
      registered, because its creation failed, is cancelled. */
  lemma EveryRunOneController(s: State, steps: seq<Step>)
    requires Init(s) && Runs(s, steps)
    ensures var end := After(s, steps);
      && (forall key :: key in end.m.syncEntries ==>
            var c := end.m.syncEntries[key];
            && c !in end.m.cancelled && Registered(end, c)
            && (end.controllers[c].phase.Running? || end.controllers[c].phase.Returned?))
      && (forall c :: c in end.controllers && end.controllers[c].phase.Created? ==>
            c in end.m.cancelled || (end.writer.Some? && end.writer.value.controller == c))
      && (forall c :: c in end.controllers && end.controllers[c].phase.Running? && !Registered(end, c) ==>
            c in end.m.cancelled)
      && (forall c, d :: IsLive(end, c) && IsLive(end, d) ==>
            (end.controllers[c].key == end.controllers[d].key ==> c == d))
  {
    RunController(s, steps);
  }

  /** A controller that leaves late takes no other controller's entry with it. */
  lemma LateLeaverSparesSuccessor(s: State, steps: seq<Step>, c: Controller)
    requires Init(s) && Runs(s, steps) && Enabled(After(s, steps), ControllerLeaves(c))
    ensures var end := After(s, steps);
      var left := Apply(end, ControllerLeaves(c));
      && (forall key :: key in end.m.syncEntries && end.m.syncEntries[key] != c ==>
            key in left.m.syncEntries && left.m.syncEntries[key] == end.m.syncEntries[key])
      && (forall key :: key in left.m.syncEntries ==>
            key in end.m.syncEntries && left.m.syncEntries[key] == end.m.syncEntries[key] != c)
  {
    RunController(s, steps);
  }

  // ------------------------------------------------- what is known and what was asked

  /** The step engages a cluster of this name, or the goroutine of one runs. */
  predicate Touches(s: State, step: Step, name: ClusterName) {
    || (step.Record? && step.name == name)
    || (step.CleanPeer? && step.inst in s.engages && s.engages[step.inst].name == name)
  }

  predicate StaysUntouched(s: State, steps: seq<Step>, name: ClusterName)
    requires Runs(s, steps)
    decreases |steps|
  {
    steps == [] || (!Touches(s, steps[0], name) && StaysUntouched(Apply(s, steps[0]), steps[1..], name))
  }

  /** The i-th step records `inst` under the name, and nothing after it touches that. */
  predicate RecordedSince(s: State, steps: seq<Step>, name: ClusterName, inst: Instance, i: nat)
    requires Runs(s, steps) && i < |steps|
    decreases i
  {
    var s1 := Apply(s, steps[0]);
    if i == 0 then steps[0] == Record(name, inst) && StaysUntouched(s1, steps[1..], name)
    else RecordedSince(s1, steps[1..], name, inst, i - 1)
  }

  lemma StepClusters(s: State, step: Step, name: ClusterName)
    requires Enabled(s, step)
    ensures Lookup(Apply(s, step).m.clusters, name) ==
      if !Touches(s, step, name) then Lookup(s.m.clusters, name)
      else if step.Record? then Some(step.inst) else None
  {
  }

  lemma {:induction false} UntouchedStays(s: State, steps: seq<Step>, name: ClusterName)
    requires Runs(s, steps) && StaysUntouched(s, steps, name)
    ensures Lookup(After(s, steps).m.clusters, name) == Lookup(s.m.clusters, name)
    decreases |steps|
  {
    if steps != [] {
      StepClusters(s, steps[0], name);
      UntouchedStays(Apply(s, steps[0]), steps[1..], name);
    }
  }

  lemma {:induction false} RecordedIsKnown(s: State, steps: seq<Step>, name: ClusterName, inst: Instance, i: nat)
    requires Runs(s, steps) && i < |steps| && RecordedSince(s, steps, name, inst, i)
    ensures Lookup(After(s, steps).m.clusters, name) == Some(inst)
    decreases i
  {
    if i == 0 {
      StepClusters(s, steps[0], name);
      UntouchedStays(Apply(s, steps[0]), steps[1..], name);
    } else {
      RecordedIsKnown(Apply(s, steps[0]), steps[1..], name, inst, i - 1);
    }
  }

  /** The step that recorded a known cluster; -1 if it was known from the start. */
  lemma {:induction false} KnownWasRecorded(s: State, steps: seq<Step>, name: ClusterName, inst: Instance)
    returns (i: int)
    requires Runs(s, steps) && Lookup(After(s, steps).m.clusters, name) == Some(inst)
    ensures -1 <= i < |steps|
    ensures if i < 0 then Lookup(s.m.clusters, name) == Some(inst) && StaysUntouched(s, steps, name)
            else RecordedSince(s, steps, name, inst, i)
    decreases |steps|
  {
    i := -1;
    if steps != [] {
      StepClusters(s, steps[0], name);
      var later := KnownWasRecorded(Apply(s, steps[0]), steps[1..], name, inst);
      i := if later >= 0 then later + 1 else if Touches(s, steps[0], name) then 0 else -1;
    }
  }

  predicate RecordedByStep(s: State, steps: seq<Step>, name: ClusterName, inst: Instance, i: int)
    requires Runs(s, steps)
  {
    0 <= i < |steps| && RecordedSince(s, steps, name, inst, i)
  }

  /** In every run, the cluster known under a name is the one recorded last, unless the
      goroutine of some cluster of that name ran since. */
  lemma KnownIsLastRecorded(s: State, steps: seq<Step>, name: ClusterName, inst: Instance)
    requires Init(s) && Runs(s, steps)
    ensures Lookup(After(s, steps).m.clusters, name) == Some(inst) <==>
      exists i :: RecordedByStep(s, steps, name, inst, i)
  {
    if i :| RecordedByStep(s, steps, name, inst, i) {
      RecordedIsKnown(s, steps, name, inst, i);
    }
    if Lookup(After(s, steps).m.clusters, name) == Some(inst) {
      var i := KnownWasRecorded(s, steps, name, inst);
      assert RecordedByStep(s, steps, name, inst, i);
    }
  }

  /** Known clusters were recorded under their name, and controllers were only ever
      asked to engage clusters under the name those were recorded with. */
  ghost predicate AskedIsRecorded(s: State) {
    && (forall name :: name in s.m.clusters ==>
          s.m.clusters[name] in s.engages && s.engages[s.m.clusters[name]].name == name)
    && (forall ask :: ask in s.m.asked ==>
          ask.inst in s.engages && s.engages[ask.inst].name == ask.name && ask.controller in s.controllers)
  }

  lemma StepAsked(s: State, step: Step)
    requires ControllerInv(s) && AskedIsRecorded(s) && Enabled(s, step)
    ensures AskedIsRecorded(Apply(s, step))
  {
  }

  lemma {:induction false} RunAsked(s: State, steps: seq<Step>)
    requires ControllerInv(s) && AskedIsRecorded(s) && Runs(s, steps)
    ensures AskedIsRecorded(After(s, steps))
    decreases |steps|
  {
    if steps != [] {
      StepController(s, steps[0]);
      StepAsked(s, steps[0]);
      RunAsked(Apply(s, steps[0]), steps[1..]);
    }
  }

  /** In every run nobody is asked to engage a cluster that was not engaged, or under
      another name. */
  lemma EveryRunAsksForRecorded(s: State, steps: seq<Step>)
    requires Init(s) && Runs(s, steps)
    ensures AskedIsRecorded(After(s, steps))
  {
    RunAsked(s, steps);
  }

  // ------------------------------------------------------------- live peers

  /** A cluster is known exactly as long as the goroutine of its instance has not run. */
  ghost predicate Tracked(s: State) {
    && (forall name :: name in s.m.clusters ==>
          var inst := s.m.clusters[name];
          inst in s.engages && s.engages[inst].name == name && inst !in s.cleaned)
    && (forall inst :: inst in s.engages && inst !in s.cleaned ==>
          s.engages[inst].name in s.m.clusters && s.m.clusters[s.engages[inst].name] == inst)
    && s.cleaned <= s.done <= s.engages.Keys
  }

  /** A name is engaged again only after the goroutines of its earlier instances ran. */
  predicate Orderly(s: State, step: Step) {
    step.Record? ==> forall inst :: inst in s.engages && s.engages[inst].name == step.name ==> inst in s.cleaned
  }

  predicate OrderlyRun(s: State, steps: seq<Step>)
    requires Runs(s, steps)
    decreases |steps|
  {
    steps == [] || (Orderly(s, steps[0]) && OrderlyRun(Apply(s, steps[0]), steps[1..]))
  }

  lemma StepTracked(s: State, step: Step)
    requires Tracked(s) && Enabled(s, step) && Orderly(s, step)
    ensures Tracked(Apply(s, step))
  {
  }

  lemma {:induction false} RunTracked(s: State, steps: seq<Step>)
    requires Tracked(s) && Runs(s, steps) && OrderlyRun(s, steps)
    ensures Tracked(After(s, steps))
    decreases |steps|
  {
    if steps != [] {
      StepTracked(s, steps[0]);
      RunTracked(Apply(s, steps[0]), steps[1..]);
    }
  }

  /** In orderly runs the known clusters are exactly the recorded peers whose
      context is live or whose goroutine has yet to run, and every live one has
      been announced to every registered controller or is about to be. */
  lemma OrderlyRunsTrackPeers(s: State, steps: seq<Step>, inst: Instance)
    requires Init(s) && Runs(s, steps) && OrderlyRun(s, steps)
    requires inst in After(s, steps).engages
    ensures var end := After(s, steps);
      var name := end.engages[inst].name;
      && ((name in end.m.clusters && end.m.clusters[name] == inst) <==> (inst !in end.done || inst !in end.cleaned))
      && (inst !in end.done ==> forall key :: key in end.m.syncEntries ==>
            Ask(end.m.syncEntries[key], name, inst) in end.m.asked || WillAsk(end, name, inst, key))
  {
    RunTracked(s, steps);
    EveryRunNoMissedPair(s, steps);
  }

  lemma UnfoldTwo(s: State, a: Step, b: Step)
    requires Enabled(s, a) && Enabled(Apply(s, a), b)
    ensures Runs(s, [a, b]) && After(s, [a, b]) == Apply(Apply(s, a), b)
  {
    assert [a, b][1..] == [b] && [b][1..] == [];
    var s1 := Apply(s, a);
    assert Runs(Apply(s1, b), []);
    assert Runs(s1, [b]);
    assert After(s1, [b]) == After(Apply(s1, b), []) == Apply(s1, b);
    assert [a, b][0] == a && Runs(s, [a, b]);
  }

  predicate LosesPeer(s: State, steps: seq<Step>, name: ClusterName, inst: Instance) {
    Runs(s, steps) &&
    var end := After(s, steps);
    inst in end.engages && inst !in end.done && name !in end.m.clusters
  }

  /** Order is needed: whenever a name is engaged again while the goroutine of an
      earlier instance is outstanding, the run can go on to lose the new, live
      peer from the known clusters. */
  lemma DisorderLosesLivePeer(s: State, name: ClusterName, inst: Instance, earlier: Instance)
    requires Enabled(s, Record(name, inst)) && inst !in s.done
    requires earlier in s.engages && s.engages[earlier].name == name && earlier !in s.cleaned
    ensures exists steps :: LosesPeer(s, [Record(name, inst)] + steps, name, inst)
  {
    var record := Record(name, inst);
    var s1 := Apply(s, record);
    if earlier in s.done {
      UnfoldTwo(s, record, CleanPeer(earlier));
      assert [record] + [CleanPeer(earlier)] == [record, CleanPeer(earlier)];
      assert LosesPeer(s, [record] + [CleanPeer(earlier)], name, inst);
    } else {
      UnfoldTwo(s1, CancelPeer(earlier), CleanPeer(earlier));
      var steps := [CancelPeer(earlier), CleanPeer(earlier)];
      assert ([record] + steps)[1..] == steps;
      assert LosesPeer(s, [record] + steps, name, inst);
    }
  }

  // ------------------------------------------ uninterrupted calls are the methods

  /** The asking phase of an Engage call, left alone, has the effect of the whole loop. */
  lemma {:induction false} UndisturbedAsking(s: State, inst: Instance) returns (steps: seq<Step>)
    requires IsAsking(s, inst) && s.engages[inst].phase.todo <= s.m.syncEntries.Keys
    requires forall key :: key in s.m.syncEntries && key !in s.engages[inst].phase.todo ==>
      Ask(s.m.syncEntries[key], s.engages[inst].name, inst) in s.m.asked
    ensures Runs(s, steps)
    ensures After(s, steps).m == AskAll(s.m, s.engages[inst].name, inst)
    decreases |s.engages[inst].phase.todo|
  {
    var todo := s.engages[inst].phase.todo;
    if todo == {} {
      steps := [];
      assert s.m.asked == AskAll(s.m, s.engages[inst].name, inst).asked;
    } else {
      var key :| key in todo;
      var s1 := Apply(s, AskNext(inst, key));
      var rest := UndisturbedAsking(s1, inst);
      steps := [AskNext(inst, key)] + rest;
      assert steps[1..] == rest;
      assert AskAll(s1.m, s.engages[inst].name, inst).asked == AskAll(s.m, s.engages[inst].name, inst).asked;
    }
  }

  /** The steps of a registration, left alone, have the effect of the whole method
      on a CRD that has a version and no controller yet, whether or not the
      controller can be created. */
  lemma UndisturbedEnsure(s: State, crd: Crd, c: Controller, created: bool)
    requires WriteLockFree(s) && crd.name !in s.m.syncEntries && c !in s.controllers
    requires VersionOf(crd.versions).Some?
    ensures var steps := [BeginEnsure(crd.name, c)] + if created then [SeedClusters, FinishEnsure] else [FailCreate];
      && Runs(s, steps) && After(s, steps).m == Ensure(s.m, crd, c, created)
      && After(s, steps).writer == None
      && c in After(s, steps).controllers && (After(s, steps).controllers[c].phase.Running? <==> created)
  {
    var s1 := Apply(s, BeginEnsure(crd.name, c));
    UnfoldTwo(s1, SeedClusters, FinishEnsure);
    UnfoldTwo(s, BeginEnsure(crd.name, c), FailCreate);
    assert [BeginEnsure(crd.name, c)] + [FailCreate] == [BeginEnsure(crd.name, c), FailCreate];
    assert [BeginEnsure(crd.name, c)] + [SeedClusters, FinishEnsure] ==
      [BeginEnsure(crd.name, c), SeedClusters, FinishEnsure];
    assert [BeginEnsure(crd.name, c), SeedClusters, FinishEnsure][1..] == [SeedClusters, FinishEnsure];
  }
}
