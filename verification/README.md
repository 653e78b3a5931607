# Verified model of the kcp cache-syncagent

The agent copies objects from its source cache-server to peer cache-servers. It
finds peers through Cache objects, starts one replication controller per CRD,
tracks which shards it is authoritative for, compares source and peer objects,
and routes its requests by putting a shard name into the URL path. This project
models that behaviour in Dafny and proves what it keeps, in every run and for
all inputs.

`dafny verify dfyconfig.toml` checks everything.

## Files

| file | what it holds |
|---|---|
| Json.dfy, Printing.dfy, Objects.dfy | JSON trees and their `%v` rendering, what it prints, `mapsEqual`, `objectsMatch` |
| Replication.dfy | one reconcile call against one peer: reads, decision, write; the controller as a class |
| Convergence.dfy | schedules of undisturbed calls over any peers and names: exact write bound |
| ReplicationRuns.dfy | the whole replication system as interleaved steps; pending-or-consistent |
| ReplicationSafety.dfy | no lost update, shard ownership, routing of stored objects, small steps against the whole call |
| QuietRuns.dfy | eventual consistency: the agent's useful steps run out, and then covered pairs agree |
| QuietEnds.dfy | which pairs end up in agreement, exactly; drift, late peers and late shards |
| Retries.dfy | requests for peers that have left: when the agent retries forever, exactly |
| CrdManager.dfy | the CRD watcher as a class, its critical sections, convergence of the controller set |
| CrdRuns.dfy | the CRD watcher interleaved at lock granularity |
| Provider.dfy, ProviderRuns.dfy | the peer provider as a class with its event history; interleaved at lock granularity |
| ShardRegistry.dfy | the authoritative shard set |
| ShardPath.dfy, Routing.dfy | `shardInPath`, the round-trippers, and the path from decision to wire |
| SetFlag.dfy, Strings.dfy | the set flag; split, join and trim |

## How it is modelled

- Classes stand for the source's mutable structs; each method's `ensures` ties the
  new state to a function of the old one, and the lemmas are about those functions.
- Concurrent code is a transition system: a `Step` datatype, a guard `Enabled`, an
  effect `Apply`, and lemmas over all `Runs`. The critical sections of the CRD
  watcher are the same functions in the class and in the step system. Contexts and
  controllers are numbered; `open`, `cancelled`, `done`, `asked` record what was
  done with them.
- `ever` and `covered` in `ReplicationRuns.State` are bookkeeping: no guard and no
  other field depends on them. `CoveredMeans` says what `covered` is in terms of
  the history alone. A pair of peer and name becomes covered when the source watch
  handles an event of the name under an authoritative shard while the peer is
  found, listed and watched, or when the peer's watch handles an event of it while the pair is the
  agent's; it stops being covered when the peer leaves, the object's shard leaves
  the set, or a later source event is handled that does not cover it.

## Environment assumptions

- An API server accepts an update only if the resource version is that of the
  stored object, and a create only if the slot is free; every write gets a fresh
  resource version; `metadata.generation` is stored as sent.
- The source view is a map by namespace and name.
- Shard object names are non-empty, contain no `/`, and are not `.`, `..` or `*`
  (`IsShardName`).
- Other writers on a peer file each object under the shard its annotation names.
- A GET without a shard returns any object of that name, whatever its shard.
- A peer is found, listed and watched independently of each other, and joins and
  leaves these three at any time; a client obtained before a peer was lost goes on
  working, or its requests fail. A running watch reports every change; the first
  listing of a watch reports what is there, and a stopped watch reports nothing more.
- Informers resync periodically; a source resync is a `PutSource` of the object as
  it is. Steps of quiet runs do not include it, so what is missed stays missed only
  until the next one (`ResyncServes`). Resyncs of peer watches are not modelled.
- The work queue is client-go's: an item is processed by one worker at a time, and
  an item added while it is processed is queued again afterwards.

## Where code and documents differ

The model follows the code.

- `plan-data-sync-mechanism.md` says peer events are filtered to authoritative
  shards. The peer watch has no filter (controller.go:106-110), and the delete
  branch has no authority check (controller.go:173-181): `OnlyDeletesIgnoreAuthority`.
- It also says that a new peer's initial LIST, and that of a newly authoritative
  shard, is the initial reconciliation. Objects the peer lacks are not in its LIST,
  and the shard registry triggers nothing: `LatePeerIsServedIff`, `LateShardIsServedIff`.
- `setFlag.String` converts to a sortable slice without sorting, so the order of
  its output is unspecified; `RoundTrip` holds for every order.

## Model

| member | source | states |
|---|---|---|
| Json.MapsEqualReflexive | internal/controller/resourcereplication/replication/controller.go:221-243 | Every finite JSON map equals itself under `mapsEqual`. |
| Json.MapsEqualTransitive | internal/controller/resourcereplication/replication/controller.go:221-243 | `mapsEqual` is transitive on all finite JSON trees, also through a leaf that meets a map. |
| Json.MapsEqualRender | internal/controller/resourcereplication/replication/controller.go:221-243 | Maps that compare equal print the same under `%v`. |
| Json.MapsEqualSymmetricIff | internal/controller/resourcereplication/replication/controller.go:231-239 | An equality can be turned around exactly when both trees have maps at the same positions. |
| Json.MapsEqualNotSymmetric | internal/controller/resourcereplication/replication/controller.go:236-239 | A string that prints like a map equals it in one direction only. |
| Json.MapsEqualIsEquality | internal/controller/resourcereplication/replication/controller.go:221-243 | Where leaves are told apart by their text and never print like maps, `mapsEqual` is equality of the trees. |
| Json.NumberEqualsItsText | internal/controller/resourcereplication/replication/controller.go:236-239 | Without that condition different trees compare equal. |
| Printing.DigitsAreDecimal | internal/controller/resourcereplication/replication/controller.go:236-239 | A natural number prints as its decimal text: digits that read back as the number, without leading zeros. |
| Printing.IntegersPrintAlikeIff | internal/controller/resourcereplication/replication/controller.go:236-239 | Two integers print alike exactly if they are equal. |
| Printing.BooleansPrintAlikeIff | internal/controller/resourcereplication/replication/controller.go:236-239 | Booleans print as `true` and `false`. |
| Printing.ListsPrintAlikeIff | internal/controller/resourcereplication/replication/controller.go:236-239 | A list prints its items' texts with blanks between them in brackets; two lists print alike exactly if these joined texts are the same. |
| Printing.SameItemsAlike | internal/controller/resourcereplication/replication/controller.go:236-239 | Lists of integers, booleans and nil, or of words, print alike exactly if they are equal. |
| Printing.ListsRunTogether | internal/controller/resourcereplication/replication/controller.go:236-239 | Other different lists can print alike. |
| Printing.MapsPrintInOrder | internal/controller/resourcereplication/replication/controller.go:236-239 | A map prints its entries as `key:value` in the order of the keys. |
| Printing.LexLeqIff | internal/controller/resourcereplication/replication/controller.go:236-239 | That order is by prefix, or by the first character in which the keys differ. |
| Printing.SpecsOfOneSchema | internal/controller/resourcereplication/replication/controller.go:221-243 | Specs of one schema (strings meet strings, and so on) compare equal exactly if they are equal. |
| Printing.PlainSpecs | internal/controller/resourcereplication/replication/controller.go:221-243 | So do specs whose leaves are integers, booleans and nil. |
| Objects.EqualPartsMatch | internal/controller/resourcereplication/replication/controller.go:202-219 | Equal generation, labels and spec imply a match, whatever else differs. |
| Objects.LabelsMatchExact | internal/controller/resourcereplication/replication/controller.go:207-215 | Label maps that pass the length test and the loop are equal exactly when the peer has every key whose source value is empty. |
| Objects.NoEmptyLabelsExact | internal/controller/resourcereplication/replication/controller.go:207-215 | With no empty source label the test is equality of the label maps. |
| Objects.EmptyLabelHidesDifference | internal/controller/resourcereplication/replication/controller.go:211-215 | Different label maps pass when a source label is empty. |
| Objects.ObjectsMatchExact | internal/controller/resourcereplication/replication/controller.go:203-219 | Under the two leaf and label conditions a match is exactly equality of generation, labels and spec. |
| Objects.ObjectsOfOneSchema | internal/controller/resourcereplication/replication/controller.go:203-219 | With specs of one schema and no empty source label a match is equality of generation, labels and the spec entry of the objects. |
| Objects.MissingSpecMatches | internal/controller/resourcereplication/replication/controller.go:216-218 | A missing spec, or one that is no map, matches exactly a missing, non-map or empty one. |
| Objects.ObjectsMatchTransitiveIff | internal/controller/resourcereplication/replication/controller.go:203-219 | Two matches in a row make a match exactly if every label that is empty on the first object and missing on the middle one is empty or missing on the last. |
| Objects.ObjectsMatchNotTransitive | internal/controller/resourcereplication/replication/controller.go:211-215 | Three objects with one label each for which that fails. |
| Replication.CacheServer.Get | internal/controller/resourcereplication/replication/controller.go:164-171 | A GET answers exactly for a named shard, and with any object of the name or none at all for the wildcard. |
| Replication.CacheServer.Submit | internal/controller/resourcereplication/replication/controller.go:178-192 | Create needs a free slot and no resource version, update the stored resource version, delete nothing; what each leaves on the server. |
| Replication.Reconciler.Reconcile | internal/controller/resourcereplication/replication/controller.go:134-196 | Without faults the peer ends up as the whole-call function says and the call fails only on a refused write; with faults the peer is as before or as that function says, and the fault is reported. |
| Replication.ReconciledAgrees | internal/controller/resourcereplication/replication/controller.go:134-196 | An undisturbed call on an authoritative key is accepted and leaves the peer in agreement; a non-authoritative key is left alone; other names and shards are untouched. |
| Replication.CopyIsComplete | internal/controller/resourcereplication/replication/controller.go:183-193 | Unless the copy matches, an undisturbed call on an authoritative name leaves exactly the source object in full, with a fresh resource version, under the shard of its `kcp.io/shard` annotation, and nothing else changed. |
| Replication.OnlyDeletesIgnoreAuthority | internal/controller/resourcereplication/replication/controller.go:134-196 | A call changes only slots of the agent's shards exactly unless the name is gone from the source and the peer object it finds is of another shard. |
| Replication.DeleteIgnoresAuthority | internal/controller/resourcereplication/replication/controller.go:173-181 | So an agent that owns no shard deletes any peer object whose name its source lacks. |
| Convergence.CallTakesOneItem | internal/controller/resourcereplication/replication/controller.go:134-196 | A call with nothing due sends no write and changes nothing; a call with work due sends one write and does exactly one item of it. |
| Convergence.ElsewhereUnchanged | internal/controller/resourcereplication/replication/controller.go:134-196 | A call leaves what is due for every other peer and name as it was. |
| Convergence.WorkLeft | internal/controller/resourcereplication/replication/controller.go:134-196 | After any schedule, each pair has its initial work minus its number of calls left, down to zero. |
| Convergence.WritesPlusLeft | internal/controller/resourcereplication/replication/controller.go:134-196 | Write requests sent plus work left equal the authoritative mismatched pairs plus the orphaned peer objects at the start. |
| Convergence.NothingDue | internal/controller/resourcereplication/replication/controller.go:134-196 | No work is left exactly when every authoritative name agrees everywhere and no orphan exists; then every further call is a no-op. |
| Convergence.FairSchedulesConverge | internal/controller/resourcereplication/replication/controller.go:134-196 | A schedule that calls each pair as often as it has items finishes all work with exactly that many write requests. |
| ReplicationRuns.EveryRunPendingOrConsistent | internal/controller/resourcereplication/replication/controller.go:106-196 | In every interleaving with source changes, foreign writes and failures, each pair the agent has taken on has something waiting, or a call working on it with true reads, or agrees. |
| ReplicationRuns.CoveredMeans | internal/controller/resourcereplication/replication/controller.go:105-127 | The pairs taken on are told by the history: some handled source or peer event covered the pair and nothing since then ended that. |
| ReplicationRuns.QuiescentRunsAgree | internal/controller/resourcereplication/replication/controller.go:106-196 | Once nothing is pending, queued, delayed or in process, every covered pair agrees. |
| QuietRuns.StepBurns | internal/controller/resourcereplication/replication/controller.go:106-196 | Every step the agent takes by itself, with API requests answered, lowers a natural-number measure of the state, except that retrying a request for a peer that is not found only does not raise it. |
| QuietRuns.QuietRunsEnd | internal/controller/resourcereplication/replication/controller.go:106-196 | After any run, the number of useful steps the agent can still take by itself, in any order and with any futile retries between them, is bounded by that measure. |
| QuietRuns.EventuallyConsistent | internal/controller/resourcereplication/replication/controller.go:106-196 | When no useful step is left, nothing is pending for a peer that is found and every covered pair agrees with the source. |
| QuietRuns.AgentFinishes | internal/controller/resourcereplication/replication/controller.go:106-196 | From every reachable state the agent can get there by useful steps alone. |
| QuietEnds.StepForeseen | internal/controller/resourcereplication/replication/controller.go:106-196 | None of the agent's own steps makes or breaks the prospect of one of its pairs. |
| QuietEnds.QuietEndsAgreeIff | internal/controller/resourcereplication/replication/controller.go:106-196 | After any run, for any pair that is the agent's to replicate: when no useful step is left the peer agrees exactly if, at the start, it was listed and an event of the name was to pass the shard test, or the pair was noticed, queued, delayed or worked on with true reads or a write to come, or it agreed already. |
| QuietEnds.DriftIsCorrected | internal/controller/resourcereplication/replication/controller.go:105-110 | Whatever another writer does to a found and watched peer under one of the agent's names, in whatever state, the peer agrees with the source again when no useful step is left. |
| QuietEnds.LatePeerIsServedIff | internal/controller/resourcereplication/replication/controller.go:105-127 | A peer whose watch starts when nothing is in hand for a name of the agent's ends up in agreement exactly if it holds some object of that name then. |
| QuietEnds.LateShardIsServedIff | internal/controller/resourcereplication/replication/controller.go:112-127 | A shard that becomes authoritative when nothing is in hand for one of its names brings nothing about: the peer agrees in the end exactly if it did before. |
| QuietEnds.LateComersAreMissed | internal/controller/resourcereplication/replication/controller.go:112-127 | So an empty peer whose watch starts after the event, and a shard that becomes authoritative after it, are left without the object until another source event of the name. |
| QuietEnds.DriftBeforeWatchIsMissed | internal/controller/resourcereplication/crd_watching_controller.go:108-127 | A foreign delete on a peer that is found but not watched yet is not made good when the watch starts, if it took the only object of the name. |
| QuietEnds.ResyncServes | internal/controller/resourcereplication/replication/controller.go:112-127 | Another source event of the name, such as a resync of the unchanged object, brings every listed peer of the agent's own pairs into agreement. |
| Retries.RetryLoops | internal/controller/resourcereplication/replication/controller.go:135-138 | The retry of a request for a peer that is not found leads back to the very state it started from. |
| Retries.DepartureSpins | internal/controller/resourcereplication/crd_watching_controller.go:112-117 | If a peer leaves while an event that passes the shard test is outstanding and it is still listed, the request is retried forever, whether the event is handled before or after. |
| Retries.SpinIsReachable | internal/controller/resourcereplication/crd_watching_controller.go:112-117 | Such a state is reached from the start in five steps. |
| Retries.AgentStopsIff | internal/controller/resourcereplication/replication/controller.go:106-196 | After any run, the agent's own steps, retries and clean-up included, are bounded in number exactly if there is no peer that is not found for which a request is reported, queued or delayed, or a call will bring its request back, or, while it is listed, a source event is going to fan out to it. |
| Retries.IdleWithoutSpins | internal/controller/resourcereplication/replication/controller.go:106-196 | With no useful step left, nothing at all is left to do exactly if there are no such requests. |
| ReplicationSafety.NoLostUpdate | internal/controller/resourcereplication/replication/controller.go:155-192 | In every run, a create or update carries its object to that object's shard, one that was authoritative, and is accepted exactly when the slot still holds the very version, or absence, that was read. |
| ReplicationSafety.WriteCopiesSource | internal/controller/resourcereplication/replication/controller.go:144-192 | In every run, an accepted create or update leaves exactly the source object its own call read, in full, with a fresh resource version; a refused one changes nothing. |
| ReplicationSafety.LostReplyIsRetried | internal/controller/resourcereplication/replication/controller.go:178-192 | A write whose reply is lost is retried, served or not; so is a refused one, and no other. |
| ReplicationSafety.FailedCallIsRetried | internal/controller/resourcereplication/replication/controller.go:134-171 | A call can fail at any point; then its request is retried and no peer has changed. |
| ReplicationSafety.DeleteRespectsReadIff | internal/controller/resourcereplication/replication/controller.go:173-179 | A delete is always accepted, and takes away nothing but the object the call read exactly if the slot is empty by then or still has the resource version that was read. |
| ReplicationSafety.DeleteDropsUnreadVersion | internal/controller/resourcereplication/replication/controller.go:173-179 | In every run that has a delete to send, an object another writer puts there first goes too. |
| ReplicationSafety.PeersStayRouted | internal/controller/resourcereplication/replication/controller.go:155-192 | In every run every peer object sits under the shard its own annotation names. |
| ReplicationSafety.WriteWasChecked | internal/controller/resourcereplication/replication/controller.go:150-153 | Every create or update goes to a shard that was in the set at the step where its own call checked. |
| ReplicationSafety.DisjointAgentsNeverCollide | internal/controller/resourcereplication/replication/controller.go:150-192 | Two agents that never own a common shard never create or update the same slot of a peer. |
| ReplicationSafety.UndisturbedCall | internal/controller/resourcereplication/replication/controller.go:134-196 | Uninterrupted, the separate steps of a call have the effect of the whole call, for a missing peer, a foreign shard or a replicated object; the request is retried exactly if the peer was missing or refused the write. |
| CrdManager.Reconciler.constructor | internal/controller/resourcereplication/crd_watching_controller.go:81-89 | A new watcher knows no cluster and runs no controller. |
| CrdManager.Reconciler.Engage | internal/controller/resourcereplication/crd_watching_controller.go:107-130 | The cluster is recorded under its name, in place of any earlier one, and every registered controller, and no other, is asked to engage it. |
| CrdManager.Reconciler.PeerContextDone | internal/controller/resourcereplication/crd_watching_controller.go:112-117 | The goroutine behind a done context deletes by name. |
| CrdManager.Reconciler.EngagedClusterNames | internal/controller/resourcereplication/crd_watching_controller.go:134-142 | The names listed are those of the known clusters, each once. |
| CrdManager.Reconciler.SelectVersion | internal/controller/resourcereplication/crd_watching_controller.go:238-251 | The chosen version is that of the first storage version, else of the first version; none exactly if that is empty. |
| CrdManager.VersionOfChooses | internal/controller/resourcereplication/crd_watching_controller.go:238-251 | The version function meets that declarative description for every list of versions. |
| CrdManager.Reconciler.EnsureReplicationController | internal/controller/resourcereplication/crd_watching_controller.go:160-218 | An existing controller is kept; without a version nothing happens; a failed creation cancels; otherwise a new controller is asked about every known cluster and registered. |
| CrdManager.Reconciler.ControllerReturned | internal/controller/resourcereplication/crd_watching_controller.go:206-215 | A controller that returns removes its entry only if it is still its own. |
| CrdManager.Reconciler.CleanupController | internal/controller/resourcereplication/crd_watching_controller.go:220-231 | The registered controller is cancelled and removed, others stay. |
| CrdManager.Reconciler.Reconcile | internal/controller/resourcereplication/crd_watching_controller.go:144-158 | Missing or deleting CRDs are cleaned up, read errors change nothing, others are ensured; when an error is returned. |
| CrdManager.CrdSetConverges | internal/controller/resourcereplication/crd_watching_controller.go:144-255 | Any schedule that names every stored and registered CRD ends with controllers for exactly the wanted ones, keeps running ones, and leaves further reconciles nothing to do. |
| CrdRuns.KnownIsLastRecorded | internal/controller/resourcereplication/crd_watching_controller.go:107-117 | In every run the cluster known under a name is the one recorded last, unless the goroutine of some cluster of that name ran since. |
| CrdRuns.EveryRunAsksForRecorded | internal/controller/resourcereplication/crd_watching_controller.go:119-127 | In every run, controllers are asked only for clusters that were engaged, under the name they were engaged with. |
| CrdRuns.EveryRunNoMissedPair | internal/controller/resourcereplication/crd_watching_controller.go:107-217 | In every interleaving each registered controller was asked to engage each known cluster, or that cluster's Engage call is still going to ask it. |
| CrdRuns.EveryRunOneController | internal/controller/resourcereplication/crd_watching_controller.go:160-231 | Registered controllers are never cancelled and have not left, running unregistered ones and those whose creation failed always are cancelled, and no CRD has two running uncancelled controllers. |
| CrdRuns.LateLeaverSparesSuccessor | internal/controller/resourcereplication/crd_watching_controller.go:206-215 | A controller that leaves late removes at most its own entry. |
| CrdRuns.OrderlyRunsTrackPeers | internal/controller/resourcereplication/crd_watching_controller.go:107-142 | If a name's goroutine runs before the name is engaged again, the known clusters are exactly the recorded ones that are live or not yet cleaned up, and each live one is or will be announced to every registered controller. |
| CrdRuns.DisorderLosesLivePeer | internal/controller/resourcereplication/crd_watching_controller.go:112-117 | Whenever that order is broken, the run can continue to a state where a live peer is not known. |
| CrdRuns.UndisturbedAsking | internal/controller/resourcereplication/crd_watching_controller.go:119-127 | The asking steps of an Engage call, uninterrupted, have the effect of its loop. |
| CrdRuns.UndisturbedEnsure | internal/controller/resourcereplication/crd_watching_controller.go:160-218 | The steps of a registration, uninterrupted, have the effect of the whole method, whether or not the controller can be created. |
| Provider.Provider.constructor | internal/peerprovider/provider.go:70-91 | A new provider has no peers and no open contexts. |
| Provider.Provider.EngageCacheObject | internal/peerprovider/provider.go:192-252 | An eligible new name is entered with its URL and a fresh open context unless building or engaging fails; a failure leaves peers and contexts as they were. |
| Provider.Provider.DisengageCacheObject | internal/peerprovider/provider.go:255-269 | The entry goes and exactly its context is cancelled. |
| Provider.Provider.Get | internal/peerprovider/provider.go:272-279 | The entry of a name, if it has one. |
| Provider.HistoryDecides | internal/peerprovider/provider.go:102-269 | After any events a name is a peer exactly when an event entered it since its last delete, with the URL and context of the first such event. |
| Provider.PeersAreEligible | internal/peerprovider/provider.go:193-201 | No peer has the source's URL, an empty URL or an empty name. |
| Provider.EligibleGetsIn | internal/peerprovider/provider.go:192-252 | After any events, another upsert with none of these, of a name that is absent, and that succeeds, puts the name in with a fresh open context; any other leaves the state alone. |
| Provider.OpenAreThePeers | internal/peerprovider/provider.go:203-269 | After any events the open contexts are exactly those of the current peers, one each. |
| ProviderRuns.ContextsConserved | internal/peerprovider/provider.go:203-269 | With any number of concurrent calls, failing ones included, and no disengagement of a peer whose engagement is in flight: no name has two contexts in flight or live, undecided calls aside every open context is an entry, and when all calls have ended the open contexts are exactly the entries. |
| ProviderRuns.EngagesAloneAreOrderly | internal/peerprovider/provider.go:192-252 | Interleavings of engage calls alone meet that condition. |
| ProviderRuns.NewPeer | internal/peerprovider/provider.go:203-251 | An uninterrupted successful call adds one entry and one open context. |
| ProviderRuns.KnownPeer | internal/peerprovider/provider.go:203-209 | An uninterrupted call for a name that has an entry changes nothing and makes no context. |
| ProviderRuns.LostRace | internal/peerprovider/provider.go:223-229 | A call that finds an entry only under the write lock cancels its own context and changes nothing else. |
| ProviderRuns.FailAndRollBack | internal/peerprovider/provider.go:243-249 | A failing call cancels its own context and deletes whatever entry its name has. |
| ProviderRuns.DisorderLeaksContext | internal/peerprovider/provider.go:243-249 | If a peer is disengaged while its engagement is in flight, the run can continue to a state where a later peer of that name has an open context and no entry. |
| ShardRegistry.Registry.constructor | internal/controller/authoritativeshardregistry/controller.go:65-71 | The set starts empty. |
| ShardRegistry.Registry.Reconcile | internal/controller/authoritativeshardregistry/controller.go:101-118 | A failed read changes nothing and is reported; a missing object or a foreign annotation removes the shard, the agent's own name adds it. |
| ShardRegistry.Registry.Add | internal/controller/authoritativeshardregistry/controller.go:120-127 | The name is in the set afterwards, nothing else changes. |
| ShardRegistry.Registry.Remove | internal/controller/authoritativeshardregistry/controller.go:129-136 | The name is not in the set afterwards, nothing else changes. |
| ShardRegistry.Registry.IsAuthoritative | internal/controller/authoritativeshardregistry/controller.go:139-144 | Membership in the set. |
| ShardRegistry.LatestDecides | internal/controller/authoritativeshardregistry/controller.go:101-136 | After any reconciles a shard is in the set exactly when its last successful observation found the agent's own name. |
| ShardRegistry.SettledDecides | internal/controller/authoritativeshardregistry/controller.go:101-136 | Once a name was read from a store at rest, its membership is what the store says. |
| ShardRegistry.SettledSet | internal/controller/authoritativeshardregistry/controller.go:50-60 | Against a store at rest the set becomes the shards annotated with the agent's name, and agents with different names hold disjoint sets. |
| ShardRegistry.AgentsOverlapIff | internal/controller/authoritativeshardregistry/controller.go:101-118 | Two agents that follow one changing store can hold a shard at the same time exactly if each was named in some state of the store. |
| ShardPath.PathOfSegment | internal/client/shard/shard.go:36 | For a proper segment, the cleaned join is `/shards/` followed by the name. |
| ShardPath.RewriteNamedIff | internal/client/round_tripper.go:57-70 | Behind any shard segment and with any resource path, the rewriting puts the new name there and keeps the resource path exactly if it is the name already, or is no prefix of it and the regular expression finds it. |
| ShardPath.RewriteExact | internal/client/round_tripper.go:57-76 | Where that holds the result is the new name in front of the kept resource path; if the new name is a proper prefix of the one there, the path stays as it was. |
| ShardPath.RewriteRoutesIff | internal/client/round_tripper.go:57-76 | On every well-formed path the result names the new shard and keeps the resource path exactly if there was no shard or that condition holds. |
| ShardPath.RewriteWithoutNewline | internal/client/round_tripper.go:57-76 | If the resource path does not start with a newline the condition is that the new name is no proper prefix of the old one, and the resource path is kept in any case. |
| ShardPath.RewriteWithOwn | internal/client/round_tripper.go:58-60 | Rewriting with the shard already there changes nothing. |
| ShardPath.RewriteTwice | internal/client/round_tripper.go:57-76 | Rewriting twice with a name is rewriting once, if the first rewriting reached, stopped short or found no match. |
| ShardPath.RewriteTwiceFails | internal/client/round_tripper.go:61-64 | Otherwise it need not be: the replaced text can come before the match. |
| ShardPath.RewriteThenRewrite | internal/client/round_tripper.go:57-76 | The later of two effective rewritings wins exactly if it also has that condition on top of the earlier one; without a leading newline, exactly if its name is no proper prefix of the earlier one. |
| ShardPath.LongerFirstSegment | internal/client/round_tripper.go:57-76 | On a path that starts with `/shards` but not `/shards/`, the rewriting reaches the shard exactly if the regular expression finds nothing, and then the resource path is lost; otherwise it rewrites the match and the request names no shard, or a wrong one if the match is a dot segment. |
| ShardPath.OtherMatchStays | internal/client/round_tripper.go:61-64 | A match of another name that is not the start of the shard segment leaves the request on its old shard. |
| ShardPath.NewlineIsLost | internal/client/round_tripper.go:32 | A one-segment resource path behind a shard that starts with a newline is dropped, because the dot does not match it. |
| ShardPath.ShardRoundTrip | internal/client/round_tripper.go:44-54 | A request with a shard is cloned and its path rewritten, one without is passed on itself; the caller's request is unchanged. |
| ShardPath.DefaultShardRoundTrip | internal/client/round_tripper.go:91-96 | Both layers together send the path rewritten for the context's shard, else for the default; the caller's request is unchanged. |
| ShardPath.SentToContextShard | internal/client/builder.go:55-58 | Every request reaches the shard of its context, or the wildcard without one, with its resource path kept, exactly if the rewriting of its path has that condition. |
| Routing.WritesReachTheirShard | internal/controller/resourcereplication/replication/controller.go:150-192 | In every run, creates and updates carry their object's shard, never the wildcard, and reach it on the wire exactly if the rewriting of the path has that condition, always for a path without a shard. |
| Routing.OrphanReadsGoToWildcard | internal/controller/resourcereplication/replication/controller.go:158-167 | A call whose source object is gone reads the peer at `/shards/*` plus its resource path. |
| SetFlag.Flag.Set | internal/options/set_flag.go:41-55 | The old content goes; the set holds the trimmed non-empty parts of the value. |
| SetFlag.Flag.String | internal/options/set_flag.go:37-39 | The members, each once, in some order, joined by commas. |
| SetFlag.ParseConcatenates | internal/options/set_flag.go:46-53 | Two values with a comma between them give the members of both. |
| SetFlag.PartIsTrimmed | internal/options/set_flag.go:47-50 | A comma-free part gives the text between the white space around it, white space alone nothing. |
| Strings.SpacesAre | internal/options/set_flag.go:47-50 | Which characters are white space. |
| SetFlag.ParseYieldsElements | internal/options/set_flag.go:41-55 | Every member read is trimmed, non-empty and comma-free, for every input. |
| SetFlag.RoundTrip | internal/options/set_flag.go:37-55 | A set survives printing and reading, in any order, exactly when all its members are of that kind. |
| SetFlag.SetAfterString | internal/options/set_flag.go:37-55 | Reading what was printed for any value read gives the same set. |

## Left out

- ApplyEvent: the source watch handler's registry lookup, peer listing and queue additions are one step.
- Reconciler.Reconcile (both): controllers, clusters and clients are numbered records, so aliasing between Go pointers is not modelled; API errors are inputs.
- NoLostUpdate: says nothing about deletes, which carry no resource version; `DeleteDropsUnreadVersion` shows what they can do.
- DisjointAgentsNeverCollide: covers creates and updates only, because the delete branch has no authority check.
- EventuallyConsistent: speaks of covered pairs; `QuietEndsAgreeIff` says what becomes of the others.
- RewriteTwice: gives no exact condition for resource paths in which the regular expression finds another name; `RewriteTwiceFails` is an input where it fails.
- IsShardName: object annotations that name no proper shard segment are outside the model's shard sets, though path rewriting is modelled for every name.
- Floating-point formatting: a float is identified with the text Go prints for it.
- Process start-up, flags, TLS files, leader election, logging and metrics: I/O and wiring.
- Internals of client-go, controller-runtime and multicluster-runtime beyond the assumptions above, including back-off times and cluster start.
- Cancellation of the root context: a controller may return at any time for any reason.
- `IndexField`, `kubeconfig.Validate`, version, log and option validation code: settled by reading a branch.
- Name collisions across shards or logical clusters in the source view, URL escaping and RawPath, UIDs and status.
- Following a changed peer URL or CRD version: the code does not.
