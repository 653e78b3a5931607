/** From the decision of a reconcile call to the path on the wire: which shard of
    the peer a write reaches. */
module Routing {
  import opened Wrappers
  import opened Objects
  import Replication
  import ReplicationRuns
  import ReplicationSafety
  import ShardPath

  /** The create or update a running call is about to send carries its object's
      shard in the request context, never the wildcard. Through both round-trippers
      it reaches that shard of the peer, with its resource path kept, exactly if the
      rewriting of the path reaches; on a path that names no shard it always does. */
  lemma WritesReachTheirShard(s: ReplicationRuns.State, steps: seq<ReplicationRuns.Step>,
                              r: Replication.Request, path: string)
    requires ReplicationRuns.Init(s) && ReplicationRuns.Runs(s, steps)
    requires ReplicationRuns.Enabled(ReplicationRuns.After(s, steps), ReplicationRuns.SubmitWrite(r, true))
    requires var w := ReplicationRuns.PlannedWrite(ReplicationRuns.After(s, steps), r);
      (w.Create? || w.Update?) && ShardPath.WellFormed(path)
    ensures var w := ReplicationRuns.PlannedWrite(ReplicationRuns.After(s, steps), r);
      && w.slot.shard == Replication.ReadShard(Some(w.obj)) != WILDCARD
      && w.slot.shard in ReplicationRuns.After(s, steps).ever
      && (ShardPath.ViewOf(ShardPath.SentPath(path, Replication.ReadShard(Some(w.obj)), WILDCARD))
            == ShardPath.View(Some(w.slot.shard), ShardPath.ViewOf(path).suffix) <==>
          ShardPath.Reaches(path, w.slot.shard))
      && (ShardPath.ViewOf(path).shard == None ==> ShardPath.Reaches(path, w.slot.shard))
  {
    var w := ReplicationRuns.PlannedWrite(ReplicationRuns.After(s, steps), r);
    ReplicationSafety.NoLostUpdate(s, steps, r);
    ShardPath.SentToContextShard(path, w.slot.shard);
  }

  /** A call whose source object is gone reads the peer without a shard, which the
      default layer turns into the wildcard. */
  lemma OrphanReadsGoToWildcard(path: string)
    requires ShardPath.WellFormed(path) && ShardPath.ViewOf(path).shard == None
    ensures ShardPath.SentPath(path, Replication.ReadShard(None), WILDCARD) ==
      "/shards/*" + ShardPath.ViewOf(path).suffix
  {
    ShardPath.RewriteExact(path, WILDCARD);
  }
}
