/** Replicated objects and `objectsMatch`, the test that decides whether a peer
    copy has to be rewritten. */
module Objects {
  import opened Json
  import opened Printing

  type Shard = string

  const SHARD_ANNOTATION := "kcp.io/shard"

  /** The name that asks a cache-server for all shards at once. */
  const WILDCARD: Shard := "*"

  /** The names a Shard object can have: one URL path segment of its own. */
  predicate IsShardName(s: Shard) {
    s != "" && '/' !in s && s != "." && s != ".." && s != WILDCARD
  }

  /** A NamespacedName. */
  datatype Key = Key(namespace: string, name: string)

  /** The parts of an unstructured object that the agent looks at. `version` is
      the resource version, with 0 for the empty one. `content` is the object's
      top-level JSON map without its metadata. */
  datatype Object = Object(
    generation: int,
    labels: map<string, string>,
    annotations: map<string, string>,
    content: map<string, Value>,
    version: nat)

  /** Reading a Go map: a missing key yields the empty string. */
  function Get(m: map<string, string>, k: string): string {
    if k in m then m[k] else ""
  }

  function ShardOf(o: Object): Shard {
    Get(o.annotations, SHARD_ANNOTATION)
  }

  /** `NestedMap(obj, "spec")` with its error ignored: a missing or non-map spec
      reads as the empty map. */
  function Spec(o: Object): map<string, Value> {
    if "spec" in o.content && o.content["spec"].Map? then o.content["spec"].m else map[]
  }

  predicate LabelsMatch(source: map<string, string>, peer: map<string, string>) {
    |source| == |peer| && forall k :: k in source ==> Get(peer, k) == source[k]
  }

  predicate ObjectsMatch(source: Object, peer: Object) {
    source.generation == peer.generation &&
    LabelsMatch(source.labels, peer.labels) &&
    MapsEqual(Spec(source), Spec(peer))
  }

  /** Nothing but generation, labels and spec is compared. */
  lemma EqualPartsMatch(source: Object, peer: Object)
    requires source.generation == peer.generation && source.labels == peer.labels
    requires Spec(source) == Spec(peer)
    ensures ObjectsMatch(source, peer)
  {
    MapsEqualReflexive(Spec(source));
  }

  /** The label loop reads a missing peer key as "", so matching label maps are
      equal exactly when the peer has every key whose source value is empty. */
  lemma LabelsMatchExact(source: map<string, string>, peer: map<string, string>)
    requires LabelsMatch(source, peer)
    ensures source == peer <==> (forall k :: k in source && source[k] == "" ==> k in peer)
  {
    if forall k :: k in source && source[k] == "" ==> k in peer {
      assert source.Keys <= peer.Keys && |source.Keys| == |peer.Keys|;
      SubsetOfEqualSize(source.Keys, peer.Keys);
    }
  }

  lemma NoEmptyLabelsExact(source: map<string, string>, peer: map<string, string>)
    requires forall k :: k in source ==> source[k] != ""
    ensures LabelsMatch(source, peer) <==> source == peer
  {
    if LabelsMatch(source, peer) {
      LabelsMatchExact(source, peer);
    }
  }

  lemma EmptyLabelHidesDifference()
    ensures exists s, p :: LabelsMatch(s, p) && s != p
  {
    var s: map<string, string> := map["a" := ""];
    var p: map<string, string> := map["b" := "x"];
    assert "a" in s && "a" !in p;
    assert LabelsMatch(s, p) && s != p;
  }

  /** With no empty source label and specs whose leaves are told apart by their
      text, a match is equality of the three compared parts. */
  lemma ObjectsMatchExact(source: Object, peer: Object)
    requires forall k :: k in source.labels ==> source.labels[k] != ""
    requires LeavesTellApart(Map(Spec(source)), Map(Spec(peer)))
    ensures ObjectsMatch(source, peer) <==>
      source.generation == peer.generation && source.labels == peer.labels && Spec(source) == Spec(peer)
  {
    NoEmptyLabelsExact(source.labels, peer.labels);
    MapsEqualIsEquality(Spec(source), Spec(peer));
  }

  /** The object has a spec that is a map. */
  predicate HasSpec(o: Object) { "spec" in o.content && o.content["spec"].Map? }

  /** Where both objects have a spec, of one schema, and no source label is empty, a
      match is equality of generation, labels and spec as they stand in the objects. */
  lemma ObjectsOfOneSchema(source: Object, peer: Object)
    requires forall k :: k in source.labels ==> source.labels[k] != ""
    requires HasSpec(source) && HasSpec(peer) && SameSchema(source.content["spec"], peer.content["spec"])
    ensures ObjectsMatch(source, peer) <==>
      && source.generation == peer.generation && source.labels == peer.labels
      && source.content["spec"] == peer.content["spec"]
  {
    NoEmptyLabelsExact(source.labels, peer.labels);
    SpecsOfOneSchema(source.content["spec"].m, peer.content["spec"].m);
  }

  /** A missing spec, or one that is no map, matches exactly one that is missing, no
      map, or empty. */
  lemma MissingSpecMatches(source: Object, peer: Object)
    requires source.generation == peer.generation && source.labels == peer.labels
    requires !HasSpec(source) || !HasSpec(peer)
    ensures ObjectsMatch(source, peer) <==>
      && (HasSpec(source) ==> source.content["spec"] == Map(map[]))
      && (HasSpec(peer) ==> peer.content["spec"] == Map(map[]))
  {
    if MapsEqual(Spec(source), Spec(peer)) {
      EqualKeys(Spec(source), Spec(peer));
    }
  }

  /** Matching carries over a middle object exactly if every label that is empty on
      the first and missing on the middle one is empty or missing on the last. */
  lemma ObjectsMatchTransitiveIff(a: Object, b: Object, c: Object)
    requires ObjectsMatch(a, b) && ObjectsMatch(b, c)
    ensures ObjectsMatch(a, c) <==>
      forall k :: k in a.labels && a.labels[k] == "" && k !in b.labels ==> Get(c.labels, k) == ""
  {
    MapsEqualTransitive(Spec(a), Spec(b), Spec(c));
    if forall k :: k in a.labels && a.labels[k] == "" && k !in b.labels ==> Get(c.labels, k) == "" {
      forall k | k in a.labels ensures Get(c.labels, k) == a.labels[k] {
        assert Get(b.labels, k) == a.labels[k];
      }
    }
  }

  /** So matching is not transitive. */
  lemma ObjectsMatchNotTransitive()
    ensures exists a, b, c :: ObjectsMatch(a, b) && ObjectsMatch(b, c) && !ObjectsMatch(a, c)
  {
    var a := Object(0, map["x" := ""], map[], map[], 0);
    var b := a.(labels := map["y" := ""]);
    var c := a.(labels := map["x" := "q"]);
    MapsEqualReflexive(Spec(a));
    assert ObjectsMatch(a, b) && ObjectsMatch(b, c);
    assert "x" in a.labels && "x" !in b.labels;
    ObjectsMatchTransitiveIff(a, b, c);
  }
}
