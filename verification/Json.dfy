/** JSON trees as the replication controller sees them, their textual rendering,
    and the structural comparison `mapsEqual` built on that rendering. */
module Json {

  /** The dynamic types that occur in an unstructured object. A floating-point
      number is identified with the text Go prints for it. */
  datatype Value =
    | Null
    | Bool(b: bool)
    | Int(i: int)
    | Float(text: string)
    | Str(s: string)
    | List(items: seq<Value>)
    | Map(m: map<string, Value>)

  // ---------------------------------------------------------------- key order

  predicate LexLeq(a: string, b: string) {
    a == "" || (b != "" && (a[0] < b[0] || (a[0] == b[0] && LexLeq(a[1..], b[1..]))))
  }

  lemma {:induction false} LexTotal(a: string, b: string)
    ensures LexLeq(a, b) || LexLeq(b, a)
  {
    if a != "" && b != "" {
      LexTotal(a[1..], b[1..]);
    }
  }

  lemma {:induction false} LexTransitive(a: string, b: string, c: string)
    requires LexLeq(a, b) && LexLeq(b, c)
    ensures LexLeq(a, c)
  {
    if a != "" && a[0] == b[0] && b[0] == c[0] {
      LexTransitive(a[1..], b[1..], c[1..]);
    }
  }

  lemma {:induction false} LexAntisymmetric(a: string, b: string)
    requires LexLeq(a, b) && LexLeq(b, a)
    ensures a == b
  {
    if a != "" && b != "" {
      LexAntisymmetric(a[1..], b[1..]);
      assert a == [a[0]] + a[1..] && b == [b[0]] + b[1..];
    }
  }

  predicate IsLeast(k: string, keys: set<string>) {
    k in keys && forall other :: other in keys ==> LexLeq(k, other)
  }

  lemma {:induction false} LeastExists(keys: set<string>)
    requires keys != {}
    ensures exists k :: IsLeast(k, keys)
    decreases |keys|
  {
    var x :| x in keys;
    var rest := keys - {x};
    LexTotal(x, x);
    if rest == {} {
      assert keys == {x};
      assert IsLeast(x, keys);
    } else {
      LeastExists(rest);
      var y :| IsLeast(y, rest);
      LexTotal(x, y);
      var k := if LexLeq(x, y) then x else y;
      forall other | other in keys ensures LexLeq(k, other) {
        if other != x && LexLeq(x, y) {
          LexTransitive(x, y, other);
        }
      }
      assert IsLeast(k, keys);
    }
  }

  function Least(keys: set<string>): (k: string)
    requires keys != {}
    ensures IsLeast(k, keys)
  {
    LeastExists(keys);
    assert forall k, k' :: IsLeast(k, keys) && IsLeast(k', keys) ==> k == k' by {
      forall k, k' | IsLeast(k, keys) && IsLeast(k', keys) ensures k == k' {
        LexAntisymmetric(k, k');
      }
    }
    var k :| k in keys && IsLeast(k, keys);
    k
  }

  // ---------------------------------------------------------------- rendering

  function Digits(n: nat): string {
    if n < 10 then [('0' as int + n) as char] else Digits(n / 10) + [('0' as int + n % 10) as char]
  }

  /** What `fmt.Sprintf("%v", v)` prints. Map keys come out in sorted order. */
  function Render(v: Value): string
    decreases v, 1
  {
    match v
    case Null => "<nil>"
    case Bool(b) => if b then "true" else "false"
    case Int(i) => if i < 0 then "-" + Digits(-i) else Digits(i)
    case Float(text) => text
    case Str(s) => s
    case List(items) => "[" + RenderItems(items) + "]"
    case Map(m) => "map[" + RenderEntries(v, m, m.Keys) + "]"
  }

  function RenderItems(items: seq<Value>): string
    decreases items, 0
  {
    if items == [] then ""
    else if |items| == 1 then Render(items[0])
    else Render(items[0]) + " " + RenderItems(items[1..])
  }

  function RenderEntries(whole: Value, m: map<string, Value>, keys: set<string>): string
    requires whole == Map(m) && keys <= m.Keys
    decreases whole, 0, |keys|
  {
    if keys == {} then ""
    else
      var k := Least(keys);
      var entry := k + ":" + Render(m[k]);
      if keys == {k} then entry else entry + " " + RenderEntries(whole, m, keys - {k})
  }

  // --------------------------------------------------------------- comparison

  /** `mapsEqual`: same number of keys, and every key of `a` is in `b` with a
      matching value. */
  predicate MapsEqual(a: map<string, Value>, b: map<string, Value>)
    decreases Map(a), 0
  {
    |a| == |b| && forall k :: k in a ==> k in b && ValuesMatch(a[k], b[k])
  }

  /** A map on the left demands a map on the right; anything else on the left is
      compared by its rendering, whatever the right-hand side is. */
  predicate ValuesMatch(av: Value, bv: Value)
    decreases av, 1
  {
    match av
    case Map(am) => bv.Map? && MapsEqual(am, bv.m)
    case _ => Render(av) == Render(bv)
  }

  lemma SubsetOfEqualSize<T>(s: set<T>, t: set<T>)
    requires s <= t && |s| == |t|
    ensures s == t
  {
    assert |t - s| == |t| - |s|;
  }

  lemma EqualKeys(a: map<string, Value>, b: map<string, Value>)
    requires MapsEqual(a, b)
    ensures a.Keys == b.Keys
  {
    assert |a.Keys| == |b.Keys|;
    SubsetOfEqualSize(a.Keys, b.Keys);
  }

  lemma {:induction false} ValuesMatchReflexive(v: Value)
    ensures ValuesMatch(v, v)
  {
    if v.Map? {
      forall k | k in v.m ensures ValuesMatch(v.m[k], v.m[k]) {
        ValuesMatchReflexive(v.m[k]);
      }
    }
  }

  lemma MapsEqualReflexive(a: map<string, Value>)
    ensures MapsEqual(a, a)
  {
    ValuesMatchReflexive(Map(a));
  }

  /** Two values that match print alike; this is what makes the comparison
      transitive through a leaf that meets a map. */
  lemma {:induction false} ValuesMatchRender(av: Value, bv: Value)
    requires ValuesMatch(av, bv)
    ensures Render(av) == Render(bv)
    decreases av, 1, 0
  {
    if av.Map? {
      EqualKeys(av.m, bv.m);
      EntriesRender(av, bv, av.m.Keys);
    }
  }

  lemma {:induction false} EntriesRender(av: Value, bv: Value, keys: set<string>)
    requires av.Map? && bv.Map? && MapsEqual(av.m, bv.m)
    requires keys <= av.m.Keys && keys <= bv.m.Keys
    ensures RenderEntries(av, av.m, keys) == RenderEntries(bv, bv.m, keys)
    decreases av, 0, |keys|
  {
    if keys != {} {
      var k := Least(keys);
      ValuesMatchRender(av.m[k], bv.m[k]);
      EntriesRender(av, bv, keys - {k});
    }
  }

  lemma MapsEqualRender(a: map<string, Value>, b: map<string, Value>)
    requires MapsEqual(a, b)
    ensures Render(Map(a)) == Render(Map(b))
  {
    ValuesMatchRender(Map(a), Map(b));
  }

  lemma {:induction false} ValuesMatchTransitive(av: Value, bv: Value, cv: Value)
    requires ValuesMatch(av, bv) && ValuesMatch(bv, cv)
    ensures ValuesMatch(av, cv)
  {
    if av.Map? {
      forall k | k in av.m ensures k in cv.m && ValuesMatch(av.m[k], cv.m[k]) {
        ValuesMatchTransitive(av.m[k], bv.m[k], cv.m[k]);
      }
    } else {
      ValuesMatchRender(bv, cv);
    }
  }

  lemma MapsEqualTransitive(a: map<string, Value>, b: map<string, Value>, c: map<string, Value>)
    requires MapsEqual(a, b) && MapsEqual(b, c)
    ensures MapsEqual(a, c)
  {
    ValuesMatchTransitive(Map(a), Map(b), Map(c));
  }

  // ------------------------------------------------- where symmetry comes back

  /** The two trees have maps at the same positions. */
  predicate SameSkeleton(av: Value, bv: Value) {
    (av.Map? <==> bv.Map?) &&
    (av.Map? ==> forall k :: k in av.m && k in bv.m ==> SameSkeleton(av.m[k], bv.m[k]))
  }

  /** A match can be turned around exactly when no leaf met a map. */
  lemma {:induction false} MatchSymmetricIff(av: Value, bv: Value)
    requires ValuesMatch(av, bv)
    ensures ValuesMatch(bv, av) <==> SameSkeleton(av, bv)
  {
    if av.Map? {
      EqualKeys(av.m, bv.m);
      forall k | k in av.m ensures ValuesMatch(bv.m[k], av.m[k]) <==> SameSkeleton(av.m[k], bv.m[k]) {
        MatchSymmetricIff(av.m[k], bv.m[k]);
      }
    }
  }

  lemma MapsEqualSymmetricIff(a: map<string, Value>, b: map<string, Value>)
    requires MapsEqual(a, b)
    ensures MapsEqual(b, a) <==> SameSkeleton(Map(a), Map(b))
  {
    MatchSymmetricIff(Map(a), Map(b));
  }

  /** A string can print like a map, so the comparison is not symmetric. */
  lemma MapsEqualNotSymmetric()
    ensures exists a, b :: MapsEqual(a, b) && !MapsEqual(b, a)
  {
    var inner: map<string, Value> := map["x" := Str("1")];
    var a: map<string, Value> := map["k" := Str("map[x:1]")];
    var b: map<string, Value> := map["k" := Map(inner)];
    assert Least({"x"}) == "x";
    assert inner.Keys == {"x"};
    assert RenderEntries(Map(inner), inner, inner.Keys) == "x" + ":" + "1";
    assert Render(Map(inner)) == "map[" + ("x" + ":" + "1") + "]" == "map[x:1]";
    assert ValuesMatch(a["k"], b["k"]) && !ValuesMatch(b["k"], a["k"]);
    assert MapsEqual(a, b) && !MapsEqual(b, a);
  }

  // ------------------------------------------------------ where it is equality

  /** `x` is `v` itself or sits somewhere below it, following map entries. */
  predicate Occurs(x: Value, v: Value) {
    x == v || (v.Map? && exists k :: k in v.m && Occurs(x, v.m[k]))
  }

  /** Every leaf of `a` prints differently from every other value in `b`:
      leaves are told apart by their text and never look like maps. */
  ghost predicate LeavesTellApart(a: Value, b: Value) {
    forall x, y :: Occurs(x, a) && !x.Map? && Occurs(y, b) && Render(x) == Render(y) ==> x == y
  }

  lemma {:induction false} MatchIsEquality(av: Value, bv: Value)
    requires LeavesTellApart(av, bv)
    ensures ValuesMatch(av, bv) <==> av == bv
  {
    if av == bv {
      ValuesMatchReflexive(av);
    } else if ValuesMatch(av, bv) {
      assert Occurs(av, av) && Occurs(bv, bv);
      if av.Map? {
        EqualKeys(av.m, bv.m);
        forall k | k in av.m ensures av.m[k] == bv.m[k] {
          assert forall x :: Occurs(x, av.m[k]) ==> Occurs(x, av);
          assert forall y :: Occurs(y, bv.m[k]) ==> Occurs(y, bv);
          MatchIsEquality(av.m[k], bv.m[k]);
        }
      }
    }
  }

  lemma MapsEqualIsEquality(a: map<string, Value>, b: map<string, Value>)
    requires LeavesTellApart(Map(a), Map(b))
    ensures MapsEqual(a, b) <==> a == b
  {
    MatchIsEquality(Map(a), Map(b));
  }

  /** Without that condition a number and the string with its digits are equal. */
  lemma NumberEqualsItsText()
    ensures exists a, b :: MapsEqual(a, b) && a != b
  {
    var a: map<string, Value> := map["k" := Int(1)];
    var b: map<string, Value> := map["k" := Str("1")];
    assert Render(a["k"]) == "1" == Render(b["k"]);
    assert a["k"] != b["k"];
    assert ValuesMatch(a["k"], b["k"]);
    assert MapsEqual(a, b);
  }
}
