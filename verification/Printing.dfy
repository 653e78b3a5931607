/** What `%v` prints, read independently of how it is put together, and where the
    comparison of specs by their text is exact. */
module Printing {
  import opened Json
  import opened Strings

  // ------------------------------------------------------------------- numbers

  predicate IsDigit(c: char) { '0' <= c <= '9' }

  /** The number a decimal text stands for. */
  function NumberOf(text: string): nat
    requires forall i :: 0 <= i < |text| ==> IsDigit(text[i])
  {
    if text == "" then 0
    else
      var last := |text| - 1;
      assert IsDigit(text[last]);
      NumberOf(text[..last]) * 10 + (text[last] as int - '0' as int)
  }

  predicate IsDecimal(text: string, n: nat) {
    && text != "" && (forall i :: 0 <= i < |text| ==> IsDigit(text[i]))
    && NumberOf(text) == n && (|text| > 1 ==> text[0] != '0')
  }

  /** A natural number is printed as its decimal text without leading zeros. */
  lemma {:induction false} DigitsAreDecimal(n: nat)
    ensures IsDecimal(Digits(n), n)
  {
    if n < 10 {
      assert NumberOf(Digits(n)[..0]) == 0;
    } else {
      DigitsAreDecimal(n / 10);
      var text, last := Digits(n), |Digits(n)| - 1;
      assert text[..last] == Digits(n / 10);
      assert text[0] == Digits(n / 10)[0];
      if |Digits(n / 10)| == 1 {
        assert Digits(n / 10)[..0] == "";
      }
    }
  }

  /** Integers print as decimals, with a minus sign if negative; so two of them print
      alike exactly if they are equal. */
  lemma IntegersPrintAlikeIff(i: int, j: int)
    ensures i >= 0 ==> IsDecimal(Render(Int(i)), i)
    ensures i < 0 ==> Render(Int(i)) == "-" + Render(Int(-i))
    ensures Render(Int(i)) == Render(Int(j)) <==> i == j
  {
    var m, n := if i < 0 then -i else i, if j < 0 then -j else j;
    DigitsAreDecimal(m);
    DigitsAreDecimal(n);
    assert i < 0 ==> Render(Int(i))[0] == '-' && Render(Int(i))[1..] == Digits(m);
    assert j < 0 ==> Render(Int(j))[0] == '-' && Render(Int(j))[1..] == Digits(n);
  }

  lemma BooleansPrintAlikeIff(b: bool, c: bool)
    ensures Render(Bool(true)) == "true" && Render(Bool(false)) == "false"
    ensures Render(Bool(b)) == Render(Bool(c)) <==> b == c
  {
    assert "true" != "false" by { assert "true"[0] != "false"[0]; }
  }

  /** Strings and floating-point numbers print as their text, nil as `<nil>`. */
  lemma TextsPrintAsTheyAre(s: string)
    ensures Render(Str(s)) == s && Render(Float(s)) == s && Render(Null) == "<nil>"
  {
  }

  /** Nil, booleans and integers. */
  predicate IsPlain(v: Value) { v.Null? || v.Bool? || v.Int? }

  /** A text that a blank ends: not empty, and without one. */
  predicate IsWord(s: string) { s != "" && ' ' !in s }

  /** How a plain value's text begins; it is a word. */
  lemma PlainText(v: Value)
    requires IsPlain(v)
    ensures IsWord(Render(v))
    ensures var c := Render(v)[0];
      if v.Null? then c == '<' else if v.Bool? then c == 't' || c == 'f' else c == '-' || IsDigit(c)
  {
    if v.Int? {
      DigitsAreDecimal(if v.i < 0 then -v.i else v.i);
    }
  }

  /** Plain values are told apart by their text. */
  lemma PlainsPrintAlikeIff(v: Value, w: Value)
    requires IsPlain(v) && IsPlain(w)
    ensures Render(v) == Render(w) <==> v == w
  {
    PlainText(v);
    PlainText(w);
    if v.Int? && w.Int? {
      IntegersPrintAlikeIff(v.i, w.i);
    } else if v.Bool? && w.Bool? {
      BooleansPrintAlikeIff(v.b, w.b);
    }
  }

  // --------------------------------------------------------------------- lists

  function Texts(items: seq<Value>): (texts: seq<string>)
    ensures |texts| == |items| && forall i :: 0 <= i < |items| ==> texts[i] == Render(items[i])
  {
    if items == [] then [] else [Render(items[0])] + Texts(items[1..])
  }

  lemma {:induction false} ItemsAreJoined(items: seq<Value>)
    ensures RenderItems(items) == Join(Texts(items), " ")
  {
    if |items| == 1 {
      assert Texts(items) == [Render(items[0])];
    } else if |items| > 1 {
      ItemsAreJoined(items[1..]);
      assert Texts(items)[1..] == Texts(items[1..]);
    }
  }

  /** A list prints its items with blanks between them, in brackets; so two lists
      print alike exactly if the joined texts are the same. */
  lemma ListsPrintAlikeIff(x: seq<Value>, y: seq<Value>)
    ensures Render(List(x)) == "[" + Join(Texts(x), " ") + "]"
    ensures Render(List(x)) == Render(List(y)) <==> Join(Texts(x), " ") == Join(Texts(y), " ")
  {
    ItemsAreJoined(x);
    ItemsAreJoined(y);
    var s, t := Join(Texts(x), " "), Join(Texts(y), " ");
    assert ("[" + s + "]")[1..|s| + 1] == s && ("[" + t + "]")[1..|t| + 1] == t;
  }

  /** Different lists can print alike: where one item ends cannot be told from the text. */
  lemma ListsRunTogether()
    ensures Render(List([Str("a b")])) == Render(List([Str("a"), Str("b")]))
  {
    var x, y := [Str("a b")], [Str("a"), Str("b")];
    assert Texts(x) == ["a b"] && Texts(y) == ["a", "b"];
    assert ["a", "b"][1..] == ["b"];
    assert Join(["b"], " ") == "b" && Join(["a", "b"], " ") == "a" + " " + "b" == "a b";
    ListsPrintAlikeIff(x, y);
  }

  /** Both lists hold plain values only, or strings that are words only. */
  predicate SameItems(x: seq<Value>, y: seq<Value>) {
    || ((forall v :: v in x ==> IsPlain(v)) && (forall v :: v in y ==> IsPlain(v)))
    || ((forall v :: v in x ==> v.Str? && IsWord(v.s)) && (forall v :: v in y ==> v.Str? && IsWord(v.s)))
  }

  lemma WordTexts(items: seq<Value>)
    requires forall v :: v in items ==> IsPlain(v) || (v.Str? && IsWord(v.s))
    ensures forall i :: 0 <= i < |items| ==> IsWord(Texts(items)[i])
  {
    forall i | 0 <= i < |items| ensures IsWord(Render(items[i])) {
      assert items[i] in items;
      if IsPlain(items[i]) {
        PlainText(items[i]);
      }
    }
  }

  /** The words come back out of the joined text. */
  lemma WordsAreReadBack(a: seq<string>, b: seq<string>)
    requires forall i :: 0 <= i < |a| ==> IsWord(a[i])
    requires forall i :: 0 <= i < |b| ==> IsWord(b[i])
    ensures Join(a, " ") == Join(b, " ") <==> a == b
  {
    if a != [] {
      SplitAfterJoin(a, ' ');
      assert Join(a, " ") != "" by { assert a[0] != ""; }
    }
    if b != [] {
      SplitAfterJoin(b, ' ');
      assert Join(b, " ") != "" by { assert b[0] != ""; }
    }
  }

  lemma SameItemsAlike(x: seq<Value>, y: seq<Value>)
    requires SameItems(x, y)
    ensures Render(List(x)) == Render(List(y)) <==> x == y
  {
    ListsPrintAlikeIff(x, y);
    WordTexts(x);
    WordTexts(y);
    WordsAreReadBack(Texts(x), Texts(y));
    if Texts(x) == Texts(y) {
      forall i | 0 <= i < |x| ensures x[i] == y[i] {
        assert Render(x[i]) == Texts(x)[i] == Texts(y)[i] == Render(y[i]);
        assert x[i] in x && y[i] in y;
        if IsPlain(x[i]) && IsPlain(y[i]) {
          PlainsPrintAlikeIff(x[i], y[i]);
        }
      }
    }
  }

  // ---------------------------------------------------------------------- maps

  /** `a` comes no later than `b`: it is a prefix, or smaller where they first differ. */
  lemma {:induction false} LexLeqIff(a: string, b: string)
    ensures LexLeq(a, b) <==>
      a <= b || exists i :: 0 <= i < |a| && i < |b| && a[..i] == b[..i] && a[i] < b[i]
  {
    if a != "" && b != "" {
      LexLeqIff(a[1..], b[1..]);
      if a[0] == b[0] {
        assert a == [a[0]] + a[1..] && b == [b[0]] + b[1..];
        if i :| 0 <= i < |a[1..]| && i < |b[1..]| && a[1..][..i] == b[1..][..i] && a[1..][i] < b[1..][i] {
          assert a[..i + 1] == [a[0]] + a[1..][..i] && b[..i + 1] == [b[0]] + b[1..][..i];
          assert a[i + 1] < b[i + 1];
        }
        if i :| 0 <= i < |a| && i < |b| && a[..i] == b[..i] && a[i] < b[i] {
          assert i > 0;
          assert a[1..][..i - 1] == a[..i][1..] && b[1..][..i - 1] == b[..i][1..];
          assert a[1..][i - 1] < b[1..][i - 1];
        }
      } else {
        assert a[..0] == b[..0];
        forall i | 0 < i < |a| && i < |b| ensures a[..i] != b[..i] {
          assert a[..i][0] == a[0] && b[..i][0] == b[0];
        }
      }
    }
  }

  /** The keys in ascending order, each once. */
  ghost predicate ListsInOrder(l: seq<string>, keys: set<string>) {
    && (forall k :: k in l <==> k in keys)
    && forall i, j :: 0 <= i < j < |l| ==> LexLeq(l[i], l[j]) && l[i] != l[j]
  }

  function EntryTexts(m: map<string, Value>, l: seq<string>): (texts: seq<string>)
    requires forall k :: k in l ==> k in m
    ensures |texts| == |l| && forall i :: 0 <= i < |l| ==> texts[i] == l[i] + ":" + Render(m[l[i]])
  {
    if l == [] then [] else [l[0] + ":" + Render(m[l[0]])] + EntryTexts(m, l[1..])
  }

  lemma FirstIsLeast(l: seq<string>, keys: set<string>)
    requires ListsInOrder(l, keys) && l != []
    ensures keys != {} && Least(keys) == l[0] && ListsInOrder(l[1..], keys - {l[0]})
  {
    assert l[0] in l;
    var least := Least(keys);
    var i :| 0 <= i < |l| && l[i] == least;
    if i > 0 {
      LexAntisymmetric(l[0], least);
    }
    forall k ensures k in l[1..] <==> k in keys - {l[0]} {
      if k in l[1..] {
        var j :| 0 <= j < |l| - 1 && l[1..][j] == k;
        assert l[0] != l[j + 1];
      }
      if k in keys - {l[0]} {
        var j :| 0 <= j < |l| && l[j] == k;
        assert l[1..][j - 1] == k;
      }
    }
  }

  lemma {:induction false} EntriesAreJoined(m: map<string, Value>, keys: set<string>, l: seq<string>)
    requires keys <= m.Keys && ListsInOrder(l, keys)
    ensures RenderEntries(Map(m), m, keys) == Join(EntryTexts(m, l), " ")
    decreases |l|
  {
    if l == [] {
      assert keys == {};
    } else {
      FirstIsLeast(l, keys);
      EntriesAreJoined(m, keys - {l[0]}, l[1..]);
      assert EntryTexts(m, l)[1..] == EntryTexts(m, l[1..]);
      if |l| == 1 {
        assert keys - {l[0]} == {};
        assert keys == {l[0]};
      } else {
        assert l[1] in l[1..];
        assert keys != {l[0]};
      }
    }
  }

  /** A map prints its entries in the order of their keys, as `key:value` with blanks
      between them, in `map[...]`. */
  lemma MapsPrintInOrder(m: map<string, Value>, l: seq<string>)
    requires ListsInOrder(l, m.Keys)
    ensures Render(Map(m)) == "map[" + Join(EntryTexts(m, l), " ") + "]"
  {
    EntriesAreJoined(m, m.Keys, l);
  }

  // ------------------------------------------------------ where text is enough

  /** Values of one schema, as far as telling them apart by their text goes: strings
      meet strings, floating-point numbers their like, lists of plain values or of
      words their like, and plain values anything but strings and floating-point
      numbers. */
  predicate SameSchema(v: Value, w: Value) {
    match v
    case Str(_) => w.Str?
    case Float(_) => w.Float?
    case List(x) => IsPlain(w) || w.Map? || (w.List? && SameItems(x, w.items))
    case Map(m) => w.Map? ==> forall k :: k in m && k in w.m ==> SameSchema(m[k], w.m[k])
    case _ => !w.Str? && !w.Float?
  }

  lemma LeafIsItsText(v: Value, w: Value)
    requires !v.Map? && SameSchema(v, w)
    ensures Render(v) == Render(w) <==> v == w
  {
    if v.List? {
      assert Render(v)[0] == '[';
      if w.List? {
        SameItemsAlike(v.items, w.items);
      } else if w.Map? {
        assert Render(w)[0] == 'm';
      } else {
        PlainText(w);
      }
    } else if IsPlain(v) {
      PlainText(v);
      if IsPlain(w) {
        PlainsPrintAlikeIff(v, w);
      } else if w.Map? {
        assert Render(w)[0] == 'm';
      } else {
        assert Render(w)[0] == '[';
      }
    }
  }

  lemma {:induction false} MatchIsEqualityInSchema(v: Value, w: Value)
    requires SameSchema(v, w)
    ensures ValuesMatch(v, w) <==> v == w
  {
    if v == w {
      ValuesMatchReflexive(v);
    } else if !v.Map? {
      LeafIsItsText(v, w);
    } else if w.Map? && MapsEqual(v.m, w.m) {
      EqualKeys(v.m, w.m);
      forall k | k in v.m ensures v.m[k] == w.m[k] {
        MatchIsEqualityInSchema(v.m[k], w.m[k]);
      }
    }
  }

  /** Specs of one schema compare equal exactly if they are equal. */
  lemma SpecsOfOneSchema(a: map<string, Value>, b: map<string, Value>)
    requires SameSchema(Map(a), Map(b))
    ensures MapsEqual(a, b) <==> a == b
  {
    MatchIsEqualityInSchema(Map(a), Map(b));
  }

  /** In particular where all leaves are integers, booleans and nil. */
  predicate AllPlain(v: Value) {
    if v.Map? then forall k :: k in v.m ==> AllPlain(v.m[k]) else IsPlain(v)
  }

  lemma {:induction false} PlainSchema(v: Value, w: Value)
    requires AllPlain(v) && AllPlain(w)
    ensures SameSchema(v, w)
  {
    if v.Map? && w.Map? {
      forall k | k in v.m && k in w.m ensures SameSchema(v.m[k], w.m[k]) {
        PlainSchema(v.m[k], w.m[k]);
      }
    }
  }

  lemma PlainSpecs(a: map<string, Value>, b: map<string, Value>)
    requires AllPlain(Map(a)) && AllPlain(Map(b))
    ensures MapsEqual(a, b) <==> a == b
  {
    PlainSchema(Map(a), Map(b));
    SpecsOfOneSchema(a, b);
  }
}
