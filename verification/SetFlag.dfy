/** The command-line flag that reads a comma-separated list into a set. */
module SetFlag {
  import opened Strings

  /** What `Set` makes of a value: the trimmed, non-empty parts between commas. */
  function Parse(value: string): set<string> {
    set part | part in Split(value, ',') && TrimSpace(part) != "" :: TrimSpace(part)
  }

  /** A string that can be an element: trimmed, not empty, without a comma. */
  predicate IsElement(s: string) {
    s != "" && IsTrimmed(s) && ',' !in s
  }

  /** The elements of a set in some order, as UnsortedList returns them. */
  ghost predicate Lists(l: seq<string>, elements: set<string>) {
    (forall x :: x in l <==> x in elements) && |l| == |elements|
  }

  class Flag {
    var elements: set<string>

    method Set(value: string)
      modifies this
      ensures elements == Parse(value)
    {
      elements := {};
      if value != "" {
        var parts := Split(value, ',');
        for i := 0 to |parts|
          invariant elements == set part | part in parts[..i] && TrimSpace(part) != "" :: TrimSpace(part)
        {
          var val := TrimSpace(parts[i]);
          assert parts[..i + 1] == parts[..i] + [parts[i]];
          if val != "" {
            elements := elements + {val};
          }
        }
        assert parts[..|parts|] == parts;
      } else {
        assert TrimSpace("") == "";
      }
    }

    /** The conversion to a sortable slice does not sort, so the order is that of
        the listing. */
    method String() returns (s: string)
      ensures exists l :: Lists(l, elements) && s == Join(l, ",")
    {
      var l: seq<string> := [];
      var todo := elements;
      while todo != {}
        invariant todo <= elements
        invariant forall x :: x in l <==> x in elements - todo
        invariant |l| + |todo| == |elements|
        decreases |todo|
      {
        var x :| x in todo;
        l := l + [x];
        todo := todo - {x};
      }
      s := Join(l, ",");
    }
  }

  /** Reading two values with a comma between them reads both. */
  lemma {:induction false} ParseConcatenates(a: string, b: string)
    ensures Parse(a + "," + b) == Parse(a) + Parse(b)
  {
    SplitConcatenates(a, b, ',');
    assert a + [','] + b == a + "," + b;
  }

  /** A part with white space around it yields the text between, white space alone
      nothing. */
  lemma PartIsTrimmed(left: string, x: string, right: string)
    requires AllSpace(left) && AllSpace(right) && ',' !in x
    requires x == "" || (!IsSpace(x[0]) && !IsSpace(x[|x| - 1]))
    ensures Parse(left + x + right) == if x == "" then {} else {x}
  {
    var part := left + x + right;
    assert forall c :: c in part ==> c in left || c in x || c in right;
    assert ',' !in left && ',' !in right;
    SplitWhole(part, ',');
    TrimSpaceOf(left, x, right);
  }

  lemma ParseYieldsElements(value: string)
    ensures forall x :: x in Parse(value) ==> IsElement(x)
  {
    forall x | x in Parse(value) ensures IsElement(x) {
      var part :| part in Split(value, ',') && TrimSpace(part) != "" && x == TrimSpace(part);
      var left, right := TrimSpaceCuts(part);
      assert forall c :: c in x ==> c in part;
    }
  }

  /** A set survives printing and reading, in whatever order it is listed, exactly
      when each of its members can be an element. */
  lemma RoundTrip(elements: set<string>, l: seq<string>)
    requires Lists(l, elements)
    ensures Parse(Join(l, ",")) == elements <==> forall x :: x in elements ==> IsElement(x)
  {
    if forall x :: x in elements ==> IsElement(x) {
      forall x | x in elements ensures TrimSpace(x) == x {
        TrimmedStays(x);
      }
      if l == [] {
        assert Split("", ',') == [""];
        assert TrimSpace("") == "";
        assert elements == {};
        assert Parse(Join(l, ",")) == {};
      } else {
        forall i | 0 <= i < |l| ensures IsElement(l[i]) {
          assert l[i] in l;
        }
        SplitAfterJoin(l, ',');
        assert Split(Join(l, ","), ',') == l;
      }
    } else if Parse(Join(l, ",")) == elements {
      ParseYieldsElements(Join(l, ","));
    }
  }

  /** Reading back what was printed for any value gives the same set again. */
  lemma SetAfterString(value: string, l: seq<string>)
    requires Lists(l, Parse(value))
    ensures Parse(Join(l, ",")) == Parse(value)
  {
    ParseYieldsElements(value);
    RoundTrip(Parse(value), l);
  }
}
