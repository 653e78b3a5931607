/** The string operations of the Go standard library that the agent relies on. */
module Strings {

  /** Position of the first `c` at or after `from`; the length if there is none. */
  function IndexFrom(s: string, c: char, from: nat): (i: nat)
    requires from <= |s|
    ensures from <= i <= |s|
    ensures forall j :: from <= j < i ==> s[j] != c
    ensures i < |s| ==> s[i] == c
    decreases |s| - from
  {
    if from == |s| || s[from] == c then from else IndexFrom(s, c, from + 1)
  }

  // -------------------------------------------------------------- split and join

  function Split(s: string, sep: char): (parts: seq<string>)
    ensures |parts| > 0
    ensures forall i :: 0 <= i < |parts| ==> sep !in parts[i]
  {
    if s == "" then [""]
    else
      var rest := Split(s[1..], sep);
      if s[0] == sep then [""] + rest else [[s[0]] + rest[0]] + rest[1..]
  }

  function Join(parts: seq<string>, sep: string): string {
    if parts == [] then "" else if |parts| == 1 then parts[0] else parts[0] + sep + Join(parts[1..], sep)
  }

  lemma {:induction false} SplitFirst(part: string, rest: string, sep: char)
    requires sep !in part
    ensures Split(part + [sep] + rest, sep) == [part] + Split(rest, sep)
  {
    var s := part + [sep] + rest;
    if part == "" {
      assert s[1..] == rest;
    } else {
      assert s[1..] == part[1..] + [sep] + rest;
      SplitFirst(part[1..], rest, sep);
      assert [part[0]] + part[1..] == part;
    }
  }

  lemma {:induction false} SplitWhole(part: string, sep: char)
    requires sep !in part
    ensures Split(part, sep) == [part]
  {
    if part != "" {
      SplitWhole(part[1..], sep);
      assert [part[0]] + part[1..] == part;
    }
  }

  lemma {:induction false} SplitAfterJoin(parts: seq<string>, sep: char)
    requires parts != [] && forall i :: 0 <= i < |parts| ==> sep !in parts[i]
    ensures Split(Join(parts, [sep]), sep) == parts
    decreases |parts|
  {
    if |parts| == 1 {
      SplitWhole(parts[0], sep);
    } else {
      var rest := parts[1..];
      SplitAfterJoin(rest, sep);
      SplitFirst(parts[0], Join(rest, [sep]), sep);
      assert Join(parts, [sep]) == parts[0] + [sep] + Join(rest, [sep]);
      assert [parts[0]] + rest == parts;
    }
  }

  lemma SplitPrepends(c: char, first: seq<string>, later: seq<string>, sep: char)
    requires first != []
    ensures (if c == sep then [""] + first else [[c] + first[0]] + first[1..]) + later
         == if c == sep then [""] + (first + later) else [[c] + (first + later)[0]] + (first + later)[1..]
  {
    assert (first + later)[1..] == first[1..] + later;
  }

  /** Splitting across a separator splits on both sides of it. */
  lemma {:induction false} SplitConcatenates(a: string, b: string, sep: char)
    ensures Split(a + [sep] + b, sep) == Split(a, sep) + Split(b, sep)
  {
    var s := a + [sep] + b;
    if a == "" {
      assert s[1..] == b;
    } else {
      var first, later := Split(a[1..], sep), Split(b, sep);
      SplitConcatenates(a[1..], b, sep);
      assert s[1..] == a[1..] + [sep] + b && s[0] == a[0];
      SplitPrepends(a[0], first, later, sep);
    }
  }

  // -------------------------------------------------------------------- trimming

  /** Unicode white space. */
  predicate IsSpace(c: char) {
    || '\t' <= c <= '\r' || c == ' ' || c == '\U{85}' || c == '\U{A0}'
    || c == '\U{1680}' || '\U{2000}' <= c <= '\U{200A}' || c == '\U{2028}' || c == '\U{2029}'
    || c == '\U{202F}' || c == '\U{205F}' || c == '\U{3000}'
  }

  /** In ASCII: tab, line feed, vertical tab, form feed, carriage return and blank; not
      letters, digits or punctuation. Outside it, the next-line and no-break spaces,
      and those among the general separators. */
  lemma SpacesAre(c: char)
    ensures c <= '~' ==> (IsSpace(c) <==> c in "\t\n\U{0B}\U{0C}\r ")
    ensures 'a' <= c <= 'z' || 'A' <= c <= 'Z' || '0' <= c <= '9' || c in ",.;:-_/*" ==> !IsSpace(c)
    ensures '~' < c ==> (IsSpace(c) <==>
      c in "\U{85}\U{A0}\U{1680}\U{2000}\U{2001}\U{2002}\U{2003}\U{2004}\U{2005}\U{2006}\U{2007}" +
           "\U{2008}\U{2009}\U{200A}\U{2028}\U{2029}\U{202F}\U{205F}\U{3000}")
  {
  }

  function TrimLeft(s: string): string {
    if s != "" && IsSpace(s[0]) then TrimLeft(s[1..]) else s
  }

  function TrimRight(s: string): string {
    if s != "" && IsSpace(s[|s| - 1]) then TrimRight(s[..|s| - 1]) else s
  }

  function TrimSpace(s: string): string { TrimRight(TrimLeft(s)) }

  predicate IsTrimmed(s: string) {
    s == "" || (!IsSpace(s[0]) && !IsSpace(s[|s| - 1]))
  }

  predicate AllSpace(s: string) { forall i :: 0 <= i < |s| ==> IsSpace(s[i]) }

  lemma {:induction false} TrimLeftCuts(s: string) returns (cut: string)
    ensures AllSpace(cut) && s == cut + TrimLeft(s)
    ensures TrimLeft(s) == "" || !IsSpace(TrimLeft(s)[0])
  {
    cut := "";
    if s != "" && IsSpace(s[0]) {
      var rest := TrimLeftCuts(s[1..]);
      cut := [s[0]] + rest;
      assert s == [s[0]] + s[1..];
    }
  }

  lemma {:induction false} TrimRightCuts(s: string) returns (cut: string)
    ensures AllSpace(cut) && s == TrimRight(s) + cut
    ensures TrimRight(s) == "" || !IsSpace(TrimRight(s)[|TrimRight(s)| - 1])
  {
    cut := "";
    if s != "" && IsSpace(s[|s| - 1]) {
      var rest := TrimRightCuts(s[..|s| - 1]);
      cut := rest + [s[|s| - 1]];
      assert s == s[..|s| - 1] + [s[|s| - 1]];
    }
  }

  /** Trimming cuts white space off both ends and nothing else. */
  lemma TrimSpaceCuts(s: string) returns (left: string, right: string)
    ensures AllSpace(left) && AllSpace(right) && s == left + TrimSpace(s) + right
    ensures IsTrimmed(TrimSpace(s))
  {
    left := TrimLeftCuts(s);
    right := TrimRightCuts(TrimLeft(s));
    var t := TrimSpace(s);
    assert TrimLeft(s) == t + right;
    assert t != "" ==> TrimLeft(s)[0] == t[0];
  }

  lemma TrimmedStays(s: string)
    ensures TrimSpace(s) == s <==> IsTrimmed(s)
  {
    var left, right := TrimSpaceCuts(s);
  }

  lemma {:induction false} TrimLeftOf(left: string, rest: string)
    requires AllSpace(left) && (rest == "" || !IsSpace(rest[0]))
    ensures TrimLeft(left + rest) == rest
  {
    if left == "" {
      assert left + rest == rest;
    } else {
      assert (left + rest)[1..] == left[1..] + rest;
      TrimLeftOf(left[1..], rest);
    }
  }

  lemma {:induction false} TrimRightOf(rest: string, right: string)
    requires AllSpace(right) && (rest == "" || !IsSpace(rest[|rest| - 1]))
    ensures TrimRight(rest + right) == rest
  {
    if right == "" {
      assert rest + right == rest;
    } else {
      var s, last := rest + right, |right| - 1;
      assert s[..|s| - 1] == rest + right[..last] && s[|s| - 1] == right[last];
      TrimRightOf(rest, right[..last]);
    }
  }

  /** What is left between the white space. */
  lemma TrimSpaceOf(left: string, x: string, right: string)
    requires AllSpace(left) && AllSpace(right)
    requires x == "" || (!IsSpace(x[0]) && !IsSpace(x[|x| - 1]))
    ensures TrimSpace(left + x + right) == x
  {
    if x == "" {
      assert left + x + right == (left + right) + "";
      TrimLeftOf(left + right, "");
    } else {
      assert left + x + right == left + (x + right);
      TrimLeftOf(left, x + right);
      TrimRightOf(x, right);
    }
  }
}
