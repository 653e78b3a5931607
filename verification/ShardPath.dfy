/** Rewriting request paths so that they name a shard: `shardInPath`, the two
    round-trippers around it, and the laws that make them a lens on the shard
    segment of the path. */
module ShardPath {
  import opened Wrappers
  import opened Strings
  import opened Objects

  const PREFIX := "/shards/"

  // ------------------------------------------------------- the library functions

  /** path.Clean on the segments of a rooted path. */
  function CleanSegments(segments: seq<string>, kept: seq<string>): seq<string>
    decreases |segments|
  {
    if segments == [] then kept
    else
      var seg := segments[0];
      CleanSegments(segments[1..],
        if seg == "" || seg == "." then kept
        else if seg == ".." then (if kept == [] then [] else kept[..|kept| - 1])
        else kept + [seg])
  }

  /** `path.Join("/shards", name)`. */
  function PathOf(name: Shard): string {
    "/" + Join(CleanSegments(["shards"] + Split(name, '/'), []), "/")
  }

  predicate HasPrefix(s: string, prefix: string) { prefix <= s }

  /** A match of `shards/([^/]+)/.+` at position i: its first group. The dot does
      not match a newline. */
  function MatchAt(s: string, i: nat): Option<string>
    requires i <= |s|
  {
    if !HasPrefix(s[i..], "shards/") then None
    else
      var end := IndexFrom(s, '/', i + 7);
      if end > i + 7 && end + 1 < |s| && s[end + 1] != '\n' then Some(s[i + 7..end]) else None
  }

  /** The leftmost match at or after i. */
  function FindMatch(s: string, i: nat): Option<string>
    requires i <= |s|
    decreases |s| - i
  {
    if MatchAt(s, i).Some? then MatchAt(s, i)
    else if i == |s| then None
    else FindMatch(s, i + 1)
  }

  /** `strings.Replace(s, old, new, 1)` for a non-empty old string. */
  function ReplaceFirst(s: string, old_: string, new_: string): string {
    if HasPrefix(s, old_) then new_ + s[|old_|..]
    else if s == "" then ""
    else [s[0]] + ReplaceFirst(s[1..], old_, new_)
  }

  // ---------------------------------------------------------------- the rewriting

  function ShardInPath(orig: string, s: Shard): string {
    if HasPrefix(orig, PathOf(s)) then orig
    else if HasPrefix(orig, "/shards") then
      match FindMatch(orig, 0)
      case Some(name) => ReplaceFirst(orig, PathOf(name), PathOf(s))
      case None => if orig[|orig| - 1] == '/' then PathOf(s) + "/" else PathOf(s)
    else if orig != "" && orig[0] != '/' then PathOf(s) + "/" + orig
    else PathOf(s) + orig
  }

  // ------------------------------------------------------------ reading a path

  /** One proper path segment; shard names and the wildcard are such. */
  predicate IsSegment(s: Shard) {
    s != "" && '/' !in s && s != "." && s != ".."
  }

  /** What a cache-server reads from a path: the shard segment, if there is one,
      and the resource path behind it. */
  datatype View = View(shard: Option<Shard>, suffix: string)

  function ViewOf(p: string): View {
    if HasPrefix(p, PREFIX) then
      var end := IndexFrom(p, '/', |PREFIX|);
      View(Some(p[|PREFIX|..end]), p[end..])
    else View(None, if p == "" || p[0] == '/' then p else "/" + p)
  }

  /** The paths the laws are about: those that do not start with /shards, and
      /shards/<name>, /shards/<name>/ and /shards/<name>/<rest>. */
  predicate WellFormed(p: string) {
    HasPrefix(p, "/shards") ==> ViewOf(p).shard.Some? && IsSegment(ViewOf(p).shard.value)
  }

  predicate ProperPrefix(s: Shard, name: Option<Shard>) {
    name.Some? && s < name.value
  }

  function Written(s: Shard, suffix: string): string { PREFIX + s + suffix }

  predicate IsSuffix(suffix: string) { suffix == "" || suffix[0] == '/' }

  /** The regular expression finds the name in the path, or nothing is behind it. */
  predicate Finds(name: Shard, suffix: string) {
    |suffix| <= 1 || FindMatch(Written(name, suffix), 0) == Some(name)
  }

  /** The rewriting puts `s` into the path: there is no shard in it, or `s` itself, or
      one that `s` is no prefix of and that the regular expression finds. */
  predicate Reaches(p: string, s: Shard) {
    match ViewOf(p).shard
    case None => true
    case Some(name) => s == name || (!(s <= name) && Finds(name, ViewOf(p).suffix))
  }

  /** The dot of the regular expression can match the start of the resource path. */
  predicate DotMatches(suffix: string) { |suffix| > 1 ==> suffix[1] != '\n' }

  // ----------------------------------------------------------------------- lemmas

  lemma CleanTwo(s: Shard)
    requires IsSegment(s)
    ensures CleanSegments(["shards", s], []) == ["shards", s]
  {
    assert ["shards", s][1..] == [s] && [s][1..] == [] && [] + ["shards"] == ["shards"];
    assert CleanSegments([s], ["shards"]) == CleanSegments([], ["shards"] + [s]);
    assert CleanSegments(["shards", s], []) == CleanSegments([s], ["shards"]);
  }

  lemma PathOfSegment(s: Shard)
    requires IsSegment(s)
    ensures PathOf(s) == PREFIX + s
  {
    SplitWhole(s, '/');
    CleanTwo(s);
    assert ["shards"] + [s] == ["shards", s];
    assert ["shards", s][1..] == [s];
    assert Join([s], "/") == s;
    assert Join(["shards", s], "/") == "shards" + "/" + s;
    assert "/" + ("shards" + "/" + s) == PREFIX + s;
  }

  lemma ViewOfWritten(s: Shard, suffix: string)
    requires '/' !in s && IsSuffix(suffix)
    ensures ViewOf(Written(s, suffix)) == View(Some(s), suffix)
  {
    var p := Written(s, suffix);
    assert p[|PREFIX|..] == s + suffix;
    var end := IndexFrom(p, '/', |PREFIX|);
    assert forall j :: |PREFIX| <= j < |PREFIX| + |s| ==> p[j] == s[j - |PREFIX|];
    assert suffix != "" ==> p[|PREFIX| + |s|] == suffix[0];
    assert end == |PREFIX| + |s|;
    assert p[|PREFIX|..end] == s && p[end..] == suffix;
  }

  lemma WrittenOfView(p: string)
    requires HasPrefix(p, PREFIX)
    ensures p == Written(ViewOf(p).shard.value, ViewOf(p).suffix)
    ensures IsSuffix(ViewOf(p).suffix) && '/' !in ViewOf(p).shard.value
  {
    var end := IndexFrom(p, '/', |PREFIX|);
    assert p == p[..|PREFIX|] + p[|PREFIX|..end] + p[end..];
  }

  /** With a resource path behind the name, the regular expression finds the name. */
  lemma MatchFindsName(name: Shard, suffix: string)
    requires name != "" && '/' !in name && IsSuffix(suffix) && |suffix| > 1 && suffix[1] != '\n'
    ensures FindMatch(Written(name, suffix), 0) == Some(name)
  {
    var p := Written(name, suffix);
    ViewOfWritten(name, suffix);
    assert p[0..][0] == '/' && MatchAt(p, 0) == None;
    assert p[1..] == "shards/" + name + suffix;
    var end := IndexFrom(p, '/', |PREFIX|);
    assert p[|PREFIX|..end] == name && p[end..] == suffix;
    assert end == |PREFIX| + |name|;
    assert p[end + 1] == p[end..][1];
    assert MatchAt(p, 1) == Some(name);
  }

  /** Without one it finds nothing: the only other slashes are in the prefix. The
      same goes for a resource path of one segment that starts with a newline. */
  lemma {:induction false} NoMatch(name: Shard, suffix: string, i: nat)
    requires '/' !in name && IsSuffix(suffix) && (suffix != "" ==> '/' !in suffix[1..])
    requires |suffix| > 1 ==> suffix[1] == '\n'
    requires i <= |Written(name, suffix)|
    ensures FindMatch(Written(name, suffix), i) == None
    decreases |Written(name, suffix)| - i
  {
    var p := Written(name, suffix);
    var slash := |PREFIX| + |name|;
    assert forall j :: |PREFIX| <= j < slash ==> p[j] == name[j - |PREFIX|];
    assert forall j :: slash < j < |p| ==> p[j] == suffix[1..][j - slash - 1];
    if HasPrefix(p[i..], "shards/") {
      assert p[i + 6] == p[i..][6] == '/';
      assert i != 0 by { assert p[i] == p[i..][0] == 's'; }
      var end := IndexFrom(p, '/', i + 7);
      assert end == slash || end == |p|;
      assert slash + 1 < |p| ==> p[slash + 1] == suffix[1];
    }
    if i < |p| {
      NoMatch(name, suffix, i + 1);
    }
  }

  lemma PrefixOfWritten(s: Shard, name: Shard, suffix: string)
    requires '/' !in s && IsSuffix(suffix) && HasPrefix(Written(name, suffix), PREFIX + s)
    ensures s <= name
  {
    var p := Written(name, suffix);
    var behind := p[|PREFIX|..];
    assert behind == name + suffix;
    assert s == (PREFIX + s)[|PREFIX|..] == behind[..|s|];
    assert forall j :: 0 <= j < |s| ==> behind[j] == s[j] && s[j] in s;
    assert suffix != "" ==> behind[|name|] == suffix[0] == '/';
    assert s == name[..|s|];
  }

  /** Which characters a prefix of a written path pins down. */
  lemma WrittenPrefix(s: Shard, name: Shard, suffix: string)
    requires '/' !in s && IsSuffix(suffix)
    ensures HasPrefix(Written(name, suffix), PREFIX + s) <==> s <= name
  {
    if HasPrefix(Written(name, suffix), PREFIX + s) {
      PrefixOfWritten(s, name, suffix);
    }
    if s <= name {
      assert name == s + name[|s|..];
      assert Written(name, suffix) == PREFIX + s + (name[|s|..] + suffix);
    }
  }

  lemma SuffixOfView(p: string)
    ensures IsSuffix(ViewOf(p).suffix)
  {
    if HasPrefix(p, PREFIX) {
      WrittenOfView(p);
    }
  }

  // ---------------------------------------------------------- matches elsewhere

  lemma {:induction false} MatchIsName(p: string, i: nat)
    requires i <= |p| && FindMatch(p, i).Some?
    ensures FindMatch(p, i).value != "" && '/' !in FindMatch(p, i).value
    ensures i + 7 + |FindMatch(p, i).value| < |p|
    decreases |p| - i
  {
    if MatchAt(p, i).None? {
      MatchIsName(p, i + 1);
    }
  }

  /** The search goes past positions without a match. */
  lemma {:induction false} MatchSkips(p: string, i: nat, j: nat)
    requires i <= j <= |p| && forall k :: i <= k < j ==> MatchAt(p, k).None?
    ensures FindMatch(p, i) == FindMatch(p, j)
    decreases j - i
  {
    if i < j {
      MatchSkips(p, i + 1, j);
    }
  }

  /** Where the old string does not begin nothing is replaced. */
  lemma {:induction false} ReplaceSkips(p: string, k: nat, old_: string, new_: string)
    requires k <= |p| && forall i :: 0 <= i < k ==> !HasPrefix(p[i..], old_)
    ensures ReplaceFirst(p, old_, new_) == p[..k] + ReplaceFirst(p[k..], old_, new_)
    decreases k
  {
    if k == 0 {
      assert p[0..] == p;
    } else {
      ReplaceSkips(p, k - 1, old_, new_);
      var back := p[k - 1..];
      assert !HasPrefix(back, old_) && back[0] == p[k - 1] && back[1..] == p[k..];
      assert p[..k] == p[..k - 1] + [p[k - 1]];
    }
  }

  /** A replacement at the front glues the new name to what follows. */
  lemma GluedName(p: string, s: Shard, rest: string)
    requires IsSegment(s) && p == PREFIX + s + rest && rest != "" && rest[0] != '/'
    ensures ProperPrefix(s, ViewOf(p).shard)
  {
    var end := IndexFrom(p, '/', |PREFIX|);
    var behind := p[|PREFIX|..];
    assert behind == s + rest;
    assert forall j :: |PREFIX| <= j < |p| ==> p[j] == behind[j - |PREFIX|];
    assert forall j :: 0 <= j < |s| ==> behind[j] == s[j];
    assert behind[|s|] == rest[0];
    assert end > |PREFIX| + |s|;
    assert p[|PREFIX|..end][..|s|] == behind[..|s|] == s;
  }

  /** `path.Join` drops the segments that name no directory. */
  lemma PathOfDot()
    ensures PathOf(".") == "/shards"
  {
    SplitWhole(".", '/');
    var segments := ["shards", "."];
    assert ["shards"] + ["."] == segments && segments[1..] == ["."] && ["."][1..] == [];
    assert [] + ["shards"] == ["shards"];
    assert CleanSegments(["."], ["shards"]) == CleanSegments([], ["shards"]);
    assert CleanSegments(segments, []) == CleanSegments(["."], ["shards"]);
    assert Join(["shards"], "/") == "shards";
  }

  lemma PathOfDotDot()
    ensures PathOf("..") == "/"
  {
    SplitWhole("..", '/');
    var segments := ["shards", ".."];
    assert ["shards"] + [".."] == segments && segments[1..] == [".."] && [".."][1..] == [];
    assert [] + ["shards"] == ["shards"] && ["shards"][..0] == [];
    assert CleanSegments([".."], ["shards"]) == CleanSegments([], []);
    assert CleanSegments(segments, []) == CleanSegments([".."], ["shards"]);
  }

  /** Where the slashes are in the front of a written path. */
  lemma SlashesOfWritten(name: Shard, suffix: string, i: nat)
    requires '/' !in name && i < |PREFIX| + |name|
    ensures Written(name, suffix)[i] == '/' <==> i == 0 || i == 7
  {
    var front := PREFIX + name;
    assert Written(name, suffix)[i] == front[i];
    assert i >= |PREFIX| ==> front[i] == name[i - |PREFIX|] && name[i - |PREFIX|] in name;
  }

  /** If the match overlaps the front of the path from its second slash on, the shard
      is called like the prefix. */
  lemma OverlapIsShards(name: Shard, suffix: string, other: Shard)
    requires '/' !in name && IsSuffix(suffix) && suffix != ""
    requires HasPrefix(Written(name, suffix)[7..], PREFIX + other)
    ensures name == "shards"
  {
    var p := Written(name, suffix);
    var behind := p[7..];
    assert behind == "/" + name + suffix;
    assert behind[..8] == (PREFIX + other)[..8] == PREFIX;
    assert behind[1 + |name|] == suffix[0] == '/';
    assert forall j :: 1 <= j < 1 + |name| ==> behind[j] == name[j - 1] && name[j - 1] in name;
    assert behind[7] == behind[..8][7] == '/';
    assert forall j :: 1 <= j < 7 ==> behind[j] == behind[..8][j] && PREFIX[j] != '/';
    assert |name| == 6;
    assert name == behind[1..7] == behind[..8][1..7];
  }

  lemma NameAfterShards(s: Shard, rest: string)
    ensures "/shards" + (PREFIX + s + rest) == Written("shards", "/" + s + rest)
  {
    assert "/shards" + PREFIX == PREFIX + "shards" + "/";
  }

  lemma OverlapStays(suffix: string, other: Shard, s: Shard)
    requires IsSegment(other) && IsSegment(s) && IsSuffix(suffix) && suffix != ""
    requires !HasPrefix(Written("shards", suffix), PREFIX + other)
    requires HasPrefix(Written("shards", suffix)[7..], PREFIX + other)
    ensures ViewOf(ReplaceFirst(Written("shards", suffix), PREFIX + other, PREFIX + s)).shard == Some("shards")
  {
    var p, old_, new_ := Written("shards", suffix), PREFIX + other, PREFIX + s;
    var front, back := p[..7], p[7..];
    assert p == front + back && old_[0] == '/';
    forall i | 0 <= i < 7 ensures !HasPrefix(p[i..], old_) {
      SlashesOfWritten("shards", suffix, i);
      assert p[i..][0] == p[i];
      assert i == 0 ==> p[i..] == p;
    }
    ReplaceSkips(p, 7, old_, new_);
    assert front == "/shards";
    var rest := back[|old_|..];
    NameAfterShards(s, rest);
    ViewOfWritten("shards", "/" + s + rest);
  }

  /** A match of another name that is not the start of the shard segment leaves the
      shard segment alone. */
  lemma OtherMatchStays(name: Shard, suffix: string, other: Shard, s: Shard)
    requires IsSegment(name) && IsSegment(other) && IsSegment(s) && IsSuffix(suffix) && suffix != ""
    requires !HasPrefix(Written(name, suffix), PREFIX + other)
    ensures ViewOf(ReplaceFirst(Written(name, suffix), PREFIX + other, PREFIX + s)).shard == Some(name)
  {
    var p, old_, new_ := Written(name, suffix), PREFIX + other, PREFIX + s;
    assert old_[0] == '/';
    if HasPrefix(p[7..], old_) {
      OverlapIsShards(name, suffix, other);
      OverlapStays(suffix, other, s);
    } else {
      forall i | 0 <= i < |PREFIX + name| ensures !HasPrefix(p[i..], old_) {
        SlashesOfWritten(name, suffix, i);
        assert p[i..][0] == p[i];
        assert i == 0 ==> p[i..] == p;
      }
      ReplaceSkips(p, |PREFIX + name|, old_, new_);
      assert p[..|PREFIX + name|] == PREFIX + name && p[|PREFIX + name|..] == suffix;
      ViewOfWritten(name, ReplaceFirst(suffix, old_, new_));
    }
  }

  // --------------------------------------------------------- the whole rewriting

  /** If the regular expression finds another name, the new one does not get there. */
  lemma OtherMatchMisses(name: Shard, suffix: string, other: Shard, s: Shard)
    requires IsSegment(name) && IsSegment(s) && IsSuffix(suffix) && suffix != "" && !(s <= name)
    requires other != name && other != "" && '/' !in other
    ensures ViewOf(ReplaceFirst(Written(name, suffix), PathOf(other), PathOf(s))) != View(Some(s), suffix)
  {
    var p := Written(name, suffix);
    var out := ReplaceFirst(p, PathOf(other), PathOf(s));
    PathOfSegment(s);
    if other == "." {
      PathOfDot();
      assert out == Written(s, "/" + name + suffix) by {
        assert p == "/shards" + ("/" + name + suffix);
      }
      ViewOfWritten(s, "/" + name + suffix);
    } else if other == ".." {
      PathOfDotDot();
      assert p[0] == '/' && p[1] == 's';
      GluedName(out, s, p[1..]);
    } else {
      PathOfSegment(other);
      WrittenPrefix(other, name, suffix);
      if other <= name {
        var rest := p[|PREFIX + other|..];
        assert rest[0] == p[|PREFIX + other|] == name[|other|] && name[|other|] in name;
        GluedName(out, s, rest);
      } else {
        OtherMatchStays(name, suffix, other, s);
      }
    }
  }

  /** Without a resource path, or with one that the dot cannot match, the regular
      expression finds the name where it should. */
  lemma FindsWithoutNewline(name: Shard, suffix: string)
    requires IsSegment(name) && IsSuffix(suffix) && DotMatches(suffix)
    ensures Finds(name, suffix)
  {
    if |suffix| > 1 {
      MatchFindsName(name, suffix);
    }
  }

  lemma RewriteFound(name: Shard, suffix: string, s: Shard)
    requires IsSegment(name) && IsSegment(s) && IsSuffix(suffix) && !(s <= name) && Finds(name, suffix)
    ensures ShardInPath(Written(name, suffix), s) == Written(s, suffix)
  {
    var p := Written(name, suffix);
    PathOfSegment(s);
    PathOfSegment(name);
    WrittenPrefix(s, name, suffix);
    if |suffix| > 1 {
      assert p[|PREFIX + name|..] == suffix;
    } else {
      NoMatch(name, suffix, 0);
      assert suffix == "" ==> p[|p| - 1] == name[|name| - 1];
    }
  }

  lemma RewriteMissed(name: Shard, suffix: string, s: Shard)
    requires IsSegment(name) && IsSegment(s) && IsSuffix(suffix) && !(s <= name) && !Finds(name, suffix)
    ensures ViewOf(ShardInPath(Written(name, suffix), s)) != View(Some(s), suffix)
  {
    var p := Written(name, suffix);
    PathOfSegment(s);
    WrittenPrefix(s, name, suffix);
    assert HasPrefix(p, "/shards");
    match FindMatch(p, 0)
    case None =>
      ViewOfWritten(s, if p[|p| - 1] == '/' then "/" else "");
    case Some(other) =>
      MatchIsName(p, 0);
      OtherMatchMisses(name, suffix, other, s);
  }

  /** The law of rewriting behind any shard segment, with any resource path. */
  lemma RewriteNamedIff(name: Shard, suffix: string, s: Shard)
    requires IsSegment(name) && IsSegment(s) && IsSuffix(suffix)
    ensures ViewOf(ShardInPath(Written(name, suffix), s)) == View(Some(s), suffix) <==>
      s == name || (!(s <= name) && Finds(name, suffix))
    ensures s <= name ==> ShardInPath(Written(name, suffix), s) == Written(name, suffix)
    ensures !(s <= name) && Finds(name, suffix) ==> ShardInPath(Written(name, suffix), s) == Written(s, suffix)
  {
    if s <= name {
      PathOfSegment(s);
      WrittenPrefix(s, name, suffix);
      ViewOfWritten(name, suffix);
    } else if Finds(name, suffix) {
      RewriteFound(name, suffix, s);
      ViewOfWritten(s, suffix);
    } else {
      RewriteMissed(name, suffix, s);
    }
  }

  /** What the rewriting makes of a well-formed path: the new name in front of the
      resource path where it reaches, the path as it was where it stops short. */
  lemma RewriteExact(p: string, s: Shard)
    requires WellFormed(p) && IsSegment(s)
    ensures Reaches(p, s) ==> ShardInPath(p, s) == Written(s, ViewOf(p).suffix)
    ensures ProperPrefix(s, ViewOf(p).shard) ==> ShardInPath(p, s) == p
  {
    if HasPrefix(p, "/shards") {
      WrittenOfView(p);
      RewriteNamedIff(ViewOf(p).shard.value, ViewOf(p).suffix, s);
    } else {
      PathOfSegment(s);
      assert HasPrefix(PREFIX + s, "/shards");
    }
  }

  // ------------------------------------------------------------------- lens laws

  /** The rewritten path names the new shard and keeps the resource path exactly if
      the rewriting reaches. */
  lemma RewriteRoutesIff(p: string, s: Shard)
    requires WellFormed(p) && IsSegment(s)
    ensures ViewOf(ShardInPath(p, s)) == View(Some(s), ViewOf(p).suffix) <==> Reaches(p, s)
  {
    SuffixOfView(p);
    if HasPrefix(p, "/shards") {
      WrittenOfView(p);
      RewriteNamedIff(ViewOf(p).shard.value, ViewOf(p).suffix, s);
    } else {
      RewriteExact(p, s);
      ViewOfWritten(s, ViewOf(p).suffix);
    }
  }

  /** Unless the resource path starts with a newline, it is kept in any case, and the
      new shard is reached exactly unless it is a proper prefix of the one there. */
  lemma RewriteWithoutNewline(p: string, s: Shard)
    requires WellFormed(p) && IsSegment(s) && DotMatches(ViewOf(p).suffix)
    ensures Reaches(p, s) <==> !ProperPrefix(s, ViewOf(p).shard)
    ensures ViewOf(ShardInPath(p, s)).suffix == ViewOf(p).suffix
  {
    SuffixOfView(p);
    if ViewOf(p).shard.Some? {
      FindsWithoutNewline(ViewOf(p).shard.value, ViewOf(p).suffix);
    }
    RewriteExact(p, s);
    RewriteRoutesIff(p, s);
  }

  /** Rewriting with the shard that is there already changes nothing. */
  lemma RewriteWithOwn(p: string)
    requires WellFormed(p) && ViewOf(p).shard.Some?
    ensures ShardInPath(p, ViewOf(p).shard.value) == p
  {
    WrittenOfView(p);
    RewriteExact(p, ViewOf(p).shard.value);
  }

  /** Rewriting again with the same shard changes nothing, if the first rewriting
      reached, stopped short or found no match. */
  lemma RewriteTwice(p: string, s: Shard)
    requires WellFormed(p) && IsSegment(s)
    requires Reaches(p, s) || ProperPrefix(s, ViewOf(p).shard) || FindMatch(p, 0) == None
    ensures ShardInPath(ShardInPath(p, s), s) == ShardInPath(p, s)
  {
    SuffixOfView(p);
    PathOfSegment(s);
    if Reaches(p, s) {
      RewriteExact(p, s);
      WrittenPrefix(s, s, ViewOf(p).suffix);
    } else if ProperPrefix(s, ViewOf(p).shard) {
      RewriteExact(p, s);
    }
  }

  /** Of two rewritings that each reach, the later wins exactly when it also reaches
      on top of the earlier. */
  lemma RewriteThenRewrite(p: string, s: Shard, t: Shard)
    requires WellFormed(p) && IsSegment(s) && IsSegment(t) && Reaches(p, s) && Reaches(p, t)
    ensures ShardInPath(ShardInPath(p, s), t) == ShardInPath(p, t) <==>
      t == s || (!(t <= s) && Finds(s, ViewOf(p).suffix))
    ensures DotMatches(ViewOf(p).suffix) ==> (ShardInPath(ShardInPath(p, s), t) == ShardInPath(p, t) <==> !(t < s))
  {
    var suffix := ViewOf(p).suffix;
    RewriteExact(p, s);
    RewriteExact(p, t);
    SuffixOfView(p);
    ViewOfWritten(t, suffix);
    RewriteNamedIff(s, suffix, t);
    if DotMatches(suffix) {
      FindsWithoutNewline(s, suffix);
    }
  }

  // ------------------------------------------- where rewriting twice goes further

  const TWIST_FRONT := "/shards/a/\n"
  const TWIST_TAIL := "q/\n/shards/x/y"

  /** A well-formed path in which the regular expression finds the `x` at the end.
      With `x` in the middle too, the text of that match's path begins earlier. */
  function Twisted(c: char): string {
    TWIST_FRONT + (PREFIX + [c] + TWIST_TAIL)
  }

  lemma TwistedSlashes(c: char, i: nat)
    requires c != '/' && i < 34
    ensures |Twisted(c)| == 34
    ensures Twisted(c)[i] == '/' <==> i in {0, 7, 9, 11, 18, 21, 23, 30, 32}
    ensures Twisted(c)[10] == Twisted(c)[22] == '\n' && Twisted(c)[8] == 'a' && Twisted(c)[19] == c
  {
    assert Twisted(c) == "/shards/a/\n/shards/" + [c] + "q/\n/shards/x/y";
  }

  lemma TwistedOccurs(c: char, i: nat)
    requires (c == 'x' || c == 'c') && i < 34 && HasPrefix(Twisted(c)[i..], PREFIX + "x")
    ensures i == 23 || (i == 11 && c == 'x')
  {
    var p := Twisted(c);
    TwistedSlashes(c, i);
    assert p[i] == p[i..][0] == '/' && p[i + 1] == p[i..][1] == 's' && p[i + 8] == p[i..][8] == 'x';
  }

  lemma TwistedNoMatch(c: char, k: nat)
    requires c != '/' && k < 24
    ensures |Twisted(c)| == 34 && MatchAt(Twisted(c), k).None?
  {
    var p := Twisted(c);
    assert p == "/shards/a/\n/shards/" + [c] + "q/\n/shards/x/y";
    assert p[9] == '/' && p[10] == '\n' && p[21] == '/' && p[22] == '\n';
    if HasPrefix(p[k..], "shards/") {
      assert p[k] == p[k..][0] == 's' && p[k + 6] == p[k..][6] == '/' && p[k + 1] == p[k..][1] == 'h';
      assert k == 1 || k == 12;
      assert k == 1 ==> IndexFrom(p, '/', 8) == 9;
      assert k == 12 ==> IndexFrom(p, '/', 19) == 21;
    }
  }

  lemma TwistedLastMatch(c: char)
    requires c != '/'
    ensures |Twisted(c)| == 34 && MatchAt(Twisted(c), 24) == Some("x")
  {
    var p := Twisted(c);
    var back := "shards/x/y";
    assert p == "/shards/a/\n/shards/" + [c] + "q/\n/" + back;
    assert p[24..] == back;
    assert p[31] == back[7] && p[32] == back[8] && p[33] == back[9];
    assert IndexFrom(p, '/', 31) == 32;
    assert p[31..32] == "x";
  }

  lemma TwistedMatch(c: char)
    requires c != '/'
    ensures FindMatch(Twisted(c), 0) == Some("x")
  {
    TwistedLastMatch(c);
    forall k: nat | 0 <= k < 24 ensures MatchAt(Twisted(c), k).None? {
      TwistedNoMatch(c, k);
    }
    MatchSkips(Twisted(c), 0, 24);
  }

  lemma TwistedReplaced(c: char, k: nat)
    requires (c == 'x' && k == 11) || (c == 'c' && k == 23)
    ensures |Twisted(c)| == 34
    ensures ReplaceFirst(Twisted(c), PREFIX + "x", PREFIX + "c") ==
      Twisted(c)[..k] + ReplaceFirst(Twisted(c)[k..], PREFIX + "x", PREFIX + "c")
  {
    var p := Twisted(c);
    TwistedSlashes(c, k);
    forall i: nat | 0 <= i < k ensures !HasPrefix(p[i..], PREFIX + "x") {
      if HasPrefix(p[i..], PREFIX + "x") {
        TwistedOccurs(c, i);
        assert false;
      }
    }
    ReplaceSkips(p, k, PREFIX + "x", PREFIX + "c");
  }

  lemma TwistedView(c: char)
    requires c != '/'
    ensures WellFormed(Twisted(c)) && FindMatch(Twisted(c), 0) == Some("x")
    ensures ShardInPath(Twisted(c), "c") == ReplaceFirst(Twisted(c), PREFIX + "x", PREFIX + "c")
  {
    var suffix := "/\n" + (PREFIX + [c] + TWIST_TAIL);
    assert TWIST_FRONT == PREFIX + "a" + "/\n";
    assert Twisted(c) == Written("a", suffix);
    TwistedMatch(c);
    ViewOfWritten("a", suffix);
    PathOfSegment("c");
    PathOfSegment("x");
    WrittenPrefix("c", "a", suffix);
    assert HasPrefix(Twisted(c), "/shards");
  }

  lemma TwistedOnce()
    ensures ShardInPath(Twisted('x'), "c") == Twisted('c')
  {
    TwistedMatch('x');
    TwistedView('x');
    TwistedReplaced('x', 11);
    var back := PREFIX + "x" + TWIST_TAIL;
    assert Twisted('x')[..11] == TWIST_FRONT && Twisted('x')[11..] == back;
    assert back[9..] == TWIST_TAIL;
  }

  lemma TwistedBack()
    ensures |Twisted('c')| == 34 && Twisted('c')[23..] == PREFIX + ("x" + "/y")
  {
    assert Twisted('c') == "/shards/a/\n/shards/cq/\n" + "/shards/x/y";
    assert "/shards/x/y" == PREFIX + ("x" + "/y");
  }

  lemma ReplacedAtFront(front: string, old_: string, new_: string, tail: string)
    requires old_ != new_ && |old_| == |new_|
    ensures front + ReplaceFirst(old_ + tail, old_, new_) != front + (old_ + tail)
  {
    var p, out := old_ + tail, new_ + tail;
    assert p[|old_|..] == tail;
    assert ReplaceFirst(p, old_, new_) == out;
    assert p[..|old_|] == old_ && out[..|old_|] == new_;
    assert (front + p)[|front|..] == p && (front + out)[|front|..] == out;
  }

  lemma XIsNotC()
    ensures PREFIX + "x" != PREFIX + "c" && |PREFIX + "x"| == |PREFIX + "c"|
    ensures (PREFIX + "x") + "/y" == PREFIX + ("x" + "/y")
  {
    assert (PREFIX + "x")[8] == 'x' && (PREFIX + "c")[8] == 'c';
  }

  lemma TwistedTwice()
    ensures ShardInPath(Twisted('c'), "c") != Twisted('c')
  {
    var p := Twisted('c');
    TwistedBack();
    TwistedView('c');
    TwistedReplaced('c', 23);
    XIsNotC();
    ReplacedAtFront(p[..23], PREFIX + "x", PREFIX + "c", "/y");
    assert p == p[..23] + p[23..];
  }

  /** Rewriting twice is not rewriting once when the match is neither the shard
      segment nor the first text that begins like its path. */
  lemma RewriteTwiceFails()
    ensures exists p, s :: WellFormed(p) && IsSegment(s) && ShardInPath(ShardInPath(p, s), s) != ShardInPath(p, s)
  {
    TwistedView('x');
    TwistedOnce();
    TwistedTwice();
    assert WellFormed(Twisted('x')) && IsSegment("c");
  }

  // ------------------------------------------------------- outside those paths

  /** The path starts with /shards, but that is not its first segment, or all of it. */
  predicate StartsLikeShards(p: string) {
    HasPrefix(p, "/shards") && !HasPrefix(p, PREFIX)
  }

  /** Such a path goes on after /shards within its first segment. */
  lemma FirstSegmentIsLonger(p: string)
    requires StartsLikeShards(p) && |p| > 7
    ensures p[7] != '/' && p == "/shards" + p[7..] && IndexFrom(p, '/', 1) >= 8
  {
    var front := p[..7];
    assert front == "/shards";
    assert forall i :: 0 <= i < 7 ==> p[i] == front[i];
    assert PREFIX == "/shards" + "/" && p[..8] == front + [p[7]];
    assert IndexFrom(p, '/', 1) < |p| ==> p[IndexFrom(p, '/', 1)] == '/';
  }

  lemma FirstSegmentStays(p: string, name: Shard, s: Shard)
    requires StartsLikeShards(p) && |p| > 7 && IsSegment(name)
    ensures ViewOf(ReplaceFirst(p, PathOf(name), PathOf(s))).shard == None
    ensures HasPrefix(ReplaceFirst(p, PathOf(name), PathOf(s)), p[..IndexFrom(p, '/', 1)])
  {
    var k := IndexFrom(p, '/', 1);
    var old_ := PREFIX + name;
    PathOfSegment(name);
    FirstSegmentIsLonger(p);
    assert old_[0] == '/' && old_[7] == '/';
    forall i | 0 <= i < k ensures !HasPrefix(p[i..], old_) {
      assert p[i..][0] == p[i];
      assert i == 0 ==> p[i..][7] == p[7];
    }
    ReplaceSkips(p, k, old_, PathOf(s));
    var out := ReplaceFirst(p, old_, PathOf(s));
    assert out[..k] == p[..k];
    assert out[7] == out[..k][7] == p[7];
  }

  /** A dot segment is cleaned away, so that the front of the path is replaced. */
  lemma DotIsGlued(p: string, name: Shard, s: Shard)
    requires StartsLikeShards(p) && |p| > 7 && IsSegment(s) && (name == "." || name == "..")
    ensures ProperPrefix(s, ViewOf(ReplaceFirst(p, PathOf(name), PathOf(s))).shard)
  {
    PathOfSegment(s);
    FirstSegmentIsLonger(p);
    var out := ReplaceFirst(p, PathOf(name), PathOf(s));
    if name == "." {
      PathOfDot();
      GluedName(out, s, p[7..]);
    } else {
      PathOfDotDot();
      GluedName(out, s, p[1..]);
    }
  }

  /** What the rewriting makes of such a path. */
  lemma LongerFirstSegmentCases(p: string, s: Shard)
    requires StartsLikeShards(p) && IsSegment(s)
    ensures ShardInPath(p, s) ==
      match FindMatch(p, 0)
      case Some(name) => ReplaceFirst(p, PathOf(name), PathOf(s))
      case None => PREFIX + s + (if p[|p| - 1] == '/' then "/" else "")
    ensures FindMatch(p, 0).Some? ==> |p| > 7
  {
    PathOfSegment(s);
    assert HasPrefix(PREFIX + s, PREFIX);
    if FindMatch(p, 0).Some? {
      MatchIsName(p, 0);
    }
  }

  /** Paths that start with /shards in a longer first segment, or are /shards: the
      rewriting reaches the shard exactly if it finds no match, and then the
      resource path is lost. If it finds one, further back, that is what it
      rewrites: the first segment stays in front and the request names no shard,
      or, for a match of a dot segment, the name is glued to other characters. */
  lemma LongerFirstSegment(p: string, s: Shard)
    requires StartsLikeShards(p) && IsSegment(s)
    ensures ViewOf(ShardInPath(p, s)).shard == Some(s) <==> FindMatch(p, 0) == None
    ensures FindMatch(p, 0) == None ==> ShardInPath(p, s) == PREFIX + s + (if p[|p| - 1] == '/' then "/" else "")
    ensures FindMatch(p, 0).Some? && IsSegment(FindMatch(p, 0).value) ==>
      ViewOf(ShardInPath(p, s)).shard == None && HasPrefix(ShardInPath(p, s), p[..IndexFrom(p, '/', 1)])
    ensures FindMatch(p, 0).Some? && !IsSegment(FindMatch(p, 0).value) ==>
      ProperPrefix(s, ViewOf(ShardInPath(p, s)).shard)
  {
    LongerFirstSegmentCases(p, s);
    match FindMatch(p, 0)
    case None =>
      ViewOfWritten(s, if p[|p| - 1] == '/' then "/" else "");
    case Some(name) =>
      MatchIsName(p, 0);
      if IsSegment(name) {
        FirstSegmentStays(p, name, s);
      } else {
        DotIsGlued(p, name, s);
      }
  }

  /** A resource path of one segment that starts with a newline is lost. */
  lemma NewlineIsLost(name: Shard, rest: string, s: Shard)
    requires IsSegment(name) && IsSegment(s) && !(s <= name) && '/' !in rest
    ensures ShardInPath(Written(name, "/\n" + rest), s) == PREFIX + s
  {
    var suffix := "/\n" + rest;
    var p := Written(name, suffix);
    PathOfSegment(s);
    WrittenPrefix(s, name, suffix);
    assert suffix[1..] == "\n" + rest;
    NoMatch(name, suffix, 0);
    assert p[|p| - 1] == suffix[|suffix| - 1] == ("\n" + rest)[|rest|];
  }

  // -------------------------------------------------------------- round-trippers

  /** A request with the shard its context carries, "" if none. */
  class Request {
    var path: string
    var shard: Shard

    constructor (path: string, shard: Shard)
      ensures this.path == path && this.shard == shard
    {
      this.path, this.shard := path, shard;
    }
  }

  /** The shard a request is sent to: that of its context, else the default. */
  function Target(contextShard: Shard, default: Shard): Shard {
    if contextShard == "" then default else contextShard
  }

  /** The path that reaches the server for a request sent through both layers. */
  function SentPath(path: string, contextShard: Shard, default: Shard): string {
    var target := Target(contextShard, default);
    if target == "" then path else ShardInPath(path, target)
  }

  /** The inner layer: a clone with the rewritten path, the request itself if the
      context names no shard. */
  method ShardRoundTrip(req: Request) returns (sent: Request)
    ensures req.shard == "" ==> sent == req
    ensures req.shard != "" ==>
      fresh(sent) && sent.shard == req.shard && sent.path == ShardInPath(req.path, req.shard)
  {
    sent := req;
    if req.shard != "" {
      sent := new Request(req.path, req.shard);
      sent.path := ShardInPath(sent.path, req.shard);
    }
  }

  /** The outer layer over the inner one, as BuildKcpConfig stacks them. The
      caller's request is left as it was. */
  method DefaultShardRoundTrip(req: Request, defaultShard: Shard) returns (sent: Request)
    ensures sent.path == SentPath(req.path, req.shard, defaultShard)
    ensures sent.shard == Target(req.shard, defaultShard)
    ensures sent == req || fresh(sent)
  {
    var inner := req;
    if req.shard == "" {
      inner := new Request(req.path, defaultShard);
    }
    sent := ShardRoundTrip(inner);
  }

  /** With the wildcard as default, every request reaches the shard of its context,
      or the wildcard without one, with its resource path kept, exactly if the
      rewriting of its path reaches. */
  lemma SentToContextShard(path: string, contextShard: Shard)
    requires WellFormed(path) && (contextShard == "" || IsSegment(contextShard))
    ensures var target := if contextShard == "" then "*" else contextShard;
      ViewOf(SentPath(path, contextShard, WILDCARD)) == View(Some(target), ViewOf(path).suffix) <==>
        Reaches(path, target)
    ensures DotMatches(ViewOf(path).suffix) ==>
      var target := if contextShard == "" then "*" else contextShard;
      && ViewOf(SentPath(path, contextShard, WILDCARD)).suffix == ViewOf(path).suffix
      && (Reaches(path, target) <==> !ProperPrefix(target, ViewOf(path).shard))
  {
    RewriteRoutesIff(path, Target(contextShard, WILDCARD));
    if DotMatches(ViewOf(path).suffix) {
      RewriteWithoutNewline(path, Target(contextShard, WILDCARD));
    }
  }
}
