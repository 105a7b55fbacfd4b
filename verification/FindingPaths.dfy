/** The canonical list of the paths a finding affects. */
module FindingPaths {
  import opened Text
  import opened TextFacts

  function NormalizePath(path: string): string {
    TrimStartMatches(Trim(path), "./")
  }

  /** The byte order of UTF-8 strings, which is the order of their scalar values. */
  predicate Before(a: string, b: string) {
    if a == [] || b == [] then a == [] && b != []
    else a[0] < b[0] || (a[0] == b[0] && Before(a[1..], b[1..]))
  }

  function Insert(x: string, sorted: seq<string>): seq<string> {
    if sorted == [] || !Before(sorted[0], x) then [x] + sorted else [sorted[0]] + Insert(x, sorted[1..])
  }

  function Sort(values: seq<string>): seq<string> {
    if values == [] then [] else Insert(values[0], Sort(values[1..]))
  }

  /** Drops every element that equals the one before it. */
  function Dedup(values: seq<string>): seq<string> {
    if |values| <= 1 then values
    else if values[0] == values[1] then Dedup(values[1..])
    else [values[0]] + Dedup(values[1..])
  }

  function NonEmptyNormalized(paths: seq<string>): seq<string> {
    if paths == [] then []
    else
      var first := NormalizePath(paths[0]);
      if first == [] then NonEmptyNormalized(paths[1..]) else [first] + NonEmptyNormalized(paths[1..])
  }

  function NormalizedPaths(paths: seq<string>): seq<string> {
    Dedup(Sort(NonEmptyNormalized(paths)))
  }

  function PathSet(paths: seq<string>): set<string> {
    set i | 0 <= i < |paths| && NormalizePath(paths[i]) != [] :: NormalizePath(paths[i])
  }

  ghost predicate Ascending(values: seq<string>) {
    forall i, j | 0 <= i < j < |values| :: Before(values[i], values[j])
  }

  ghost predicate Ordered(values: seq<string>) {
    forall i, j | 0 <= i < j < |values| :: !Before(values[j], values[i])
  }

  // ---- the order ----

  lemma {:induction false} BeforeIsStrict(a: string, b: string)
    ensures !(Before(a, b) && Before(b, a)) && !Before(a, a)
    ensures Before(a, b) || Before(b, a) || a == b
  {
    if a != [] && b != [] {
      BeforeIsStrict(a[1..], b[1..]);
      assert a == [a[0]] + a[1..] && b == [b[0]] + b[1..];
    }
    if a != [] {
      BeforeIsStrict(a[1..], a[1..]);
    }
  }

  lemma {:induction false} BeforeTransitive(a: string, b: string, c: string)
    requires Before(a, b) && Before(b, c)
    ensures Before(a, c)
  {
    if a != [] && a[0] == b[0] == c[0] {
      BeforeTransitive(a[1..], b[1..], c[1..]);
    }
  }

  lemma NotBeforeTransitive(a: string, b: string, c: string)
    requires !Before(b, a) && !Before(c, b)
    ensures !Before(c, a)
  {
    BeforeIsStrict(a, b);
    BeforeIsStrict(b, c);
    BeforeIsStrict(a, c);
    if Before(c, a) && a != b {
      BeforeTransitive(c, a, b);
    }
  }

  // ---- sorting and removing repetitions ----

  lemma {:induction false} InsertKeeps(x: string, sorted: seq<string>)
    requires Ordered(sorted)
    ensures Ordered(Insert(x, sorted)) && multiset(Insert(x, sorted)) == multiset(sorted) + multiset{x}
  {
    if sorted == [] || !Before(sorted[0], x) {
      forall j | 0 <= j < |sorted| ensures !Before(sorted[j], x) {
        NotBeforeTransitiveHead(x, sorted, j);
      }
      OrderedCons(x, sorted);
    } else {
      var tail := sorted[1..];
      assert sorted == [sorted[0]] + tail;
      InsertKeeps(x, tail);
      NotBeforeInserted(sorted, x, Insert(x, tail));
      OrderedCons(sorted[0], Insert(x, tail));
    }
  }

  lemma OrderedCons(x: string, sorted: seq<string>)
    requires Ordered(sorted) && forall j | 0 <= j < |sorted| :: !Before(sorted[j], x)
    ensures Ordered([x] + sorted)
  {
  }

  lemma NotBeforeInserted(sorted: seq<string>, x: string, longer: seq<string>)
    requires Ordered(sorted) && sorted != [] && Before(sorted[0], x)
    requires multiset(longer) == multiset(sorted[1..]) + multiset{x}
    ensures forall j | 0 <= j < |longer| :: !Before(longer[j], sorted[0])
  {
    forall j | 0 <= j < |longer| ensures !Before(longer[j], sorted[0]) {
      assert longer[j] in multiset(longer);
      BeforeIsStrict(sorted[0], x);
      if longer[j] != x {
        var n :| 0 <= n < |sorted[1..]| && sorted[1..][n] == longer[j];
        assert sorted[n + 1] == longer[j];
      }
    }
  }

  lemma NotBeforeTransitiveHead(x: string, sorted: seq<string>, j: nat)
    requires Ordered(sorted) && j < |sorted| && !Before(sorted[0], x)
    ensures !Before(sorted[j], x)
  {
    BeforeIsStrict(x, x);
    if j > 0 {
      NotBeforeTransitive(x, sorted[0], sorted[j]);
    }
  }

  lemma {:induction false} SortSorts(values: seq<string>)
    ensures Ordered(Sort(values)) && multiset(Sort(values)) == multiset(values)
  {
    if values != [] {
      SortSorts(values[1..]);
      InsertKeeps(values[0], Sort(values[1..]));
      assert values == [values[0]] + values[1..];
    }
  }

  lemma {:induction false} DedupAscends(values: seq<string>)
    requires Ordered(values)
    ensures Ascending(Dedup(values)) && forall x :: x in Dedup(values) <==> x in values
  {
    if |values| > 1 {
      var tail := values[1..];
      assert values == [values[0]] + tail;
      DedupAscends(tail);
      if values[0] != values[1] {
        var r := Dedup(tail);
        forall j | 0 <= j < |r| ensures Before(values[0], r[j]) {
          assert r[j] in tail;
          var n :| 0 <= n < |tail| && tail[n] == r[j];
          BeforeIsStrict(values[0], values[1]);
          if n > 0 {
            assert !Before(values[n + 1], values[1]);
            BeforeIsStrict(values[1], values[n + 1]);
            if values[1] != values[n + 1] {
              BeforeTransitive(values[0], values[1], values[n + 1]);
            }
          }
        }
      }
    }
  }

  /** A set has only one strictly ascending list. */
  lemma {:induction false} AscendingIsUnique(a: seq<string>, b: seq<string>)
    requires Ascending(a) && Ascending(b) && forall x :: x in a <==> x in b
    ensures a == b
  {
    assert a != [] ==> a[0] in b;
    assert b != [] ==> b[0] in a;
    if a != [] {
      FirstIsLeast(a, b);
      assert a == [a[0]] + a[1..] && b == [b[0]] + b[1..];
      forall x ensures x in a[1..] <==> x in b[1..] {
        BeforeIsStrict(x, x);
        assert x in a[1..] ==> x != a[0] && x in b;
        assert x in b[1..] ==> x != b[0] && x in a;
      }
      AscendingIsUnique(a[1..], b[1..]);
    }
  }

  lemma FirstIsLeast(a: seq<string>, b: seq<string>)
    requires a != [] && b != [] && Ascending(a) && Ascending(b) && a[0] in b && b[0] in a
    ensures a[0] == b[0]
  {
    var i :| 0 <= i < |a| && a[i] == b[0];
    var j :| 0 <= j < |b| && b[j] == a[0];
    BeforeIsStrict(a[0], b[0]);
  }

  // ---- what the canonical list depends on ----

  lemma {:induction false} NonEmptyNormalizedHolds(paths: seq<string>)
    ensures forall x :: x in NonEmptyNormalized(paths) <==> x in PathSet(paths)
  {
    if paths != [] {
      NonEmptyNormalizedHolds(paths[1..]);
      assert paths == [paths[0]] + paths[1..];
      forall x ensures x in PathSet(paths) <==>
                       (x == NormalizePath(paths[0]) && x != []) || x in PathSet(paths[1..])
      {
        if x in PathSet(paths) {
          var i :| 0 <= i < |paths| && NormalizePath(paths[i]) != [] && NormalizePath(paths[i]) == x;
          assert i > 0 ==> paths[1..][i - 1] == paths[i];
        }
        if x in PathSet(paths[1..]) {
          var i :| 0 <= i < |paths[1..]| && NormalizePath(paths[1..][i]) != [] && NormalizePath(paths[1..][i]) == x;
          assert paths[i + 1] == paths[1..][i];
        }
      }
    }
  }

  /** The canonical list is the strictly ascending one of the set of normalised paths. */
  lemma NormalizedPathsAscend(paths: seq<string>)
    ensures Ascending(NormalizedPaths(paths))
    ensures forall x :: x in NormalizedPaths(paths) <==> x in PathSet(paths)
  {
    var values := NonEmptyNormalized(paths);
    NonEmptyNormalizedHolds(paths);
    SortSorts(values);
    DedupAscends(Sort(values));
    forall x ensures x in Sort(values) <==> x in values {
      assert x in multiset(Sort(values)) <==> x in multiset(values);
    }
  }

  /** Order, repetition and the spelling of a path do not matter, and nothing else is forgotten. */
  lemma SameListIffSameSet(a: seq<string>, b: seq<string>)
    ensures NormalizedPaths(a) == NormalizedPaths(b) <==> PathSet(a) == PathSet(b)
  {
    NormalizedPathsAscend(a);
    NormalizedPathsAscend(b);
    if PathSet(a) == PathSet(b) {
      AscendingIsUnique(NormalizedPaths(a), NormalizedPaths(b));
    }
    if NormalizedPaths(a) == NormalizedPaths(b) {
      assert forall x :: x in PathSet(a) <==> x in PathSet(b);
    }
  }

  // ---- spellings of one path ----

  lemma SurroundingBlanksDoNotMatter(w: string, path: string, v: string)
    requires Blank(w) && Blank(v)
    ensures NormalizePath(w + path + v) == NormalizePath(path)
  {
    TrimIgnoresBlanks(w, path, v);
  }

  lemma {:induction false} StrippingShortens(s: string)
    ensures |TrimStartMatches(s, "./")| <= |s|
    ensures !("./" <= TrimStartMatches(s, "./"))
  {
    if "./" <= s {
      StrippingShortens(s[2..]);
    }
  }

  /** A leading "./" does not matter exactly when no whitespace follows it, or only whitespace does. */
  lemma LeadingDotMattersIffSpaced(path: string)
    ensures NormalizePath("./" + path) == NormalizePath(path) <==> !StartsBlank(path) || Blank(path)
  {
    var dotted := "./" + path;
    assert dotted[0] == '.' && !StartsBlank(dotted);
    TrimEndOfTail("./", path);
    assert Trim(dotted) == "./" + TrimEnd(path);
    assert Trim(dotted)[2..] == TrimEnd(path);
    assert NormalizePath(dotted) == TrimStartMatches(TrimEnd(path), "./");
    if StartsBlank(path) {
      BlankIffTrimmedAway(path);
      TrimEndSplits(path);
      if Blank(path) {
        TrimEndBeforeBlank([], path);
        assert [] + path == path;
      } else {
        var kept := TrimEnd(path);
        assert path[0..] == path;
        assert kept != [];
        assert kept[0] == path[0] && !("./" <= kept);
        TrimSplitsShorter(path);
        StrippingShortens(Trim(path));
      }
    }
  }

  lemma TrimSplitsShorter(path: string)
    requires StartsBlank(path) && !Blank(path)
    ensures |Trim(path)| < |TrimEnd(path)|
  {
    var w, v := TrimSplits(path);
    BlankIffTrimmedAway(path);
    assert (w + Trim(path) + v)[|w|] == Trim(path)[0];
    assert w != [];
    assert path == (w + Trim(path)) + v;
    TrimEndBeforeBlank(w + Trim(path), v);
    TrimEndKeepsHead(w, Trim(path));
  }

  /** Whitespace right behind the leading run of "./". */
  predicate SpaceAfterDots(s: string) {
    "./" <= s && (StartsBlank(s[2..]) || SpaceAfterDots(s[2..]))
  }

  lemma {:induction false} StrippedStartsBlank(s: string)
    requires !StartsBlank(s)
    ensures StartsBlank(TrimStartMatches(s, "./")) <==> SpaceAfterDots(s)
  {
    if "./" <= s {
      if StartsBlank(s[2..]) {
        assert s[2] != '.';
      } else {
        StrippedStartsBlank(s[2..]);
      }
    }
  }

  lemma {:induction false} StrippedEndsAlike(s: string)
    requires !EndsBlank(s)
    ensures !EndsBlank(TrimStartMatches(s, "./"))
  {
    if "./" <= s {
      assert s[2..] != [] ==> s[2..][|s| - 3] == s[|s| - 1];
      StrippedEndsAlike(s[2..]);
    }
  }

  /** Normalising a path twice is normalising it once, except on spellings like "./ x". */
  lemma NormalizePathIdempotentIff(path: string)
    ensures NormalizePath(NormalizePath(path)) == NormalizePath(path) <==> !SpaceAfterDots(Trim(path))
  {
    var w, v := TrimSplits(path);
    var q := NormalizePath(path);
    StrippedStartsBlank(Trim(path));
    StrippedEndsAlike(Trim(path));
    StrippingShortens(Trim(path));
    if !StartsBlank(q) {
      assert [] + q + [] == q;
      TrimAround([], q, []);
    } else {
      StrippingShortens(Trim(q));
      TrimStartSplits(q);
      var t := TrimStart(q);
      TrimEndSplits(t);
      assert |t| < |q|;
    }
  }
}
