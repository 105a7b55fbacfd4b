/** What trimming does to joined strings. */
module TextFacts {
  import opened Text

  predicate StartsBlank(s: string) {
    s != [] && IsWhitespace(s[0])
  }

  predicate EndsBlank(s: string) {
    s != [] && IsWhitespace(s[|s| - 1])
  }

  lemma {:induction false} TrimStartSplits(s: string)
    ensures |TrimStart(s)| <= |s| && s[|s| - |TrimStart(s)|..] == TrimStart(s)
    ensures Blank(s[..|s| - |TrimStart(s)|]) && !StartsBlank(TrimStart(s))
  {
    if StartsBlank(s) {
      TrimStartSplits(s[1..]);
      var n := |s| - |TrimStart(s)|;
      forall i | 0 <= i < n ensures IsWhitespace(s[..n][i]) {
        assert i > 0 ==> s[i] == s[1..][..n - 1][i - 1];
      }
    }
  }

  lemma {:induction false} TrimEndSplits(s: string)
    ensures TrimEnd(s) <= s && Blank(s[|TrimEnd(s)|..]) && !EndsBlank(TrimEnd(s))
  {
    if EndsBlank(s) {
      var front := s[..|s| - 1];
      TrimEndSplits(front);
      forall i | |TrimEnd(s)| <= i < |s| ensures IsWhitespace(s[i]) {
        assert i < |front| ==> s[i] == front[|TrimEnd(s)|..][i - |TrimEnd(s)|];
      }
    }
  }

  /** Blank text around a string does not matter, and the rest starts and ends with something else. */
  lemma {:induction false} TrimStartAfterBlank(w: string, s: string)
    requires Blank(w)
    ensures TrimStart(w + s) == TrimStart(s)
  {
    if w == [] {
      assert w + s == s;
    } else {
      assert (w + s)[1..] == w[1..] + s;
      assert IsWhitespace(w[0]);
      forall i | 0 <= i < |w[1..]| ensures IsWhitespace(w[1..][i]) {
        assert w[1..][i] == w[i + 1];
      }
      TrimStartAfterBlank(w[1..], s);
    }
  }

  lemma {:induction false} TrimEndBeforeBlank(s: string, w: string)
    requires Blank(w)
    ensures TrimEnd(s + w) == TrimEnd(s)
  {
    if w == [] {
      assert s + w == s;
    } else {
      var front := w[..|w| - 1];
      assert (s + w)[..|s + w| - 1] == s + front;
      assert IsWhitespace((s + w)[|s + w| - 1]);
      TrimEndBeforeBlank(s, front);
    }
  }

  /** Trimming the end leaves the start of a string alone when something is left. */
  lemma TrimEndKeepsHead(a: string, b: string)
    requires !EndsBlank(b) && b != []
    ensures TrimEnd(a + b) == a + b
  {
    assert (a + b)[|a + b| - 1] == b[|b| - 1];
  }

  lemma {:induction false} TrimEndOfTail(a: string, b: string)
    requires !EndsBlank(a)
    ensures TrimEnd(a + b) == a + TrimEnd(b)
  {
    TrimEndSplits(b);
    var kept, blank := TrimEnd(b), b[|TrimEnd(b)|..];
    assert a + b == a + kept + blank;
    TrimEndBeforeBlank(a + kept, blank);
    if kept == [] {
      assert a + kept == a;
    } else {
      TrimEndKeepsHead(a, kept);
    }
  }

  lemma TrimStartOfBlank(w: string)
    requires Blank(w)
    ensures TrimStart(w) == []
  {
    TrimStartAfterBlank(w, []);
    assert w + [] == w;
  }

  /** Trimming in the other order gives the same. */
  lemma TrimAround(w: string, s: string, v: string)
    requires Blank(w) && Blank(v) && !StartsBlank(s) && !EndsBlank(s)
    ensures Trim(w + s + v) == s
  {
    assert w + s + v == w + (s + v);
    TrimStartAfterBlank(w, s + v);
    if s == [] {
      assert s + v == v;
      TrimStartOfBlank(v);
    } else {
      assert (s + v)[0] == s[0];
      TrimEndBeforeBlank(s, v);
    }
  }

  lemma ThreeParts(s: string, w: string, t: string, u: string, v: string)
    requires s == w + t && t == u + v
    ensures s == w + u + v
  {
  }

  lemma TrimEndLeaves(t: string) returns (v: string)
    ensures t == TrimEnd(t) + v && Blank(v) && !EndsBlank(TrimEnd(t))
    ensures !StartsBlank(t) ==> !StartsBlank(TrimEnd(t)) && (TrimEnd(t) == [] ==> v == [])
  {
    TrimEndSplits(t);
    v := t[|TrimEnd(t)|..];
    assert v != [] ==> IsWhitespace(v[0]);
  }

  /** Every string is a trimmed one between two blank ones. */
  lemma TrimSplits(s: string) returns (w: string, v: string)
    ensures s == w + Trim(s) + v && Blank(w) && Blank(v)
    ensures !StartsBlank(Trim(s)) && !EndsBlank(Trim(s))
    ensures Trim(s) == [] ==> v == []
  {
    TrimStartSplits(s);
    var t := TrimStart(s);
    w := s[..|s| - |t|];
    v := TrimEndLeaves(t);
    ThreeParts(s, w, t, TrimEnd(t), v);
  }

  lemma TrimIgnoresBlanks(w: string, s: string, v: string)
    requires Blank(w) && Blank(v)
    ensures Trim(w + s + v) == Trim(s)
  {
    var a, b := TrimSplits(s);
    assert w + s + v == (w + a) + Trim(s) + (b + v);
    TrimAround(w + a, Trim(s), b + v);
  }

  lemma TrimIdempotent(s: string)
    ensures Trim(Trim(s)) == Trim(s)
  {
    var a, b := TrimSplits(s);
    TrimAround([], Trim(s), []);
    assert [] + Trim(s) + [] == Trim(s);
  }

  lemma BlankIffTrimmedAway(s: string)
    ensures Trim(s) == [] <==> Blank(s)
  {
    var a, b := TrimSplits(s);
    if Blank(s) {
      TrimStartOfBlank(s);
    }
  }
}
