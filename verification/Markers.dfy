/** Reading an agent's result from between two markers in its output. */
module Markers {
  import opened Text
  import opened TextFacts

  const DAILY_BRIEF_BEGIN := "DAILY_BRIEF_RESULT_JSON_BEGIN"
  const DAILY_BRIEF_END := "DAILY_BRIEF_RESULT_JSON_END"
  const DATADOG_BEGIN := "DATADOG_PATROL_RESULT_JSON_BEGIN"
  const DATADOG_END := "DATADOG_PATROL_RESULT_JSON_END"
  const REPO_HEALTH_BEGIN := "REPO_HEALTH_PATROL_RESULT_JSON_BEGIN"
  const REPO_HEALTH_END := "REPO_HEALTH_PATROL_RESULT_JSON_END"

  predicate OccursAt(s: string, m: string, i: int) {
    0 <= i && i + |m| <= |s| && s[i..i + |m|] == m
  }

  predicate Occurs(s: string, m: string) {
    exists i | 0 <= i <= |s| :: OccursAt(s, m, i)
  }

  /** Rust's `str::find`: the first index, or -1. */
  function Find(s: string, m: string): int {
    if m <= s then 0
    else if s == [] then -1
    else
      var i := Find(s[1..], m);
      if i < 0 then -1 else i + 1
  }

  /** Rust's `str::split_once`. */
  function SplitOnce(s: string, m: string): Option<(string, string)> {
    if m <= s then Some(([], s[|m|..]))
    else if s == [] then None
    else
      match SplitOnce(s[1..], m)
      case None => None
      case Some(parts) => Some(([s[0]] + parts.0, parts.1))
  }

  lemma OccursInTail(s: string, m: string, i: int)
    requires 0 < i <= |s|
    ensures OccursAt(s, m, i) <==> OccursAt(s[1..], m, i - 1)
  {
    if i + |m| <= |s| {
      assert s[1..][i - 1..i - 1 + |m|] == s[i..i + |m|];
    }
  }

  lemma {:induction false} FindIsFirst(s: string, m: string)
    ensures Find(s, m) < 0 ==> !Occurs(s, m)
    ensures Find(s, m) >= 0 ==> OccursAt(s, m, Find(s, m)) && forall i | 0 <= i < Find(s, m) :: !OccursAt(s, m, i)
  {
    assert OccursAt(s, m, 0) <==> m <= s;
    if !(m <= s) && s != [] {
      FindIsFirst(s[1..], m);
      forall i | 0 < i <= |s| ensures OccursAt(s, m, i) <==> OccursAt(s[1..], m, i - 1) {
        OccursInTail(s, m, i);
      }
    }
  }

  /** The find-based extractor of the repository sweep. */
  function ExtractByFind(output: string, begin: string, end: string): Option<string> {
    FindIsFirst(output, begin);
    var start := Find(output, begin);
    if start < 0 then None
    else
      var afterStart := output[start + |begin|..];
      FindIsFirst(afterStart, end);
      var stop := Find(afterStart, end);
      if stop < 0 then None
      else
        var json := Trim(afterStart[..stop]);
        if json == "" then None else Some(json)
  }

  /** The split-based extractor of the daily brief and the Datadog patrol. */
  function ExtractBySplit(output: string, begin: string, end: string): Option<string> {
    match SplitOnce(output, begin)
    case None => None
    case Some(outer) =>
      match SplitOnce(outer.1, end)
      case None => None
      case Some(inner) => if Trim(inner.0) == "" then None else Some(Trim(inner.0))
  }

  lemma {:induction false} SplitsWhereFound(s: string, m: string)
    ensures Find(s, m) + |m| <= |s| || Find(s, m) < 0
    ensures SplitOnce(s, m) == if Find(s, m) < 0 then None else Some((s[..Find(s, m)], s[Find(s, m) + |m|..]))
  {
    if !(m <= s) && s != [] {
      SplitsWhereFound(s[1..], m);
      var i := Find(s, m);
      if i >= 0 {
        assert s[..i] == [s[0]] + s[1..][..i - 1];
      }
    }
  }

  /** The two ways of extracting succeed on the same outputs with the same result. */
  lemma ExtractorsAgree(output: string, begin: string, end: string)
    ensures ExtractByFind(output, begin, end) == ExtractBySplit(output, begin, end)
  {
    SplitsWhereFound(output, begin);
    if Find(output, begin) >= 0 {
      SplitsWhereFound(output[Find(output, begin) + |begin|..], end);
    }
  }

  // ---- extraction inverts wrapping ----

  /** No proper prefix of the marker is also a suffix of it. */
  ghost predicate Unbordered(m: string) {
    forall k | 0 < k < |m| :: m[..k] != m[|m| - k..]
  }

  /** An occurrence before its place lies in the text before it, or overlaps the marker by a border. */
  lemma EarlyOccurrence(noise: string, m: string, tail: string, i: nat)
    requires i < |noise| && OccursAt(noise + m + tail, m, i)
    ensures Occurs(noise, m) || !Unbordered(m)
  {
    var s := noise + m + tail;
    if i + |m| <= |noise| {
      assert noise[i..i + |m|] == s[i..i + |m|];
      assert OccursAt(noise, m, i);
    } else {
      var k := i + |m| - |noise|;
      assert s[i..i + |m|][|m| - k..] == s[|noise|..|noise| + k];
      assert m[..k] == s[|noise|..|noise| + k];
      assert m[..k] == m[|m| - k..];
    }
  }

  /** Behind text without it, an unbordered marker is found where it was put. */
  lemma UnborderedIsFoundInPlace(noise: string, m: string, tail: string)
    requires Unbordered(m) && m != [] && !Occurs(noise, m)
    ensures Find(noise + m + tail, m) == |noise|
  {
    var s := noise + m + tail;
    assert OccursAt(s, m, |noise|);
    forall i | 0 <= i < |noise| ensures !OccursAt(s, m, i) {
      if OccursAt(s, m, i) {
        EarlyOccurrence(noise, m, tail, i);
      }
    }
    FindIsFirst(s, m);
  }

  /** A bordered marker can be found too early: behind its own unfinished copy it reads as starting with that copy. */
  lemma BorderedIsFoundTooEarly(m: string, k: nat, tail: string)
    requires 0 < k < |m| && m[..k] == m[|m| - k..]
    ensures !Occurs(m[..|m| - k], m) && Find(m[..|m| - k] + m + tail, m) == 0
  {
    var noise := m[..|m| - k];
    var s := noise + m + tail;
    assert s[..|m|] == noise + m[..k] == m;
  }

  /** Characters that the end marker must not hold: whitespace, and what a payload ends with. */
  predicate Separates(c: char) {
    IsWhitespace(c) || c == '}'
  }

  /** Behind a payload without it and any blank space, the end marker is found where it was put. */
  lemma EndIsFoundInPlace(w: string, payload: string, v: string, end: string, tail: string)
    requires Blank(w) && Blank(v) && payload != [] && payload[|payload| - 1] == '}'
    requires end != [] && !Occurs(payload, end) && forall i | 0 <= i < |end| :: !Separates(end[i])
    ensures Find(w + payload + v + end + tail, end) == |w + payload + v|
  {
    var body := w + payload + v;
    var s := body + end + tail;
    assert OccursAt(s, end, |body|);
    assert Separates(body[|body| - 1]) by {
      if v != [] {
        assert body[|body| - 1] == v[|v| - 1];
      }
    }
    forall i | 0 <= i < |body| ensures !OccursAt(s, end, i) {
      if OccursAt(s, end, i) {
        forall j | 0 <= j < |end| ensures s[i + j] == end[j] {
          assert s[i..i + |end|][j] == s[i + j];
        }
        EndNotInBody(w, payload, v, end, s, i);
      }
    }
    FindIsFirst(s, end);
  }

  lemma EndNotInBody(w: string, payload: string, v: string, end: string, s: string, i: nat)
    requires Blank(w) && Blank(v) && end != [] && w + payload + v <= s && i < |w + payload + v| && i + |end| <= |s|
    requires Separates((w + payload + v)[|w + payload + v| - 1])
    requires forall j | 0 <= j < |end| :: s[i + j] == end[j] && !Separates(end[j])
    ensures Occurs(payload, end)
  {
    var body := w + payload + v;
    assert forall j | 0 <= j < |body| :: s[j] == body[j];
    var last := |body| - 1;
    forall p | 0 <= p < |body| && (p < |w| || p >= |w| + |payload| || p == last) ensures Separates(s[p]) {
      assert s[p] == body[p];
      if p < |w| {
        assert body[p] == w[p];
      } else if p >= |w| + |payload| {
        assert body[p] == v[p - |w| - |payload|];
      }
    }
    forall p | i <= p < i + |end| ensures !Separates(s[p]) {
      assert s[i + (p - i)] == end[p - i];
    }
    assert !Separates(s[i]);
    assert |w| <= i;
    assert Separates(s[last]);
    assert i + |end| <= last;
    assert !Separates(s[i + |end| - 1]);
    assert i + |end| <= |w| + |payload|;
    assert payload[i - |w|..i - |w| + |end|] == end by {
      forall j | 0 <= j < |end| ensures payload[i - |w| + j] == end[j] {
        assert s[i + j] == body[i + j];
      }
    }
    assert OccursAt(payload, end, i - |w|);
  }

  predicate IsPayload(payload: string) {
    |payload| >= 2 && payload[0] == '{' && payload[|payload| - 1] == '}'
  }

  ghost predicate AreMarkers(begin: string, end: string) {
    begin != [] && Unbordered(begin) && end != [] && forall i | 0 <= i < |end| :: !Separates(end[i])
  }

  /** Whatever surrounds it, the wrapped payload is what is extracted. */
  lemma ExtractionInvertsWrapping(
    noise: string, begin: string, w: string, payload: string, v: string, end: string, tail: string)
    requires AreMarkers(begin, end) && Blank(w) && Blank(v) && IsPayload(payload)
    requires !Occurs(noise, begin) && !Occurs(payload, end)
    ensures ExtractByFind(noise + begin + w + payload + v + end + tail, begin, end) == Some(payload)
  {
    var inner := w + payload + v + end + tail;
    var output := noise + begin + inner;
    assert noise + begin + w + payload + v + end + tail == output;
    UnborderedIsFoundInPlace(noise, begin, inner);
    assert output[|noise| + |begin|..] == inner;
    EndIsFoundInPlace(w, payload, v, end, tail);
    assert inner[..|w + payload + v|] == w + payload + v;
    assert !IsWhitespace('{') && !IsWhitespace('}');
    TrimAround(w, payload, v);
  }

  // ---- the markers in use ----

  lemma UnborderedByFirst(m: string)
    requires forall i | 0 < i < |m| :: m[i] != m[0]
    ensures Unbordered(m)
  {
    forall k | 0 < k < |m| ensures m[..k] != m[|m| - k..] {
      assert m[|m| - k..][0] != m[..k][0];
    }
  }

  lemma DailyBriefMarkersFit()
    ensures AreMarkers(DAILY_BRIEF_BEGIN, DAILY_BRIEF_END)
  {
    UnborderedByFirst(DAILY_BRIEF_BEGIN);
  }

  predicate DiffersWithin(m: string, i: nat, n: nat) {
    exists j | 0 <= j < n :: i + j < |m| && j < |m| && m[i + j] != m[j]
  }

  /** A marker that is never like its own beginning for three characters has no border. */
  lemma UnborderedByThree(m: string)
    requires forall i | 0 < i < |m| :: DiffersWithin(m, i, 3)
    ensures Unbordered(m)
  {
    forall k | 0 < k < |m| ensures m[..k] != m[|m| - k..] {
      var i := |m| - k;
      assert DiffersWithin(m, i, 3);
      var j :| 0 <= j < 3 && i + j < |m| && j < |m| && m[i + j] != m[j];
      assert m[..k][j] != m[i..][j];
    }
  }

  lemma DiffersAt(m: string, i: nat)
    requires (i < |m| && m[i] != m[0]) || (i + 1 < |m| && m[i + 1] != m[1]) || (i + 2 < |m| && m[i + 2] != m[2])
    ensures DiffersWithin(m, i, 3)
  {
    var j := if i < |m| && m[i] != m[0] then 0 else if i + 1 < |m| && m[i + 1] != m[1] then 1 else 2;
    assert m[i + j] != m[j];
  }

  lemma DatadogMarkersFit()
    ensures AreMarkers(DATADOG_BEGIN, DATADOG_END)
  {
    forall i | 0 < i < |DATADOG_BEGIN| ensures DiffersWithin(DATADOG_BEGIN, i, 3) {
      DiffersAt(DATADOG_BEGIN, i);
    }
    UnborderedByThree(DATADOG_BEGIN);
  }

  lemma RepoHealthMarkersFit()
    ensures AreMarkers(REPO_HEALTH_BEGIN, REPO_HEALTH_END)
  {
    forall i | 0 < i < |REPO_HEALTH_BEGIN| ensures DiffersWithin(REPO_HEALTH_BEGIN, i, 3) {
      DiffersAt(REPO_HEALTH_BEGIN, i);
    }
    UnborderedByThree(REPO_HEALTH_BEGIN);
  }

  /** Two of the end markers do overlap themselves, by one letter; extraction does not depend on it. */
  lemma EndMarkersOverlapThemselves()
    ensures !Unbordered(DAILY_BRIEF_END) && !Unbordered(DATADOG_END)
  {
    assert DAILY_BRIEF_END[..1] == DAILY_BRIEF_END[|DAILY_BRIEF_END| - 1..];
    assert DATADOG_END[..1] == DATADOG_END[|DATADOG_END| - 1..];
  }
}
