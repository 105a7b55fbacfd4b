/** The in-place clean-up of a list of strings: trimmed, without blanks and repetitions, in the old order. */
module StringLists {
  import opened Text
  import opened TextFacts

  function Cleaned(values: seq<string>): seq<string> {
    if values == [] then []
    else
      var front, v := Cleaned(values[..|values| - 1]), Trim(values[|values| - 1]);
      if v == "" || v in front then front else front + [v]
  }

  predicate Distinct(values: seq<string>) {
    forall i, j | 0 <= i < j < |values| :: values[i] != values[j]
  }

  ghost predicate IsClean(values: seq<string>) {
    Distinct(values) && forall i | 0 <= i < |values| :: values[i] != "" && Trim(values[i]) == values[i]
  }

  /** The list as an object; `seen` remembers what has been kept. */
  class StringList {
    var values: seq<string>

    method Normalize()
      modifies this
      ensures values == Cleaned(old(values))
    {
      var kept: seq<string>, seen: set<string> := [], {};
      for n := 0 to |values|
        invariant values == old(values) && kept == Cleaned(values[..n])
        invariant forall v :: v in seen <==> v in kept
      {
        assert values[..n + 1][..n] == values[..n];
        var value := Trim(values[n]);
        if value != "" && value !in seen {
          seen := seen + {value};
          kept := kept + [value];
        }
      }
      assert values[..|values|] == values;
      values := kept;
    }
  }

  lemma CleanOneMore(clean: seq<string>, last: string)
    requires IsClean(clean) && Trim(last) != "" && Trim(last) !in clean
    ensures IsClean(clean + [Trim(last)])
  {
    TrimIdempotent(last);
  }

  lemma {:induction false} CleanedIsClean(values: seq<string>)
    ensures IsClean(Cleaned(values))
  {
    if values != [] {
      var front, last := values[..|values| - 1], values[|values| - 1];
      CleanedIsClean(front);
      if Trim(last) != "" && Trim(last) !in Cleaned(front) {
        CleanOneMore(Cleaned(front), last);
      }
    }
  }

  lemma {:induction false} CleanedHas(values: seq<string>, v: string)
    ensures v in Cleaned(values) <==> v != "" && exists i :: 0 <= i < |values| && Trim(values[i]) == v
  {
    if values != [] {
      var front := values[..|values| - 1];
      CleanedHas(front, v);
      if i :| 0 <= i < |front| && Trim(front[i]) == v {
        assert values[i] == front[i];
      }
      if i :| 0 <= i < |values| && Trim(values[i]) == v {
        assert i < |front| ==> front[i] == values[i];
      }
    }
  }

  lemma CleanedHolds(values: seq<string>)
    ensures IsClean(Cleaned(values))
    ensures forall v :: v in Cleaned(values) <==> v != "" && exists i :: 0 <= i < |values| && Trim(values[i]) == v
  {
    CleanedIsClean(values);
    forall v {
      CleanedHas(values, v);
    }
  }

  /** Value v is first seen at position n, after position m. */
  ghost predicate FirstSeenAfter(values: seq<string>, v: string, m: int, n: int) {
    0 <= m < n < |values| && Trim(values[n]) == v && forall k | 0 <= k < n :: Trim(values[k]) != v
  }

  lemma SeenInLonger(values: seq<string>, last: string, v: string, m: int, n: int)
    requires FirstSeenAfter(values, v, m, n)
    ensures FirstSeenAfter(values + [last], v, m, n)
  {
    var longer := values + [last];
    assert forall k | 0 <= k < |values| :: longer[k] == values[k];
  }

  lemma LastIsFirstSeen(front: seq<string>, last: string, m: nat)
    requires Trim(last) != "" && Trim(last) !in Cleaned(front) && m < |front|
    ensures FirstSeenAfter(front + [last], Trim(last), m, |front|)
  {
    CleanedHas(front, Trim(last));
    assert forall k | 0 <= k < |front| :: (front + [last])[k] == front[k];
  }

  /** What is kept stays in the order in which it first appears. */
  lemma {:induction false} CleanedKeepsFirstOrder(values: seq<string>, i: nat, j: nat) returns (m: nat, n: nat)
    requires i < j < |Cleaned(values)|
    ensures FirstSeenAfter(values, Cleaned(values)[j], m, n) && Trim(values[m]) == Cleaned(values)[i]
  {
    var front, last := values[..|values| - 1], values[|values| - 1];
    var before := Cleaned(front);
    assert values == front + [last];
    if j < |before| {
      m, n := CleanedKeepsFirstOrder(front, i, j);
      SeenInLonger(front, last, before[j], m, n);
    } else {
      CleanedHolds(front);
      assert before[i] in before;
      m :| 0 <= m < |front| && Trim(front[m]) == before[i];
      n := |front|;
      assert Cleaned(values) == before + [Trim(last)] && values[m] == front[m];
      LastIsFirstSeen(front, last, m);
    }
  }

  /** Exactly the clean lists are left as they are, so cleaning twice is cleaning once. */
  lemma {:induction false} CleanedLeavesExactlyCleanAlone(values: seq<string>)
    ensures Cleaned(values) == values <==> IsClean(values)
  {
    CleanedHolds(values);
    if values != [] && IsClean(values) {
      var front, last := values[..|values| - 1], values[|values| - 1];
      CleanedLeavesExactlyCleanAlone(front);
      assert forall i | 0 <= i < |front| :: front[i] == values[i];
      assert last !in front;
      assert front + [last] == values;
    }
  }
}
