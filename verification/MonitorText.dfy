/**
 * Searching the joined text of a monitor finds exactly the terms its fields
 * hold: joining and JSON encoding neither hide a legacy term nor make one up.
 */
module MonitorText {
  import opened Text
  import opened Monitors

  predicate Plain(c: char) {
    'a' <= c <= 'z' || 'A' <= c <= 'Z' || c == ':' || c == '-'
  }

  /** What the legacy terms have in common: plain characters, and a first one that no JSON escape contains. */
  predicate Searchable(term: string) {
    term != [] && (forall i | 0 <= i < |term| :: Plain(term[i])) && term[0] in {'O', 'o', 's'}
  }

  lemma ContainsInLonger(a: string, b: string, term: string)
    ensures Contains(a, term) || Contains(b, term) ==> Contains(a + b, term)
  {
    var text := a + b;
    if i: nat :| i <= |a| && ContainsAt(a, term, i) {
      assert text[i..i + |term|] == a[i..i + |term|];
      assert ContainsAt(text, term, i);
    }
    if i: nat :| i <= |b| && ContainsAt(b, term, i) {
      assert text[|a| + i..|a| + i + |term|] == b[i..i + |term|];
      assert ContainsAt(text, term, |a| + i);
    }
  }

  /** A term none of whose characters is in the separator does not reach over it. */
  lemma NotOverSeparator(a: string, sep: string, b: string, term: string, i: nat)
    requires term != [] && sep != [] && (forall k | 0 <= k < |term| :: term[k] !in sep)
    requires |a| - |term| < i < |a| + |sep|
    ensures !ContainsAt(a + sep + b, term, i)
  {
    var text := a + sep + b;
    var j := if i >= |a| then 0 else |a| - i;
    assert text[i + j] == sep[i + j - |a|];
    if i + |term| <= |text| {
      assert text[i..i + |term|][j] == text[i + j];
    }
  }

  lemma ContainsBeforeOrAfter(a: string, sep: string, b: string, term: string)
    requires term != [] && sep != [] && forall i | 0 <= i < |term| :: term[i] !in sep
    ensures Contains(a + sep + b, term) <==> Contains(a, term) || Contains(b, term)
  {
    var text := a + sep + b;
    if i: nat :| i <= |text| && ContainsAt(text, term, i) {
      if |a| - |term| < i < |a| + |sep| {
        NotOverSeparator(a, sep, b, term, i);
        assert false;
      } else if i + |term| <= |a| {
        assert a[i..i + |term|] == text[i..i + |term|];
        assert ContainsAt(a, term, i);
      } else {
        var k := i - |a| - |sep|;
        assert b[k..k + |term|] == text[i..i + |term|];
        assert ContainsAt(b, term, k);
      }
    }
    ContainsInLonger(a, sep, term);
    ContainsInLonger(a + sep, b, term);
  }

  /** An escape starts with a backslash, and goes on with characters that start no term. */
  lemma EscapesStartNoTerm(c: char, k: nat)
    requires JsonChar(c) != [c] && k < |JsonChar(c)|
    ensures k == 0 ==> JsonChar(c)[k] == '\\'
    ensures JsonChar(c)[k] !in {'O', 'o', 's'}
  {
    var e := JsonChar(c);
    assert |e| == 2 || |e| == 6 || |e| == 12;
  }

  lemma {:induction false} PlainPrefix(s: string, t: string)
    requires forall i | 0 <= i < |t| :: Plain(t[i])
    ensures t <= JsonChars(s) <==> t <= s
  {
    if s != [] && t != [] {
      PlainPrefix(s[1..], t[1..]);
      var e, rest := JsonChar(s[0]), JsonChars(s[1..]);
      if e == [s[0]] {
        assert JsonChars(s)[1..] == rest;
        assert t <= s <==> t[0] == s[0] && t[1..] <= s[1..];
        assert t <= JsonChars(s) <==> t[0] == s[0] && t[1..] <= rest;
      } else {
        EscapesStartNoTerm(s[0], 0);
        assert JsonChars(s)[0] == '\\';
        assert !Plain(s[0]);
      }
    }
  }

  lemma ContainsTail(head: string, s: string, term: string)
    ensures Contains(s, term) ==> Contains(head + s, term)
  {
    if i: nat :| i <= |s| && ContainsAt(s, term, i) {
      assert (head + s)[|head| + i..|head| + i + |term|] == s[i..i + |term|];
      assert ContainsAt(head + s, term, |head| + i);
    }
  }

  lemma FoundInTail(head: string, tail: string, term: string, i: nat)
    requires ContainsAt(head + tail, term, i) && i >= |head|
    ensures Contains(tail, term)
  {
    assert tail[i - |head|..i - |head| + |term|] == (head + tail)[i..i + |term|];
    assert ContainsAt(tail, term, i - |head|);
  }

  /** An occurrence is at the very start or in the rest; in the encoding it never starts inside an escape. */
  lemma FoundInEncoding(s: string, term: string)
    requires s != [] && Searchable(term) && Contains(JsonChars(s), term)
    ensures term <= s || Contains(JsonChars(s[1..]), term)
  {
    var e, text := JsonChar(s[0]), JsonChars(s);
    var i: nat :| i <= |text| && ContainsAt(text, term, i);
    assert text[i] == text[i..i + |term|][0];
    if i >= |e| {
      FoundInTail(e, JsonChars(s[1..]), term, i);
    } else {
      assert text[i] == e[i];
      if e != [s[0]] {
        EscapesStartNoTerm(s[0], i);
      }
      PlainPrefix(s, term);
    }
  }

  lemma FoundInSource(s: string, term: string)
    requires s != [] && Contains(s, term)
    ensures term <= s || Contains(s[1..], term)
  {
    var i: nat :| i <= |s| && ContainsAt(s, term, i);
    if i > 0 {
      assert [s[0]] + s[1..] == s;
      FoundInTail([s[0]], s[1..], term, i);
    }
  }

  lemma {:induction false} EncodingKeepsTerms(s: string, term: string)
    requires Searchable(term)
    ensures Contains(JsonChars(s), term) <==> Contains(s, term)
  {
    if s != [] {
      EncodingKeepsTerms(s[1..], term);
      ContainsTail([s[0]], s[1..], term);
      assert [s[0]] + s[1..] == s;
      ContainsTail(JsonChar(s[0]), JsonChars(s[1..]), term);
      PlainPrefix(s, term);
      if term <= s {
        assert ContainsAt(s, term, 0) && ContainsAt(JsonChars(s), term, 0);
      }
      if Contains(s, term) {
        FoundInSource(s, term);
      }
      if Contains(JsonChars(s), term) {
        FoundInEncoding(s, term);
      }
    }
  }

  predicate SomeTagContains(tags: seq<string>, term: string) {
    exists i | 0 <= i < |tags| :: Contains(tags[i], term)
  }

  lemma SomeTagOfOneMore(tags: seq<string>, term: string)
    requires tags != []
    ensures SomeTagContains(tags, term) <==> Contains(tags[0], term) || SomeTagContains(tags[1..], term)
  {
    var rest := tags[1..];
    if i :| 0 <= i < |tags| && Contains(tags[i], term) {
      assert i > 0 ==> rest[i - 1] == tags[i];
    }
    if i :| 0 <= i < |rest| && Contains(rest[i], term) {
      assert tags[i + 1] == rest[i];
    }
  }

  /** One quoted item, a separator and the rest: the term is in the item or in the rest. */
  lemma QuotedItemContains(item: string, sep: string, rest: string, term: string)
    requires Searchable(term) && sep != [] && forall i | 0 <= i < |sep| :: !Plain(sep[i])
    ensures Contains("\"" + item + sep + rest, term) <==> Contains(item, term) || Contains(rest, term)
  {
    assert forall i | 0 <= i < |term| :: Plain(term[i]) && !Plain('"');
    ContainsBeforeOrAfter([], "\"", item, term);
    ContainsBeforeOrAfter("\"" + item, sep, rest, term);
    assert [] + "\"" + item == "\"" + item;
    assert !Contains([], term);
  }

  lemma {:induction false} ItemsKeepTerms(tags: seq<string>, term: string)
    requires Searchable(term)
    ensures Contains(JsonItems(tags), term) <==> SomeTagContains(tags, term)
  {
    if tags != [] {
      var sep, rest := if |tags| == 1 then "\"" else "\", ", JsonItems(tags[1..]);
      EncodingKeepsTerms(tags[0], term);
      ItemsKeepTerms(tags[1..], term);
      SomeTagOfOneMore(tags, term);
      QuotedItemContains(JsonChars(tags[0]), sep, rest, term);
      assert JsonItems(tags) == "\"" + JsonChars(tags[0]) + sep + rest;
    }
  }

  lemma TextKeepsTerms(m: Monitor, term: string)
    requires Searchable(term)
    ensures Contains(SearchText(m), term)
            <==> Contains(m.name, term) || Contains(m.message, term) || Contains(m.query, term)
                 || SomeTagContains(m.tags, term) || Contains(m.notifications, term)
  {
    ItemsKeepTerms(m.tags, term);
    var items := JsonItems(m.tags);
    ContainsBeforeOrAfter([], "[", items, term);
    ContainsBeforeOrAfter("[" + items, "]", [], term);
    assert !Contains([], term);
    assert [] + "[" + items == "[" + items && "[" + items + "]" + [] == JsonList(m.tags);
    ContainsBeforeOrAfter(m.name, "\n", m.message, term);
    ContainsBeforeOrAfter(m.name + "\n" + m.message, "\n", m.query, term);
    ContainsBeforeOrAfter(m.name + "\n" + m.message + "\n" + m.query, "\n", JsonList(m.tags), term);
    var front := m.name + "\n" + m.message + "\n" + m.query + "\n" + JsonList(m.tags);
    ContainsBeforeOrAfter(front, "\n", m.notifications, term);
  }

  /** A monitor is a legacy one exactly when one of its own fields holds a legacy term. */
  lemma LegacyMeansSomeField(m: Monitor)
    ensures Legacy(m) <==> exists t | 0 <= t < |LEGACY_TERMS| ::
              Contains(m.name, LEGACY_TERMS[t]) || Contains(m.message, LEGACY_TERMS[t])
              || Contains(m.query, LEGACY_TERMS[t]) || SomeTagContains(m.tags, LEGACY_TERMS[t])
              || Contains(m.notifications, LEGACY_TERMS[t])
  {
    forall t | 0 <= t < |LEGACY_TERMS|
      ensures Contains(SearchText(m), LEGACY_TERMS[t])
              <==> Contains(m.name, LEGACY_TERMS[t]) || Contains(m.message, LEGACY_TERMS[t])
                   || Contains(m.query, LEGACY_TERMS[t]) || SomeTagContains(m.tags, LEGACY_TERMS[t])
                   || Contains(m.notifications, LEGACY_TERMS[t])
    {
      TermsAreSearchable(t);
      TextKeepsTerms(m, LEGACY_TERMS[t]);
    }
  }

  lemma TermsAreSearchable(t: nat)
    requires t < |LEGACY_TERMS|
    ensures Searchable(LEGACY_TERMS[t])
  {
  }

  // ---- what is ours, in the fields of a monitor ----

  ghost predicate HoldsOldName(text: string) {
    Contains(text, "OpenPaw") || Contains(text, "OpenPAW") || Contains(text, "openpaw")
  }

  /** Some field of the monitor still says OpenPaw in one of its spellings. */
  ghost predicate SaysOpenPaw(m: Monitor) {
    HoldsOldName(m.name) || HoldsOldName(m.message) || HoldsOldName(m.query) || HoldsOldName(m.notifications)
    || exists i | 0 <= i < |m.tags| :: HoldsOldName(m.tags[i])
  }

  lemma LongerTermHolds(text: string, long: string, term: string, at: nat)
    requires at + |term| <= |long| && long[at..at + |term|] == term && Contains(text, long)
    ensures Contains(text, term)
  {
    var i: nat :| i <= |text| && ContainsAt(text, long, i);
    forall k | 0 <= k < |term| ensures text[i + at + k] == term[k] {
      assert text[i + at + k] == text[i..i + |long|][at + k] == long[at..at + |term|][k];
    }
    assert text[i + at..i + at + |term|] == term;
    assert ContainsAt(text, term, i + at);
  }

  /** The two longer terms hold a shorter one, so three spellings decide. */
  lemma TermsAreSpellings(text: string)
    ensures (exists t | 0 <= t < |LEGACY_TERMS| :: Contains(text, LEGACY_TERMS[t])) <==> HoldsOldName(text)
  {
    assert LEGACY_TERMS[0] == "OpenPaw" && LEGACY_TERMS[1] == "OpenPAW" && LEGACY_TERMS[2] == "openpaw";
    if t :| 0 <= t < |LEGACY_TERMS| && Contains(text, LEGACY_TERMS[t]) {
      if t == 3 {
        assert LEGACY_TERMS[3][8..15] == "openpaw";
        LongerTermHolds(text, LEGACY_TERMS[3], "openpaw", 8);
      } else if t == 4 {
        assert LEGACY_TERMS[4][6..13] == "openpaw";
        LongerTermHolds(text, LEGACY_TERMS[4], "openpaw", 6);
      }
    }
  }

  /** A monitor is a legacy one exactly when a field of it still says OpenPaw. */
  lemma LegacySaysOpenPaw(m: Monitor)
    ensures Legacy(m) <==> SaysOpenPaw(m)
  {
    LegacyMeansSomeField(m);
    TermsAreSpellings(m.name);
    TermsAreSpellings(m.message);
    TermsAreSpellings(m.query);
    TermsAreSpellings(m.notifications);
    forall i | 0 <= i < |m.tags|
      ensures (exists t | 0 <= t < |LEGACY_TERMS| :: Contains(m.tags[i], LEGACY_TERMS[t])) <==> HoldsOldName(m.tags[i])
    {
      TermsAreSpellings(m.tags[i]);
    }
    forall t | 0 <= t < |LEGACY_TERMS| && SomeTagContains(m.tags, LEGACY_TERMS[t]) ensures SaysOpenPaw(m) {
      var i :| 0 <= i < |m.tags| && Contains(m.tags[i], LEGACY_TERMS[t]);
      assert HoldsOldName(m.tags[i]);
    }
    if SaysOpenPaw(m) {
      SomeFieldHolds(m);
    }
  }

  lemma SomeFieldHolds(m: Monitor)
    requires SaysOpenPaw(m)
    ensures exists t | 0 <= t < |LEGACY_TERMS| ::
              Contains(m.name, LEGACY_TERMS[t]) || Contains(m.message, LEGACY_TERMS[t])
              || Contains(m.query, LEGACY_TERMS[t]) || SomeTagContains(m.tags, LEGACY_TERMS[t])
              || Contains(m.notifications, LEGACY_TERMS[t])
  {
    TermsAreSpellings(m.name);
    TermsAreSpellings(m.message);
    TermsAreSpellings(m.query);
    TermsAreSpellings(m.notifications);
    if i :| 0 <= i < |m.tags| && HoldsOldName(m.tags[i]) {
      TermsAreSpellings(m.tags[i]);
      var t :| 0 <= t < |LEGACY_TERMS| && Contains(m.tags[i], LEGACY_TERMS[t]);
      assert SomeTagContains(m.tags, LEGACY_TERMS[t]);
    }
  }

  /** A deployment may touch monitors of the names in its file, of the team's tag and of the old name, and no others. */
  lemma OwnedMeans(m: Monitor, names: set<string>)
    ensures Owned(m, names) <==> m.name in names || "team:temperpaw" in m.tags || SaysOpenPaw(m)
  {
    LegacySaysOpenPaw(m);
  }

  /**
   * Of the entries of one name, the one that is kept has the team's tag if any has, and among the tagged ones, or if
   * none is, does not say OpenPaw if any does not. Of equals the first is kept.
   */
  lemma KeptIsPreferred(list: seq<Entry>, names: set<string>, name: string, e: Entry, j: nat)
    requires KeptFor(list, names, name, e) && j < |list| && list[j].monitor.name == name
    ensures "team:temperpaw" in list[j].monitor.tags ==> "team:temperpaw" in e.monitor.tags
    ensures ("team:temperpaw" in list[j].monitor.tags <==> "team:temperpaw" in e.monitor.tags) ==>
              (!SaysOpenPaw(list[j].monitor) ==> !SaysOpenPaw(e.monitor))
              && ((SaysOpenPaw(list[j].monitor) <==> SaysOpenPaw(e.monitor)) ==>
                    exists i :: 0 <= i <= j && list[i] == e)
  {
    LegacySaysOpenPaw(e.monitor);
    LegacySaysOpenPaw(list[j].monitor);
    var i :| 0 <= i < |list| && list[i] == e && Preferred(list, names, i);
  }
}
