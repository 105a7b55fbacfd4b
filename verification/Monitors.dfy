/** Which monitors of an account are ours, and which one of several with a name is kept. */
module Monitors {
  import opened Text

  /** A monitor as listed or as desired. `notifications` is the JSON text of that field. */
  datatype Monitor = Monitor(
    name: string, kind: string, message: string, query: string, tags: seq<string>, notifications: string)

  datatype Entry = Entry(id: nat, monitor: Monitor)

  const TEAM_TAG := "team:temperpaw"
  const LEGACY_TERMS := ["OpenPaw", "OpenPAW", "openpaw", "service:openpaw", "slack-openpaw-alerts"]

  predicate ContainsAt(text: string, term: string, i: nat) {
    i + |term| <= |text| && text[i..i + |term|] == term
  }

  predicate Contains(text: string, term: string) {
    exists i: nat | i <= |text| :: ContainsAt(text, term, i)
  }

  function Hex4(n: nat): string
    requires n < 0x10000
  {
    [HexDigit(n / 4096), HexDigit(n / 256 % 16), HexDigit(n / 16 % 16), HexDigit(n % 16)]
  }

  /** One character as `json.dumps` writes it inside a string. */
  function JsonChar(c: char): string {
    if c == '"' then "\\\""
    else if c == '\\' then "\\\\"
    else if c == '\n' then "\\n"
    else if c == '\r' then "\\r"
    else if c == '\t' then "\\t"
    else if c == '\U{0008}' then "\\b"
    else if c == '\U{000C}' then "\\f"
    else if ' ' <= c <= '\U{007E}' then [c]
    else if c as int < 0x10000 then "\\u" + Hex4(c as int)
    else
      var high, low := (c as int - 0x10000) / 0x400, (c as int - 0x10000) % 0x400;
      "\\u" + Hex4(0xD800 + high) + "\\u" + Hex4(0xDC00 + low)
  }

  function JsonChars(s: string): string {
    if s == [] then [] else JsonChar(s[0]) + JsonChars(s[1..])
  }

  function JsonItems(tags: seq<string>): string {
    if tags == [] then []
    else "\"" + JsonChars(tags[0]) + (if |tags| == 1 then "\"" else "\", ") + JsonItems(tags[1..])
  }

  function JsonList(tags: seq<string>): string {
    "[" + JsonItems(tags) + "]"
  }

  function SearchText(m: Monitor): string {
    m.name + "\n" + m.message + "\n" + m.query + "\n" + JsonList(m.tags) + "\n" + m.notifications
  }

  predicate Legacy(m: Monitor) {
    exists t | 0 <= t < |LEGACY_TERMS| :: Contains(SearchText(m), LEGACY_TERMS[t])
  }

  predicate Owned(m: Monitor, names: set<string>) {
    m.name in names || TEAM_TAG in m.tags || Legacy(m)
  }

  datatype Score = Score(tagged: bool, desired: bool, current: bool)

  function ScoreOf(m: Monitor, names: set<string>): Score {
    Score(TEAM_TAG in m.tags, m.name in names, !Legacy(m))
  }

  /** The order of Python tuples of 0 and 1. */
  predicate Better(a: Score, b: Score) {
    if a.tagged != b.tagged then a.tagged
    else if a.desired != b.desired then a.desired
    else a.current && !b.current
  }

  /** Entry i is the first of those with the best score among the entries of its name. */
  ghost predicate Preferred(list: seq<Entry>, names: set<string>, i: nat) {
    i < |list|
    && forall j | 0 <= j < |list| && list[j].monitor.name == list[i].monitor.name ::
         var a, b := ScoreOf(list[j].monitor, names), ScoreOf(list[i].monitor, names);
         !Better(a, b) && (j < i ==> Better(b, a))
  }

  ghost predicate KeptFor(list: seq<Entry>, names: set<string>, name: string, e: Entry) {
    e.monitor.name == name && exists i | 0 <= i < |list| :: list[i] == e && Preferred(list, names, i)
  }

  /** Every name keeps its preferred entry; everything else is a duplicate; nothing is lost or made up. */
  ghost predicate IsIndex(list: seq<Entry>, names: set<string>, kept: map<string, Entry>, duplicates: seq<Entry>) {
    && (forall i | 0 <= i < |list| :: list[i].monitor.name in kept)
    && (forall name | name in kept :: KeptFor(list, names, name, kept[name]))
    && multiset(list) == multiset(duplicates) + multiset(kept.Values)
  }

  lemma KeptAfterOther(list: seq<Entry>, names: set<string>, e: Entry, name: string, best: Entry)
    requires KeptFor(list, names, name, best)
    requires name == e.monitor.name ==> !Better(ScoreOf(e.monitor, names), ScoreOf(best.monitor, names))
    ensures KeptFor(list + [e], names, name, best)
  {
    var i :| 0 <= i < |list| && list[i] == best && Preferred(list, names, i);
    var longer := list + [e];
    assert forall j | 0 <= j < |list| :: longer[j] == list[j];
    assert longer[i] == best && Preferred(longer, names, i);
  }

  lemma KeptIfBest(list: seq<Entry>, names: set<string>, e: Entry)
    requires forall i | 0 <= i < |list| && list[i].monitor.name == e.monitor.name ::
               Better(ScoreOf(e.monitor, names), ScoreOf(list[i].monitor, names))
    ensures KeptFor(list + [e], names, e.monitor.name, e)
  {
    var longer := list + [e];
    assert forall j | 0 <= j < |list| :: longer[j] == list[j];
    assert longer[|list|] == e && Preferred(longer, names, |list|);
  }

  /** What beats the preferred entry of a name beats every entry of that name. */
  lemma BeatsAll(list: seq<Entry>, names: set<string>, name: string, best: Entry, e: Entry)
    requires KeptFor(list, names, name, best) && Better(ScoreOf(e.monitor, names), ScoreOf(best.monitor, names))
    ensures forall i | 0 <= i < |list| && list[i].monitor.name == name ::
              Better(ScoreOf(e.monitor, names), ScoreOf(list[i].monitor, names))
  {
  }

  /** Replacing one value of a map whose values are told apart by their names. */
  lemma ValuesAfterUpdate(kept: map<string, Entry>, name: string, e: Entry)
    requires forall n | n in kept :: kept[n].monitor.name == n
    requires e.monitor.name == name
    ensures multiset(kept[name := e].Values)
            == (if name in kept then multiset(kept.Values) - multiset{kept[name]} else multiset(kept.Values))
               + multiset{e}
  {
    var next := kept[name := e];
    forall x: Entry
      ensures x in next.Values <==> x == e || (x in kept.Values && !(name in kept && x == kept[name]))
    {
      if x in kept.Values && !(name in kept && x == kept[name]) {
        var n :| n in kept && kept[n] == x;
        assert next[n] == x;
      }
      if x == e {
        assert next[name] == x;
      }
    }
    assert e in kept.Values ==> name in kept && kept[name] == e;
  }

  lemma Conserved(list: seq<Entry>, kept: map<string, Entry>, duplicates: seq<Entry>, e: Entry, more: seq<Entry>)
    requires forall n | n in kept :: kept[n].monitor.name == n
    requires multiset(list) == multiset(duplicates) + multiset(kept.Values)
    requires more == if e.monitor.name in kept then duplicates + [kept[e.monitor.name]] else duplicates
    ensures multiset(list + [e]) == multiset(more) + multiset(kept[e.monitor.name := e].Values)
  {
    ValuesAfterUpdate(kept, e.monitor.name, e);
    if e.monitor.name in kept {
      assert kept[e.monitor.name] in kept.Values;
    }
  }

  /** The entry becomes the one kept for its name, in place of none or of a lesser one. */
  lemma IndexedAsKept(
    list: seq<Entry>, names: set<string>, kept: map<string, Entry>, duplicates: seq<Entry>, e: Entry, more: seq<Entry>)
    requires IsIndex(list, names, kept, duplicates)
    requires e.monitor.name in kept ==>
               Better(ScoreOf(e.monitor, names), ScoreOf(kept[e.monitor.name].monitor, names))
               && more == duplicates + [kept[e.monitor.name]]
    requires e.monitor.name !in kept ==> more == duplicates
    ensures IsIndex(list + [e], names, kept[e.monitor.name := e], more)
  {
    var name := e.monitor.name;
    assert forall n | n in kept :: KeptFor(list, names, n, kept[n]);
    Conserved(list, kept, duplicates, e, more);
    if name in kept {
      BeatsAll(list, names, name, kept[name], e);
    }
    KeptIfBest(list, names, e);
    forall n | n in kept && n != name ensures KeptFor(list + [e], names, n, kept[n]) {
      KeptAfterOther(list, names, e, n, kept[n]);
    }
  }

  lemma AllKeptAfterOther(list: seq<Entry>, names: set<string>, kept: map<string, Entry>, e: Entry)
    requires forall n | n in kept :: KeptFor(list, names, n, kept[n])
    requires e.monitor.name in kept && !Better(ScoreOf(e.monitor, names), ScoreOf(kept[e.monitor.name].monitor, names))
    ensures forall n | n in kept :: KeptFor(list + [e], names, n, kept[n])
  {
    forall n | n in kept ensures KeptFor(list + [e], names, n, kept[n]) {
      KeptAfterOther(list, names, e, n, kept[n]);
    }
  }

  lemma DuplicateConserved(list: seq<Entry>, values: multiset<Entry>, duplicates: seq<Entry>, e: Entry)
    requires multiset(list) == multiset(duplicates) + values
    ensures multiset(list + [e]) == multiset(duplicates + [e]) + values
  {
  }

  lemma NamesStayKept(list: seq<Entry>, kept: map<string, Entry>, e: Entry)
    requires (forall i | 0 <= i < |list| :: list[i].monitor.name in kept) && e.monitor.name in kept
    ensures forall i | 0 <= i < |list + [e]| :: (list + [e])[i].monitor.name in kept
  {
  }

  lemma IndexedAsDuplicate(
    list: seq<Entry>, names: set<string>, kept: map<string, Entry>, duplicates: seq<Entry>, e: Entry)
    requires IsIndex(list, names, kept, duplicates) && e.monitor.name in kept
    requires !Better(ScoreOf(e.monitor, names), ScoreOf(kept[e.monitor.name].monitor, names))
    ensures IsIndex(list + [e], names, kept, duplicates + [e])
  {
    AllKeptAfterOther(list, names, kept, e);
    DuplicateConserved(list, multiset(kept.Values), duplicates, e);
    NamesStayKept(list, kept, e);
  }

  /** Indexes one more entry. */
  method IndexEntry(
    ghost list: seq<Entry>, names: set<string>, kept: map<string, Entry>, duplicates: seq<Entry>, e: Entry)
    returns (kept': map<string, Entry>, duplicates': seq<Entry>)
    requires IsIndex(list, names, kept, duplicates)
    ensures IsIndex(list + [e], names, kept', duplicates')
  {
    kept', duplicates' := kept, duplicates;
    var name := e.monitor.name;
    if name !in kept {
      kept' := kept[name := e];
      IndexedAsKept(list, names, kept, duplicates, e, duplicates');
    } else if Better(ScoreOf(e.monitor, names), ScoreOf(kept[name].monitor, names)) {
      duplicates' := duplicates + [kept[name]];
      kept' := kept[name := e];
      IndexedAsKept(list, names, kept, duplicates, e, duplicates');
    } else {
      duplicates' := duplicates + [e];
      IndexedAsDuplicate(list, names, kept, duplicates, e);
    }
  }

  method IndexExisting(list: seq<Entry>, names: set<string>)
    returns (kept: map<string, Entry>, duplicates: seq<Entry>)
    ensures IsIndex(list, names, kept, duplicates)
  {
    kept, duplicates := map[], [];
    ghost var done: seq<Entry> := [];
    for n := 0 to |list|
      invariant |done| == n && (forall i | 0 <= i < n :: done[i] == list[i]) && IsIndex(done, names, kept, duplicates)
    {
      kept, duplicates := IndexEntry(done, names, kept, duplicates, list[n]);
      done := done + [list[n]];
    }
    assert done == list;
  }
}
