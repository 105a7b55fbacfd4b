/**
 * What counts as the same evidence. A value is stripped of collection noise
 * before it is fingerprinted, so that measuring the same thing again does not
 * ask for another investigation.
 */
module Evidence {
  import opened Text
  import opened InvestigationIds

  /** A JSON value. Numbers are kept as written; the order of an object's members does not matter. */
  datatype Json =
    | Null
    | Bool(value: bool)
    | Number(literal: string)
    | Str(text: string)
    | Array(items: seq<Json>)
    | Object(fields: map<string, Json>)

  const LATEST_POINT := "latest_point"

  const NOISE_KEYS := [
    "observation_id", "source_event_id", "observed_at_ms", "window_start", "window_end", "createdAt", "updatedAt",
    "created_at", "updated_at", "age_seconds", "oldest_unfinished_at", "numeric_point_count", "latest_at_ms",
    "generated_at", "collected_at", "snapshot_at"]

  predicate IsNoise(key: string) {
    key in NOISE_KEYS
  }

  /** When, by which event and over which window something was collected is noise, and so are ages and counts of it. */
  lemma NoiseIs(key: string)
    ensures IsNoise(key) <==>
              key in {"observation_id", "source_event_id", "observed_at_ms", "window_start", "window_end",
                      "createdAt", "updatedAt", "created_at", "updated_at", "age_seconds", "oldest_unfinished_at",
                      "numeric_point_count", "latest_at_ms", "generated_at", "collected_at", "snapshot_at"}
  {
  }

  /** The second element of an array of at least two, and null for everything else. */
  function Second(v: Json): Json {
    if v.Array? && |v.items| >= 2 then v.items[1] else Null
  }

  function Material(v: Json): Json {
    match v
    case Object(fields) =>
      Object(map k | k in fields && !IsNoise(k) ::
               if k == LATEST_POINT then Second(fields[k]) else Material(fields[k]))
    case Array(items) => Array(seq(|items|, i requires 0 <= i < |items| => Material(items[i])))
    case _ => v
  }

  /**
   * Equal up to collection noise: noise members are ignored at every depth, a latest point counts only with its
   * second element, and everything else is compared exactly.
   */
  ghost predicate SameUpToNoise(a: Json, b: Json) {
    match a
    case Object(fields) =>
      b.Object?
      && (forall k | !IsNoise(k) :: k in fields <==> k in b.fields)
      && (forall k | k in fields && !IsNoise(k) ::
            if k == LATEST_POINT then Second(fields[k]) == Second(b.fields[k])
            else SameUpToNoise(fields[k], b.fields[k]))
    case Array(items) =>
      b.Array? && |items| == |b.items| && forall i | 0 <= i < |items| :: SameUpToNoise(items[i], b.items[i])
    case _ => a == b
  }

  /** Stripping forgets exactly the noise. */
  lemma {:induction false} MaterialForgetsExactlyNoise(a: Json, b: Json)
    ensures Material(a) == Material(b) <==> SameUpToNoise(a, b)
  {
    if a.Object? && b.Object? {
      forall k | k in a.fields && k in b.fields
        ensures Material(a.fields[k]) == Material(b.fields[k]) <==> SameUpToNoise(a.fields[k], b.fields[k])
      {
        MaterialForgetsExactlyNoise(a.fields[k], b.fields[k]);
      }
      var f, g := Material(a).fields, Material(b).fields;
      assert forall k :: k in f <==> k in a.fields && !IsNoise(k);
      assert forall k :: k in g <==> k in b.fields && !IsNoise(k);
      if f == g {
        forall k | k in a.fields && !IsNoise(k) ensures k in b.fields && f[k] == g[k] {
          assert k in g;
        }
        forall k | k in b.fields && !IsNoise(k) ensures k in a.fields {
          assert k in f;
        }
      }
    } else if a.Array? && b.Array? {
      forall i | 0 <= i < |a.items| && i < |b.items|
        ensures Material(a.items[i]) == Material(b.items[i]) <==> SameUpToNoise(a.items[i], b.items[i])
      {
        MaterialForgetsExactlyNoise(a.items[i], b.items[i]);
      }
      var s, t := Material(a).items, Material(b).items;
      if s == t {
        forall i | 0 <= i < |a.items| ensures SameUpToNoise(a.items[i], b.items[i]) {
          assert s[i] == t[i];
        }
      }
      if SameUpToNoise(a, b) {
        assert forall i | 0 <= i < |s| :: s[i] == t[i];
      }
    }
  }

  // ---- stripping twice ----

  /** Every latest point that stripping reaches has nothing, or null, as its second element. */
  ghost predicate PointsSettled(v: Json) {
    match v
    case Object(fields) =>
      forall k | k in fields && !IsNoise(k) ::
        if k == LATEST_POINT then Second(fields[k]) == Null else PointsSettled(fields[k])
    case Array(items) => forall i | 0 <= i < |items| :: PointsSettled(items[i])
    case _ => true
  }

  lemma SecondIsSmaller(v: Json)
    ensures Second(v) == v ==> v == Null
  {
  }

  /** Stripping what is already stripped changes nothing exactly when every latest point had settled. */
  lemma {:induction false} MaterialIdempotentIffPointsSettled(v: Json)
    ensures Material(Material(v)) == Material(v) <==> PointsSettled(v)
  {
    match v
    case Object(fields) =>
      var f, g := Material(v).fields, Material(Material(v)).fields;
      assert forall k :: k in f <==> k in fields && !IsNoise(k);
      assert g.Keys == f.Keys;
      forall k | k in f
        ensures g[k] == f[k] <==> if k == LATEST_POINT then Second(fields[k]) == Null else PointsSettled(fields[k])
      {
        if k == LATEST_POINT {
          SecondIsSmaller(Second(fields[k]));
        } else {
          MaterialIdempotentIffPointsSettled(fields[k]);
        }
      }
      assert g == f <==> forall k | k in f :: g[k] == f[k];
    case Array(items) =>
      var s, t := Material(v).items, Material(Material(v)).items;
      forall i | 0 <= i < |items| ensures t[i] == s[i] <==> PointsSettled(items[i]) {
        MaterialIdempotentIffPointsSettled(items[i]);
      }
      assert t == s <==> forall i | 0 <= i < |s| :: t[i] == s[i];
    case _ =>
  }

  /** A measured point is such a case: stripped once it is its value, stripped twice it is null. */
  lemma MeasuredPointIsNotSettled(at: string, measured: string)
    ensures var v := Object(map["latest_point" := Array([Number(at), Number(measured)])]);
            && Material(v) == Object(map["latest_point" := Number(measured)])
            && Material(Material(v)) == Object(map["latest_point" := Null])
  {
    var v := Object(map["latest_point" := Array([Number(at), Number(measured)])]);
    LatestPointIsNoNoise();
    assert Material(v).fields == map[LATEST_POINT := Number(measured)];
    assert Material(Material(v)).fields == map[LATEST_POINT := Null];
  }

  lemma LatestPointIsNoNoise()
    ensures !IsNoise(LATEST_POINT)
  {
    assert forall i | 0 <= i < |NOISE_KEYS| :: NOISE_KEYS[i] == LATEST_POINT ==> |NOISE_KEYS[i]| == 12;
  }

  // ---- the fingerprint of an investigation ----

  function ToUpper(c: char): char {
    if 'a' <= c <= 'z' then c - 32 as char else c
  }

  /** Drops the underscores and capitalises every word; field names are ASCII. */
  function Pascal(name: string, atStart: bool): string {
    if name == [] then []
    else if name[0] == '_' then Pascal(name[1..], true)
    else [if atStart then ToUpper(name[0]) else name[0]] + Pascal(name[1..], false)
  }

  function Member(row: Json, key: string): Option<Json> {
    if row.Object? && key in row.fields then Some(row.fields[key]) else None
  }

  function OrElse(first: Option<Json>, second: Option<Json>): Option<Json> {
    if first.Some? then first else second
  }

  /** A field by its name or its capitalised name, on the row itself or inside its `fields`. */
  function Field(row: Json, name: string): Option<Json> {
    var inner := Member(row, "fields");
    var pascal := Pascal(name, true);
    OrElse(OrElse(Member(row, name), Member(row, pascal)),
           if inner.Some? then OrElse(Member(inner.value, name), Member(inner.value, pascal)) else None)
  }

  function TextField(row: Json, name: string): string {
    var v := Field(row, name);
    if v.Some? && v.value.Str? then v.value.text else ""
  }

  /** A field that may hold JSON as text; `parse` stands for the JSON parser. None when the text is not JSON. */
  function JsonField(row: Json, name: string, parse: string -> Option<Json>): Option<Json> {
    var v := Field(row, name);
    if v.None? then Some(Null)
    else if v.value.Str? && v.value.text != "" then parse(v.value.text)
    else v
  }

  // ---- where a field is found ----

  /** A field name is one word or two. */
  datatype FieldName = OneWord(word: string) | TwoWords(first: string, second: string)

  function Snake(name: FieldName): string {
    match name case OneWord(word) => word case TwoWords(first, second) => first + "_" + second
  }

  function Capital(word: string): string {
    if word == "" then "" else [ToUpper(word[0])] + word[1..]
  }

  ghost function Camel(name: FieldName): string {
    match name case OneWord(word) => Capital(word) case TwoWords(first, second) => Capital(first) + Capital(second)
  }

  lemma CapitalsAreUpper()
    ensures Camel(TwoWords("subject", "id")) == "SubjectId"
  {
  }

  ghost predicate Plain(name: FieldName) {
    match name case OneWord(word) => '_' !in word case TwoWords(first, second) => '_' !in first && '_' !in second
  }

  lemma {:induction false} PascalOfRest(word: string)
    requires '_' !in word
    ensures Pascal(word, false) == word
  {
    if word != "" {
      assert word[0] in word && forall c | c in word[1..] :: c in word;
      PascalOfRest(word[1..]);
    }
  }

  lemma PascalOfWord(word: string)
    requires '_' !in word
    ensures Pascal(word, true) == Capital(word)
  {
    if word != "" {
      assert word[0] in word && forall c | c in word[1..] :: c in word;
      PascalOfRest(word[1..]);
    }
  }

  lemma {:induction false} PascalOfWords(word: string, more: string, atStart: bool)
    requires '_' !in word
    ensures Pascal(word + "_" + more, atStart) == (if atStart then Capital(word) else word) + Pascal(more, true)
  {
    var name := word + "_" + more;
    if word == "" {
      assert name[0] == '_' && name[1..] == more;
    } else {
      assert word[0] in word && forall c | c in word[1..] :: c in word;
      assert name[0] == word[0] && name[1..] == word[1..] + "_" + more;
      PascalOfWords(word[1..], more, false);
    }
  }

  ghost function At(row: Json, key: string): Option<Json> {
    match row
    case Object(fields) => if key in fields then Some(fields[key]) else None
    case _ => None
  }

  /** The member of that name, else the one in capitalised words, else the one or the other inside `fields`. */
  ghost function Found(row: Json, name: FieldName): Option<Json> {
    if At(row, Snake(name)).Some? then At(row, Snake(name))
    else if At(row, Camel(name)).Some? then At(row, Camel(name))
    else if At(row, "fields").None? then None
    else if At(At(row, "fields").value, Snake(name)).Some? then At(At(row, "fields").value, Snake(name))
    else At(At(row, "fields").value, Camel(name))
  }

  lemma FieldIsFound(row: Json, name: FieldName)
    requires Plain(name)
    ensures Field(row, Snake(name)) == Found(row, name)
  {
    match name
    case OneWord(word) => PascalOfWord(word);
    case TwoWords(first, second) =>
      PascalOfWords(first, second, true);
      PascalOfWord(second);
  }

  // ---- what is fingerprinted ----

  /** The names of the fields that are read. */
  datatype Names = Names(
    subjectType: FieldName, subjectId: FieldName, source: FieldName, status: FieldName, outcome: FieldName,
    observedRevision: FieldName, observedConfiguration: FieldName, summary: FieldName,
    intendedRevision: FieldName, intendedConfiguration: FieldName)

  const NAMES := Names(
    TwoWords("subject", "type"), TwoWords("subject", "id"), OneWord("source"), OneWord("status"), OneWord("outcome"),
    TwoWords("observed", "revision"), TwoWords("observed", "configuration"), OneWord("summary"),
    TwoWords("intended", "revision"), TwoWords("intended", "configuration"))

  ghost predicate AllPlain(names: Names) {
    && Plain(names.subjectType) && Plain(names.subjectId) && Plain(names.source) && Plain(names.status)
    && Plain(names.outcome) && Plain(names.observedRevision) && Plain(names.observedConfiguration)
    && Plain(names.summary) && Plain(names.intendedRevision) && Plain(names.intendedConfiguration)
  }

  lemma NamesOfTheObservation()
    ensures Snake(NAMES.subjectType) == "subject_type" && Snake(NAMES.subjectId) == "subject_id"
    ensures Snake(NAMES.source) == "source" && Snake(NAMES.status) == "status" && Snake(NAMES.outcome) == "outcome"
  {
  }

  lemma NamesOfTheFacts()
    ensures Snake(NAMES.observedRevision) == "observed_revision"
    ensures Snake(NAMES.observedConfiguration) == "observed_configuration" && Snake(NAMES.summary) == "summary"
  {
  }

  lemma NamesOfTheIntention()
    ensures Snake(NAMES.intendedRevision) == "intended_revision"
    ensures Snake(NAMES.intendedConfiguration) == "intended_configuration"
  {
  }

  lemma NamesArePlain()
    ensures AllPlain(NAMES)
  {
  }

  datatype Fingerprinted = Fingerprinted(
    subjectType: string, subjectId: string, source: string, coverage: string, outcome: string,
    intended: Json, intendedRevision: string, observedRevision: string, observed: Json, facts: Json)

  /** What is fingerprinted, before the noise is stripped. */
  function EvidenceOf(names: Names, source: Json, observation: Json, parse: string -> Option<Json>)
    : Option<Fingerprinted>
  {
    var intended := JsonField(source, Snake(names.intendedConfiguration), parse);
    var observed := JsonField(observation, Snake(names.observedConfiguration), parse);
    var facts := JsonField(observation, Snake(names.summary), parse);
    var subjectType := TextField(observation, Snake(names.subjectType));
    var subjectId := TextField(observation, Snake(names.subjectId));
    if subjectType == "" || subjectId == "" || intended.None? || observed.None? || facts.None? then None
    else
      Some(Fingerprinted(
             subjectType, subjectId, TextField(observation, Snake(names.source)),
             TextField(observation, Snake(names.status)), TextField(observation, Snake(names.outcome)),
             intended.value, TextField(source, Snake(names.intendedRevision)),
             TextField(observation, Snake(names.observedRevision)), observed.value, facts.value))
  }

  function Stripped(e: Fingerprinted): Fingerprinted {
    e.(intended := Material(e.intended), observed := Material(e.observed), facts := Material(e.facts))
  }

  /** `digest` stands for SHA-256 in lower-case hex over the serialised value. */
  function InvestigationKey(
    names: Names, source: Json, observation: Json, parse: string -> Option<Json>, digest: Fingerprinted -> string)
    : Option<string>
  {
    var e := EvidenceOf(names, source, observation, parse);
    if e.None? then None else Some(MODEL_PREFIX + digest(Stripped(e.value)))
  }

  // ---- what the key depends on, in terms of the rows ----

  ghost function TextFound(row: Json, name: FieldName): string {
    match Found(row, name) case Some(Str(text)) => text case _ => ""
  }

  /** A value, or what its text parses to; a missing one is null. */
  ghost function ValueFound(row: Json, name: FieldName, parse: string -> Option<Json>): Option<Json> {
    match Found(row, name)
    case None => Some(Null)
    case Some(Str(text)) => if text == "" then Some(Str("")) else parse(text)
    case Some(v) => Some(v)
  }

  ghost predicate SameText(row: Json, row': Json, name: FieldName) {
    TextFound(row, name) == TextFound(row', name)
  }

  ghost predicate SameValue(row: Json, row': Json, name: FieldName, parse: string -> Option<Json>) {
    var v, v' := ValueFound(row, name, parse), ValueFound(row', name, parse);
    v.Some? && v'.Some? && SameUpToNoise(v.value, v'.value)
  }

  /** The observation names its subject, and what is JSON text in either row parses. */
  ghost predicate HasEvidence(names: Names, source: Json, observation: Json, parse: string -> Option<Json>) {
    && TextFound(observation, names.subjectType) != "" && TextFound(observation, names.subjectId) != ""
    && ValueFound(source, names.intendedConfiguration, parse).Some?
    && ValueFound(observation, names.observedConfiguration, parse).Some?
    && ValueFound(observation, names.summary, parse).Some?
  }

  /** The same subject, seen from the same source with the same result, under the same intentions. */
  ghost predicate SameEvidence(
    names: Names, source: Json, observation: Json, source': Json, observation': Json, parse: string -> Option<Json>)
  {
    && SameText(observation, observation', names.subjectType) && SameText(observation, observation', names.subjectId)
    && SameText(observation, observation', names.source) && SameText(observation, observation', names.status)
    && SameText(observation, observation', names.outcome)
    && SameText(observation, observation', names.observedRevision) && SameText(source, source', names.intendedRevision)
    && SameValue(source, source', names.intendedConfiguration, parse)
    && SameValue(observation, observation', names.observedConfiguration, parse)
    && SameValue(observation, observation', names.summary, parse)
  }

  lemma TextIsFound(row: Json, name: FieldName)
    requires Plain(name)
    ensures TextField(row, Snake(name)) == TextFound(row, name)
  {
    FieldIsFound(row, name);
  }

  lemma ValueIsFound(row: Json, name: FieldName, parse: string -> Option<Json>)
    requires Plain(name)
    ensures JsonField(row, Snake(name), parse) == ValueFound(row, name, parse)
  {
    FieldIsFound(row, name);
  }

  ghost function EvidenceFound(
    names: Names, source: Json, observation: Json, parse: string -> Option<Json>): Fingerprinted
    requires HasEvidence(names, source, observation, parse)
  {
    Fingerprinted(
      TextFound(observation, names.subjectType), TextFound(observation, names.subjectId),
      TextFound(observation, names.source), TextFound(observation, names.status),
      TextFound(observation, names.outcome), ValueFound(source, names.intendedConfiguration, parse).value,
      TextFound(source, names.intendedRevision), TextFound(observation, names.observedRevision),
      ValueFound(observation, names.observedConfiguration, parse).value,
      ValueFound(observation, names.summary, parse).value)
  }

  lemma EvidenceIsFound(names: Names, source: Json, observation: Json, parse: string -> Option<Json>)
    requires AllPlain(names)
    ensures HasEvidence(names, source, observation, parse) <==> EvidenceOf(names, source, observation, parse).Some?
    ensures HasEvidence(names, source, observation, parse) ==>
              EvidenceOf(names, source, observation, parse)
              == Some(EvidenceFound(names, source, observation, parse))
  {
    TextIsFound(observation, names.subjectType);
    TextIsFound(observation, names.subjectId);
    TextIsFound(observation, names.source);
    TextIsFound(observation, names.status);
    TextIsFound(observation, names.outcome);
    TextIsFound(observation, names.observedRevision);
    TextIsFound(source, names.intendedRevision);
    ValueIsFound(source, names.intendedConfiguration, parse);
    ValueIsFound(observation, names.observedConfiguration, parse);
    ValueIsFound(observation, names.summary, parse);
  }

  lemma SameValueFound(row: Json, row': Json, name: FieldName, parse: string -> Option<Json>)
    requires ValueFound(row, name, parse).Some? && ValueFound(row', name, parse).Some?
    ensures SameValue(row, row', name, parse)
            <==> Material(ValueFound(row, name, parse).value) == Material(ValueFound(row', name, parse).value)
  {
    MaterialForgetsExactlyNoise(ValueFound(row, name, parse).value, ValueFound(row', name, parse).value);
  }

  lemma SameFound(
    names: Names, source: Json, observation: Json, source': Json, observation': Json, parse: string -> Option<Json>)
    requires HasEvidence(names, source, observation, parse) && HasEvidence(names, source', observation', parse)
    ensures Stripped(EvidenceFound(names, source, observation, parse))
            == Stripped(EvidenceFound(names, source', observation', parse))
            <==> SameEvidence(names, source, observation, source', observation', parse)
  {
    SameValueFound(source, source', names.intendedConfiguration, parse);
    SameValueFound(observation, observation', names.observedConfiguration, parse);
    SameValueFound(observation, observation', names.summary, parse);
  }

  /** There is a key exactly when the observation names its subject and all JSON text parses. */
  lemma KeyIffEvidence(
    names: Names, source: Json, observation: Json, parse: string -> Option<Json>, digest: Fingerprinted -> string)
    requires AllPlain(names)
    ensures InvestigationKey(names, source, observation, parse, digest).Some?
            <==> HasEvidence(names, source, observation, parse)
  {
    EvidenceIsFound(names, source, observation, parse);
  }

  /** Two observations share an investigation exactly when their rows hold the same evidence, unless digests collide. */
  lemma SameKeyIffSameEvidence(
    names: Names, source: Json, observation: Json, source': Json, observation': Json,
    parse: string -> Option<Json>, digest: Fingerprinted -> string)
    requires AllPlain(names)
    requires HasEvidence(names, source, observation, parse) && HasEvidence(names, source', observation', parse)
    requires var e, f := Stripped(EvidenceFound(names, source, observation, parse)),
                         Stripped(EvidenceFound(names, source', observation', parse));
             digest(e) == digest(f) ==> e == f
    ensures InvestigationKey(names, source, observation, parse, digest)
            == InvestigationKey(names, source', observation', parse, digest)
            <==> SameEvidence(names, source, observation, source', observation', parse)
  {
    EvidenceIsFound(names, source, observation, parse);
    EvidenceIsFound(names, source', observation', parse);
    SameFound(names, source, observation, source', observation', parse);
    var e := Stripped(EvidenceFound(names, source, observation, parse));
    var f := Stripped(EvidenceFound(names, source', observation', parse));
    assert (MODEL_PREFIX + digest(e))[|MODEL_PREFIX|..] == digest(e);
    assert (MODEL_PREFIX + digest(f))[|MODEL_PREFIX|..] == digest(f);
  }

  ghost predicate HexDigitLower(c: char) {
    c in "0123456789abcdef"
  }

  /** The key is one the investigation protocol can derive ids from. */
  lemma InvestigationKeyIsKey(
    names: Names, source: Json, observation: Json, parse: string -> Option<Json>, digest: Fingerprinted -> string)
    requires InvestigationKey(names, source, observation, parse, digest).Some?
    requires forall e: Fingerprinted :: |digest(e)| == 64 && forall i | 0 <= i < 64 :: HexDigitLower(digest(e)[i])
    ensures IsKey(InvestigationKey(names, source, observation, parse, digest).value)
  {
    PrefixedDigestIsKey(digest(Stripped(EvidenceOf(names, source, observation, parse).value)));
  }

  lemma PrefixedDigestIsKey(d: string)
    requires |d| == 64 && forall i | 0 <= i < 64 :: HexDigitLower(d[i])
    ensures IsKey(MODEL_PREFIX + d)
  {
    var k := MODEL_PREFIX + d;
    forall i | |MODEL_PREFIX| <= i < |k| ensures IsLowerHex(k[i]) {
      assert k[i] == d[i - |MODEL_PREFIX|];
    }
  }
}
