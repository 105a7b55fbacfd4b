/** Findings of a repository sweep, normalised in place and named by a fingerprint of their material. */
module Findings {
  import opened Text
  import opened TextFacts
  import opened FindingPaths
  import opened Fnv

  /** Stands for the UTF-8 bytes of the JSON object with these three members. */
  type Encoding = (string, string, seq<string>) -> seq<Byte>

  function StableFingerprint(kind: string, title: string, paths: seq<string>, encode: Encoding): string {
    kind + ":" + Rendered(Fold(OFFSET, encode(kind, title, paths)))
  }

  function ToLower(s: string): string {
    if s == [] then [] else [if 'A' <= s[0] <= 'Z' then s[0] + 32 as char else s[0]] + ToLower(s[1..])
  }

  function NormalizeSeverity(value: string): (r: string)
    ensures r in {"low", "medium", "high"}
  {
    var v := ToLower(Trim(value));
    if v in {"low", "info", "warn", "warning"} then "low"
    else if v in {"high", "critical", "error"} then "high"
    else "medium"
  }

  /** The same word, whatever the case of its letters; `word` is in small letters. */
  ghost predicate SameWord(s: string, word: string) {
    |s| == |word|
    && forall i | 0 <= i < |s| :: word[i] == if 'A' <= s[i] <= 'Z' then s[i] - 'A' + 'a' else s[i]
  }

  lemma {:induction false} LowerLetters(s: string)
    ensures |ToLower(s)| == |s|
    ensures forall i | 0 <= i < |s| :: ToLower(s)[i] == if 'A' <= s[i] <= 'Z' then s[i] - 'A' + 'a' else s[i]
  {
    if s != [] {
      LowerLetters(s[1..]);
      assert forall i | 1 <= i < |s| :: s[i] == s[1..][i - 1] && ToLower(s)[i] == ToLower(s[1..])[i - 1];
    }
  }

  lemma LowerIsSameWord(s: string, word: string)
    ensures ToLower(s) == word <==> SameWord(s, word)
  {
    LowerLetters(s);
  }

  ghost predicate SaysLow(s: string) {
    SameWord(s, "low") || SameWord(s, "info") || SameWord(s, "warn") || SameWord(s, "warning")
  }

  ghost predicate SaysHigh(s: string) {
    SameWord(s, "high") || SameWord(s, "critical") || SameWord(s, "error")
  }

  /** The severity a text stands for, blanks around it and the case of its letters aside. */
  lemma SeverityMeans(value: string)
    ensures NormalizeSeverity(value)
            == if SaysLow(Trim(value)) then "low" else if SaysHigh(Trim(value)) then "high" else "medium"
  {
    var v := Trim(value);
    LowerIsSameWord(v, "low");
    LowerIsSameWord(v, "info");
    LowerIsSameWord(v, "warn");
    LowerIsSameWord(v, "warning");
    LowerIsSameWord(v, "high");
    LowerIsSameWord(v, "critical");
    LowerIsSameWord(v, "error");
  }

  /** Two fingerprints of one kind agree exactly when the hashes do. */
  lemma FingerprintsAgreeIff(
    kind: string, title: string, paths: seq<string>, title': string, paths': seq<string>, encode: Encoding)
    ensures StableFingerprint(kind, title, paths, encode) == StableFingerprint(kind, title', paths', encode)
            <==> Fold(OFFSET, encode(kind, title, paths)) == Fold(OFFSET, encode(kind, title', paths'))
  {
    var g, h := Fold(OFFSET, encode(kind, title, paths)), Fold(OFFSET, encode(kind, title', paths'));
    RenderedInjective(g, h);
    var s, t := kind + ":" + Rendered(g), kind + ":" + Rendered(h);
    assert s[|kind| + 1..] == Rendered(g) && t[|kind| + 1..] == Rendered(h);
  }

  /** A generated fingerprint depends on the kind, the trimmed title and the set of normalised paths alone. */
  lemma FingerprintDependsOnPathSet(
    kind: string, title: string, paths: seq<string>, title': string, paths': seq<string>, encode: Encoding)
    requires Trim(title) == Trim(title') && PathSet(paths) == PathSet(paths')
    ensures StableFingerprint(kind, Trim(title), NormalizedPaths(paths), encode)
            == StableFingerprint(kind, Trim(title'), NormalizedPaths(paths'), encode)
  {
    SameListIffSameSet(paths, paths');
  }

  /** Materials that differ in one byte give different fingerprints. */
  lemma OneByteChangesFingerprint(
    kind: string, title: string, paths: seq<string>, title': string, paths': seq<string>, encode: Encoding,
    prefix: seq<Byte>, a: Byte, b: Byte, suffix: seq<Byte>)
    requires encode(kind, title, paths) == prefix + [a] + suffix
    requires encode(kind, title', paths') == prefix + [b] + suffix
    requires a != b
    ensures StableFingerprint(kind, title, paths, encode) != StableFingerprint(kind, title', paths', encode)
  {
    OneByteNeverCollides(prefix, a, b, suffix);
    FingerprintsAgreeIff(kind, title, paths, title', paths', encode);
  }

  class QualityFinding {
    var fingerprint: string
    var title: string
    var severity: string
    var evidence: string
    var affectedPaths: seq<string>

    /** A finding that came with a fingerprint keeps it; otherwise it is named by what was just normalised. */
    method Normalize(prefix: string, encode: Encoding)
      modifies this
      ensures title == Trim(old(title)) && evidence == Trim(old(evidence))
      ensures severity == if SaysLow(Trim(old(severity))) then "low"
                          else if SaysHigh(Trim(old(severity))) then "high" else "medium"
      ensures affectedPaths == NormalizedPaths(old(affectedPaths))
      ensures fingerprint == if Blank(old(fingerprint)) then StableFingerprint(prefix, title, affectedPaths, encode)
                             else old(fingerprint)
      ensures !Blank(fingerprint)
    {
      title := Trim(title);
      SeverityMeans(severity);
      severity := NormalizeSeverity(severity);
      evidence := Trim(evidence);
      affectedPaths := NormalizedPaths(affectedPaths);
      BlankIffTrimmedAway(fingerprint);
      if Trim(fingerprint) == "" {
        fingerprint := StableFingerprint(prefix, title, affectedPaths, encode);
        assert fingerprint[|prefix|] == ':';
      }
    }
  }
}
