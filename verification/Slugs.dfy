/** Two independently written slugs: one pass with a flag in the worker, map, split, filter and join in the client. */
module Slugs {

  predicate Alphanumeric(c: char) {
    'a' <= c <= 'z' || 'A' <= c <= 'Z' || '0' <= c <= '9'
  }

  function Lower(c: char): char {
    if 'A' <= c <= 'Z' then c + 32 as char else c
  }

  function TrimDashStart(s: string): string {
    if s != [] && s[0] == '-' then TrimDashStart(s[1..]) else s
  }

  function TrimDashEnd(s: string): string {
    if s != [] && s[|s| - 1] == '-' then TrimDashEnd(s[..|s| - 1]) else s
  }

  function TrimDashes(s: string): string {
    TrimDashEnd(TrimDashStart(s))
  }

  // ---- the worker's slug ----

  predicate LastWasDash(s: string) {
    s != [] && !Alphanumeric(s[|s| - 1])
  }

  /** The slug before its ends are trimmed. */
  function Raw(s: string): string {
    if s == [] then []
    else
      var front, c := s[..|s| - 1], s[|s| - 1];
      if Alphanumeric(c) then Raw(front) + [Lower(c)]
      else if LastWasDash(front) then Raw(front)
      else Raw(front) + "-"
  }

  function StableSlug(s: string): string {
    TrimDashes(Raw(s))
  }

  method StableSlugLoop(value: string) returns (slug: string)
    ensures slug == StableSlug(value)
  {
    slug := "";
    var lastDash := false;
    for n := 0 to |value|
      invariant slug == Raw(value[..n]) && lastDash == LastWasDash(value[..n])
    {
      var ch := value[n];
      assert value[..n + 1][..n] == value[..n];
      if Alphanumeric(ch) {
        slug := slug + [Lower(ch)];
        lastDash := false;
      } else if !lastDash {
        slug := slug + "-";
        lastDash := true;
      }
    }
    assert value[..|value|] == value;
    slug := TrimDashes(slug);
  }

  // ---- the client's slug ----

  function Mapped(s: string): string {
    if s == [] then []
    else
      var c := s[|s| - 1];
      Mapped(s[..|s| - 1]) + (if Alphanumeric(c) then [Lower(c)] else "-")
  }

  function ExtendLast(words: seq<string>, c: char): seq<string>
    requires words != []
  {
    words[..|words| - 1] + [words[|words| - 1] + [c]]
  }

  /** The segments between dashes; always at least one. */
  function Split(s: string): (r: seq<string>)
    ensures r != []
  {
    if s == [] then [[]]
    else
      var front, c := Split(s[..|s| - 1]), s[|s| - 1];
      if c == '-' then front + [[]]
      else ExtendLast(front, c)
  }

  function NonEmpty(segments: seq<string>): seq<string> {
    if segments == [] then []
    else
      var front, last := NonEmpty(segments[..|segments| - 1]), segments[|segments| - 1];
      if last == [] then front else front + [last]
  }

  function Join(words: seq<string>): string {
    if words == [] then []
    else if |words| == 1 then words[0]
    else Join(words[..|words| - 1]) + "-" + words[|words| - 1]
  }

  function Slugify(s: string): string {
    Join(NonEmpty(Split(TrimDashes(Mapped(s)))))
  }

  // ---- both are the words of the text, joined ----

  function Words(s: string): seq<string> {
    NonEmpty(Split(Mapped(s)))
  }

  lemma NonEmptyOfOneMore(segments: seq<string>, last: string)
    ensures NonEmpty(segments + [last]) == if last == [] then NonEmpty(segments) else NonEmpty(segments) + [last]
  {
    assert (segments + [last])[..|segments|] == segments;
  }

  lemma NonEmptyOfExtended(segments: seq<string>, c: char)
    requires segments != []
    ensures segments[|segments| - 1] == [] ==> NonEmpty(ExtendLast(segments, c)) == NonEmpty(segments) + [[c]]
    ensures segments[|segments| - 1] != [] ==>
              NonEmpty(segments) != [] && NonEmpty(ExtendLast(segments, c)) == ExtendLast(NonEmpty(segments), c)
  {
    var init, last := segments[..|segments| - 1], segments[|segments| - 1];
    NonEmptyOfOneMore(init, last + [c]);
    if last == [] {
      assert last + [c] == [c];
    } else {
      assert (NonEmpty(init) + [last])[..|NonEmpty(init)|] == NonEmpty(init);
    }
  }

  predicate StartsWord(front: string) {
    front == [] || LastWasDash(front)
  }

  lemma MappedOfOneMore(s: string)
    requires s != []
    ensures var front, c := s[..|s| - 1], s[|s| - 1];
            Split(Mapped(s)) == if Alphanumeric(c) then ExtendLast(Split(Mapped(front)), Lower(c))
                                else Split(Mapped(front)) + [[]]
  {
    var m := Mapped(s[..|s| - 1]);
    assert Mapped(s)[..|m|] == m;
  }

  /** One more character ends a word, starts one or goes on with one. */
  lemma WordsOfOneMore(s: string)
    requires s != []
    ensures var front, c := s[..|s| - 1], s[|s| - 1];
            && (!Alphanumeric(c) ==> Words(s) == Words(front))
            && (Alphanumeric(c) && StartsWord(front) ==> Words(s) == Words(front) + [[Lower(c)]])
            && (Alphanumeric(c) && !StartsWord(front) ==>
                  Words(front) != [] && Words(s) == ExtendLast(Words(front), Lower(c)))
  {
    var front, c := s[..|s| - 1], s[|s| - 1];
    var segments := Split(Mapped(front));
    MappedOfOneMore(s);
    LastSegmentEmpty(front);
    if Alphanumeric(c) {
      NonEmptyOfExtended(segments, Lower(c));
    } else {
      NonEmptyOfOneMore(segments, []);
    }
  }

  lemma LastSegmentEmpty(s: string)
    ensures Split(Mapped(s))[|Split(Mapped(s))| - 1] == [] <==> StartsWord(s)
  {
    if s != [] {
      MappedOfOneMore(s);
    }
  }

  predicate IsWord(w: string) {
    w != [] && forall i | 0 <= i < |w| :: Alphanumeric(w[i]) && Lower(w[i]) == w[i]
  }

  ghost predicate AreWords(words: seq<string>) {
    forall i | 0 <= i < |words| :: IsWord(words[i])
  }

  lemma ExtendedAreWords(words: seq<string>, c: char)
    requires AreWords(words) && words != [] && Alphanumeric(c)
    ensures AreWords(ExtendLast(words, Lower(c)))
  {
    assert IsWord(words[|words| - 1]);
  }

  lemma {:induction false} WordsAreWords(s: string)
    ensures AreWords(Words(s))
  {
    if s == [] {
      assert NonEmpty([[]]) == [];
    } else {
      WordsAreWords(s[..|s| - 1]);
      WordsOfOneMore(s);
      if Alphanumeric(s[|s| - 1]) && !StartsWord(s[..|s| - 1]) {
        ExtendedAreWords(Words(s[..|s| - 1]), s[|s| - 1]);
      }
    }
  }

  function Lead(s: string): string {
    if s != [] && !Alphanumeric(s[0]) then "-" else []
  }

  function Trail(s: string): string {
    if Words(s) != [] && LastWasDash(s) then "-" else []
  }

  lemma JoinOfOneMore(words: seq<string>, w: string)
    ensures Join(words + [w]) == if words == [] then w else Join(words) + "-" + w
  {
    assert (words + [w])[..|words|] == words;
  }

  lemma JoinOfExtended(words: seq<string>, c: char)
    requires words != []
    ensures Join(ExtendLast(words, c)) == Join(words) + [c]
  {
    var init, last := words[..|words| - 1], words[|words| - 1];
    JoinOfOneMore(init, last + [c]);
    assert Join(words) == if init == [] then last else Join(init) + "-" + last;
  }

  lemma {:induction false} NoWordsMeansNoLetters(s: string)
    ensures Words(s) == [] <==> forall i | 0 <= i < |s| :: !Alphanumeric(s[i])
  {
    if s == [] {
      assert NonEmpty([[]]) == [];
    } else {
      NoWordsMeansNoLetters(s[..|s| - 1]);
      WordsOfOneMore(s);
      assert forall i | 0 <= i < |s| - 1 :: s[i] == s[..|s| - 1][i];
    }
  }

  lemma JoinAfterLetter(s: string)
    requires s != [] && Alphanumeric(s[|s| - 1])
    ensures Join(Words(s)) == Join(Words(s[..|s| - 1])) + Trail(s[..|s| - 1]) + [Lower(s[|s| - 1])]
  {
    var front, c := s[..|s| - 1], Lower(s[|s| - 1]);
    var words := Words(front);
    WordsOfOneMore(s);
    NoWordsMeansNoLetters(front);
    if StartsWord(front) {
      JoinOfOneMore(words, [c]);
    } else {
      JoinOfExtended(words, c);
      assert Trail(front) == [];
    }
  }

  lemma EndsAfterLetter(s: string)
    requires s != [] && Alphanumeric(s[|s| - 1])
    ensures Lead(s) == Lead(s[..|s| - 1]) && Trail(s) == []
  {
  }

  lemma Regroup(a: string, b: string, c: string, d: string)
    ensures a + (b + c + d) + [] == a + b + c + d
  {
  }

  lemma {:induction false} RawShape(s: string)
    ensures Raw(s) == Lead(s) + Join(Words(s)) + Trail(s)
  {
    if s == [] {
      assert NonEmpty([[]]) == [];
    } else {
      var front, c := s[..|s| - 1], s[|s| - 1];
      RawShape(front);
      if Alphanumeric(c) {
        JoinAfterLetter(s);
        EndsAfterLetter(s);
        Regroup(Lead(front), Join(Words(front)), Trail(front), [Lower(c)]);
      } else {
        WordsOfOneMore(s);
        NoWordsMeansNoLetters(front);
      }
    }
  }

  // ---- dashes ----

  predicate LowerOrDash(c: char) {
    'a' <= c <= 'z' || '0' <= c <= '9' || c == '-'
  }

  predicate DoubleDashAt(s: string, i: int) {
    0 < i < |s| && s[i] == '-' && s[i - 1] == '-'
  }

  /** Lower-case letters, digits and single dashes between them. */
  predicate Clean(s: string) {
    (forall i | 0 <= i < |s| :: LowerOrDash(s[i]) && !DoubleDashAt(s, i))
    && (s != [] ==> s[0] != '-' && s[|s| - 1] != '-')
  }

  lemma {:induction false} JoinedIsClean(words: seq<string>)
    requires AreWords(words)
    ensures Clean(Join(words)) && (words != [] ==> Join(words) != [])
  {
    if |words| == 1 {
      assert IsWord(words[0]);
    } else if |words| > 1 {
      var front, w := Join(words[..|words| - 1]), words[|words| - 1];
      JoinedIsClean(words[..|words| - 1]);
      assert IsWord(w);
      var s := front + "-" + w;
      forall i | 0 <= i < |s| ensures LowerOrDash(s[i]) && !DoubleDashAt(s, i) {
        if i < |front| {
          assert s[i] == front[i] && (i > 0 ==> s[i - 1] == front[i - 1] && !DoubleDashAt(front, i));
        } else if i > |front| {
          assert s[i] == w[i - |front| - 1];
        }
      }
    }
  }

  lemma TrimmingClean(lead: string, s: string, trail: string)
    requires Clean(s) && lead in {[], "-"} && trail in {[], "-"} && (s == [] ==> trail == [])
    ensures TrimDashes(lead + s + trail) == s
  {
    var t := s + trail;
    if lead == "-" {
      assert (lead + s + trail)[1..] == t;
    } else {
      assert lead + s + trail == t;
    }
    assert TrimDashStart(t) == t;
    assert TrimDashEnd(s) == s;
    if trail == "-" {
      assert t[..|t| - 1] == s;
    } else {
      assert t == s;
    }
  }

  /** The worker's slug is the words of the text joined by dashes. */
  lemma StableSlugJoinsWords(s: string)
    ensures StableSlug(s) == Join(Words(s))
  {
    RawShape(s);
    WordsAreWords(s);
    JoinedIsClean(Words(s));
    TrimmingClean(Lead(s), Join(Words(s)), Trail(s));
  }

  lemma ExtendAfterEmpty(segments: seq<string>, c: char)
    requires segments != []
    ensures ExtendLast([[]] + segments, c) == [[]] + ExtendLast(segments, c)
  {
    assert ([[]] + segments)[..|segments|] == [[]] + segments[..|segments| - 1];
  }

  lemma {:induction false} SplitAfterDash(s: string)
    ensures Split("-" + s) == [[]] + Split(s)
  {
    if s == [] {
      assert ("-" + s)[..0] == [];
    } else {
      SplitAfterDash(s[..|s| - 1]);
      assert ("-" + s)[..|s|] == "-" + s[..|s| - 1];
      ExtendAfterEmpty(Split(s[..|s| - 1]), s[|s| - 1]);
    }
  }

  lemma {:induction false} NonEmptyAfterEmpty(segments: seq<string>)
    ensures NonEmpty([[]] + segments) == NonEmpty(segments)
  {
    if segments == [] {
      NonEmptyOfOneMore([], []);
      assert [] + [[]] == [[]] + segments;
    } else {
      var front, last := segments[..|segments| - 1], segments[|segments| - 1];
      NonEmptyAfterEmpty(front);
      NonEmptyOfOneMore([[]] + front, last);
      NonEmptyOfOneMore(front, last);
      assert [[]] + segments == [[]] + front + [last] && front + [last] == segments;
    }
  }

  lemma {:induction false} TrimStartKeepsWords(m: string)
    ensures NonEmpty(Split(TrimDashStart(m))) == NonEmpty(Split(m))
  {
    if m != [] && m[0] == '-' {
      var tail := m[1..];
      TrimStartKeepsWords(tail);
      SplitAfterDash(tail);
      NonEmptyAfterEmpty(Split(tail));
      assert m == "-" + tail;
    }
  }

  lemma {:induction false} TrimEndKeepsWords(m: string)
    ensures NonEmpty(Split(TrimDashEnd(m))) == NonEmpty(Split(m))
  {
    if m != [] && m[|m| - 1] == '-' {
      TrimEndKeepsWords(m[..|m| - 1]);
      NonEmptyOfOneMore(Split(m[..|m| - 1]), []);
    }
  }

  /** The two slugs agree on every text. */
  lemma SlugsAgree(s: string)
    ensures StableSlug(s) == Slugify(s)
  {
    StableSlugJoinsWords(s);
    TrimEndKeepsWords(TrimDashStart(Mapped(s)));
    TrimStartKeepsWords(Mapped(s));
  }

  lemma {:induction false} RawOfClean(s: string)
    requires forall i | 0 <= i < |s| :: LowerOrDash(s[i]) && !DoubleDashAt(s, i)
    ensures Raw(s) == s
  {
    if s != [] {
      var front := s[..|s| - 1];
      forall i | 0 <= i < |front| ensures LowerOrDash(front[i]) && !DoubleDashAt(front, i) {
        assert front[i] == s[i] && (i > 0 ==> front[i - 1] == s[i - 1]) && !DoubleDashAt(s, i);
      }
      RawOfClean(front);
      assert !DoubleDashAt(s, |s| - 1);
      assert front != [] ==> LowerOrDash(front[|front| - 1]);
    }
  }

  /** A slug is clean, and the clean texts are exactly those that slugging leaves alone. */
  lemma SlugLeavesExactlyCleanAlone(s: string)
    ensures Clean(StableSlug(s))
    ensures StableSlug(s) == s <==> Clean(s)
  {
    StableSlugJoinsWords(s);
    WordsAreWords(s);
    JoinedIsClean(Words(s));
    if Clean(s) {
      RawOfClean(s);
      TrimmingClean([], s, []);
      assert [] + s + [] == s;
    }
  }

  lemma SlugIsIdempotent(s: string)
    ensures StableSlug(StableSlug(s)) == StableSlug(s)
  {
    SlugLeavesExactlyCleanAlone(s);
    SlugLeavesExactlyCleanAlone(StableSlug(s));
  }

  // ---- what is left of the text ----

  /** The ASCII letters, made small, and digits of a text. */
  ghost function Letters(s: string): string {
    if s == [] then []
    else
      var front, c := Letters(s[..|s| - 1]), s[|s| - 1];
      if 'A' <= c <= 'Z' then front + [c - 'A' + 'a']
      else if 'a' <= c <= 'z' || '0' <= c <= '9' then front + [c]
      else front
  }

  ghost function Undashed(s: string): string {
    if s == [] then []
    else if s[|s| - 1] == '-' then Undashed(s[..|s| - 1])
    else Undashed(s[..|s| - 1]) + [s[|s| - 1]]
  }

  lemma {:induction false} RawKeepsLetters(s: string)
    ensures Undashed(Raw(s)) == Letters(s)
  {
    if s != [] {
      RawKeepsLetters(s[..|s| - 1]);
      UndashedOneMore(Raw(s[..|s| - 1]), if Alphanumeric(s[|s| - 1]) then Lower(s[|s| - 1]) else '-');
    }
  }

  lemma UndashedOneMore(s: string, c: char)
    ensures Undashed(s + [c]) == Undashed(s) + (if c == '-' then [] else [c])
  {
    assert (s + [c])[..|s|] == s;
  }

  lemma {:induction false} UndashedStart(s: string)
    ensures Undashed(TrimDashStart(s)) == Undashed(s)
  {
    if s != [] && s[0] == '-' {
      UndashedStart(s[1..]);
      UndashedTail(s);
    }
  }

  lemma {:induction false} UndashedTail(s: string)
    requires s != [] && s[0] == '-'
    ensures Undashed(s[1..]) == Undashed(s)
  {
    if |s| > 1 {
      var front := s[..|s| - 1];
      UndashedTail(front);
      assert s[1..][..|s| - 2] == front[1..];
    }
  }

  lemma {:induction false} UndashedEnd(s: string)
    ensures Undashed(TrimDashEnd(s)) == Undashed(s)
  {
    if s != [] && s[|s| - 1] == '-' {
      UndashedEnd(s[..|s| - 1]);
    }
  }

  /** Its dashes apart, a slug is the letters and digits of the text, made small, in their order. */
  lemma SlugKeepsLetters(s: string)
    ensures Undashed(StableSlug(s)) == Letters(s)
  {
    RawKeepsLetters(s);
    UndashedStart(Raw(s));
    UndashedEnd(TrimDashStart(Raw(s)));
  }
}
