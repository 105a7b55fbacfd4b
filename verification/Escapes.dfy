/**
 * Escaping by a chain of whole-string replacements, one character at a time.
 * Such a chain is a simultaneous escape, and can be undone, because the escape
 * character goes first.
 */
module Escapes {
  import opened Text

  type Codes = seq<(char, string)>

  /** Rust's `str::replace` with a single character. */
  function Replace(s: string, c: char, code: string): string {
    if s == [] then [] else (if s[0] == c then code else [s[0]]) + Replace(s[1..], c, code)
  }

  function Chain(s: string, codes: Codes): string {
    if codes == [] then s
    else Replace(Chain(s, codes[..|codes| - 1]), codes[|codes| - 1].0, codes[|codes| - 1].1)
  }

  function CodeOf(c: char, codes: Codes): string {
    if codes == [] then [c]
    else if codes[|codes| - 1].0 == c then codes[|codes| - 1].1
    else CodeOf(c, codes[..|codes| - 1])
  }

  /** Every character replaced by its own code, all at once. */
  function Simultaneous(s: string, codes: Codes): string {
    if s == [] then [] else CodeOf(s[0], codes) + Simultaneous(s[1..], codes)
  }

  /** No replacement touches what an earlier one wrote, and none is made twice. */
  ghost predicate InOrder(codes: Codes) {
    forall i, j | 0 <= i < j < |codes| :: codes[i].0 != codes[j].0 && codes[j].0 !in codes[i].1
  }

  // ---- a chain in the right order is simultaneous ----

  lemma {:induction false} ReplaceOfJoined(a: string, b: string, c: char, code: string)
    ensures Replace(a + b, c, code) == Replace(a, c, code) + Replace(b, c, code)
  {
    if a == [] {
      assert a + b == b;
    } else {
      assert (a + b)[1..] == a[1..] + b;
      ReplaceOfJoined(a[1..], b, c, code);
    }
  }

  lemma {:induction false} ReplaceOfAbsent(s: string, c: char, code: string)
    requires c !in s
    ensures Replace(s, c, code) == s
  {
    if s != [] {
      ReplaceOfAbsent(s[1..], c, code);
    }
  }

  lemma {:induction false} CodeIsKnown(c: char, codes: Codes)
    ensures CodeOf(c, codes) == [c] || exists i :: 0 <= i < |codes| && codes[i] == (c, CodeOf(c, codes))
    ensures (forall i | 0 <= i < |codes| :: codes[i].0 != c) ==> CodeOf(c, codes) == [c]
  {
    if codes != [] {
      var front := codes[..|codes| - 1];
      CodeIsKnown(c, front);
      if codes[|codes| - 1].0 != c {
        if i :| 0 <= i < |front| && front[i] == (c, CodeOf(c, front)) {
          assert codes[i] == (c, CodeOf(c, codes));
        }
      } else {
        assert codes[|codes| - 1] == (c, CodeOf(c, codes));
      }
    }
  }

  lemma {:induction false} ReplaceAfterOthers(s: string, codes: Codes)
    requires codes != [] && InOrder(codes)
    ensures Replace(Simultaneous(s, codes[..|codes| - 1]), codes[|codes| - 1].0, codes[|codes| - 1].1)
            == Simultaneous(s, codes)
  {
    if s != [] {
      var front := codes[..|codes| - 1];
      var (c, code) := codes[|codes| - 1];
      ReplaceAfterOthers(s[1..], codes);
      ReplaceOfJoined(CodeOf(s[0], front), Simultaneous(s[1..], front), c, code);
      CodeIsKnown(s[0], front);
      if s[0] == c {
        assert Replace([c], c, code) == code;
      } else {
        assert c !in CodeOf(s[0], front);
        ReplaceOfAbsent(CodeOf(s[0], front), c, code);
      }
    }
  }

  lemma {:induction false} ChainIsSimultaneous(s: string, codes: Codes)
    requires InOrder(codes)
    ensures Chain(s, codes) == Simultaneous(s, codes)
  {
    if codes == [] {
      NoCodes(s);
    } else {
      ChainIsSimultaneous(s, codes[..|codes| - 1]);
      ReplaceAfterOthers(s, codes);
    }
  }

  lemma {:induction false} NoCodes(s: string)
    ensures Simultaneous(s, []) == s
  {
    if s != [] {
      NoCodes(s[1..]);
    }
  }

  // ---- and can be undone ----

  /** Reads the first code that the text starts with, or one plain character. */
  function FirstCode(s: string, codes: Codes): (first: Option<(char, string)>)
    ensures first.Some? ==> first.value.1 <= s
  {
    if codes == [] then None
    else if codes[0].1 <= s then Some(codes[0])
    else FirstCode(s, codes[1..])
  }

  function Decode(s: string, codes: Codes): string {
    if s == [] then []
    else
      match FirstCode(s, codes)
      case Some((c, code)) => if code == [] then [c] else [c] + Decode(s[|code|..], codes)
      case None => [s[0]] + Decode(s[1..], codes)
  }

  /** All codes start with the escape character, which has a code itself, and none is the start of another. */
  ghost predicate Readable(codes: Codes, escape: char) {
    && (forall i | 0 <= i < |codes| :: codes[i].1 != [] && codes[i].1[0] == escape)
    && (exists i | 0 <= i < |codes| :: codes[i].0 == escape)
    && (forall i, j | 0 <= i < |codes| && 0 <= j < |codes| && codes[i].1 <= codes[j].1 :: codes[i] == codes[j])
  }

  lemma {:induction false} FirstCodeIsOnly(s: string, codes: Codes, i: nat)
    requires i < |codes| && codes[i].1 <= s
    requires forall j | 0 <= j < |codes| && codes[j].1 <= s :: codes[j] == codes[i]
    ensures FirstCode(s, codes) == Some(codes[i])
  {
    if codes[0].1 <= s {
    } else {
      forall j | 0 <= j < |codes[1..]| && codes[1..][j].1 <= s ensures codes[1..][j] == codes[i] {
        assert codes[1..][j] == codes[j + 1];
      }
      FirstCodeIsOnly(s, codes[1..], i - 1);
    }
  }

  lemma {:induction false} NoFirstCode(s: string, codes: Codes)
    requires forall j | 0 <= j < |codes| :: !(codes[j].1 <= s)
    ensures FirstCode(s, codes) == None
  {
    if codes != [] {
      assert forall j | 0 <= j < |codes[1..]| :: codes[1..][j] == codes[j + 1];
      NoFirstCode(s, codes[1..]);
    }
  }

  lemma OneCodeReads(code: string, other: string, tail: string)
    requires other <= code + tail
    ensures other <= code || code <= other
  {
    if |other| <= |code| {
      assert other == (code + tail)[..|other|] == code[..|other|];
    } else {
      assert code == (code + tail)[..|code|] == other[..|code|];
    }
  }

  /** What was written for one character is read back as it, whatever follows. */
  lemma DecodeFirst(c: char, tail: string, codes: Codes, escape: char)
    requires Readable(codes, escape)
    ensures Decode(CodeOf(c, codes) + tail, codes) == [c] + Decode(tail, codes)
  {
    var code := CodeOf(c, codes);
    CodeIsKnown(c, codes);
    if i :| 0 <= i < |codes| && codes[i] == (c, code) {
      forall j | 0 <= j < |codes| && codes[j].1 <= code + tail ensures codes[j] == codes[i] {
        OneCodeReads(code, codes[j].1, tail);
      }
      FirstCodeIsOnly(code + tail, codes, i);
      assert (code + tail)[|code|..] == tail;
    } else {
      EscapeHasCode(codes, escape);
      assert c != escape;
      NoFirstCode(code + tail, codes);
      assert (code + tail)[1..] == tail;
    }
  }

  lemma {:induction false} DecodeInverts(s: string, codes: Codes, escape: char)
    requires Readable(codes, escape)
    ensures Decode(Simultaneous(s, codes), codes) == s
  {
    if s != [] {
      DecodeInverts(s[1..], codes, escape);
      DecodeFirst(s[0], Simultaneous(s[1..], codes), codes, escape);
      assert s == [s[0]] + s[1..];
    }
  }

  lemma {:induction false} EscapeHasCode(codes: Codes, escape: char)
    requires exists i | 0 <= i < |codes| :: codes[i].0 == escape
    ensures exists i :: 0 <= i < |codes| && codes[i] == (escape, CodeOf(escape, codes))
  {
    var front := codes[..|codes| - 1];
    if codes[|codes| - 1].0 == escape {
      assert codes[|codes| - 1] == (escape, CodeOf(escape, codes));
    } else {
      var i :| 0 <= i < |codes| && codes[i].0 == escape;
      assert front[i].0 == escape;
      EscapeHasCode(front, escape);
      var j :| 0 <= j < |front| && front[j] == (escape, CodeOf(escape, front));
      assert codes[j] == (escape, CodeOf(escape, codes));
    }
  }

  // ---- what is left of an escaped character ----

  lemma {:induction false} EscapedIsGone(s: string, codes: Codes, c: char)
    requires exists i | 0 <= i < |codes| :: codes[i].0 == c
    requires forall i | 0 <= i < |codes| :: c !in codes[i].1
    ensures c !in Simultaneous(s, codes)
  {
    if s != [] {
      EscapeHasCode(codes, c);
      EscapedIsGone(s[1..], codes, c);
      CodeIsKnown(s[0], codes);
    }
  }

  // ---- the property list and the query filter ----

  const PLIST: Codes := [('&', "&amp;"), ('<', "&lt;"), ('>', "&gt;"), ('"', "&quot;"), ('\'', "&apos;")]

  const ODATA: Codes :=
    [('%', "%25"), (' ', "%20"), ('&', "%26"), ('=', "%3D"), ('?', "%3F"), ('#', "%23"), ('\'', "%27")]

  function EscapePlist(value: string): string {
    Chain(value, PLIST)
  }

  function EncodeODataFilter(value: string): string {
    Chain(value, ODATA)
  }

  lemma PlistCodesDiffer(i: nat, j: nat)
    requires i < |PLIST| && j < |PLIST| && PLIST[i].1 <= PLIST[j].1
    ensures i == j
  {
    assert PLIST[i].1[1] == PLIST[j].1[1] && PLIST[i].1[2] == PLIST[j].1[2];
  }

  predicate InEntity(c: char) {
    c == '&' || c == ';' || 'a' <= c <= 'z'
  }

  lemma PlistCodesAreEntities(i: nat)
    requires i < |PLIST|
    ensures PLIST[i].1 != [] && PLIST[i].1[0] == '&' && forall k | 0 <= k < |PLIST[i].1| :: InEntity(PLIST[i].1[k])
    ensures i > 0 ==> !InEntity(PLIST[i].0)
  {
  }

  lemma PlistKeysDiffer(i: nat, j: nat)
    requires i < j < |PLIST|
    ensures PLIST[i].0 != PLIST[j].0
  {
  }

  lemma PlistInOrder()
    ensures InOrder(PLIST)
  {
    forall i, j | 0 <= i < j < |PLIST| ensures PLIST[i].0 != PLIST[j].0 && PLIST[j].0 !in PLIST[i].1 {
      PlistCodesAreEntities(i);
      PlistCodesAreEntities(j);
      PlistKeysDiffer(i, j);
    }
  }

  lemma PlistCodesFit()
    ensures InOrder(PLIST) && Readable(PLIST, '&')
  {
    PlistInOrder();
    assert PLIST[0].0 == '&';
    forall i | 0 <= i < |PLIST| ensures PLIST[i].1 != [] && PLIST[i].1[0] == '&' {
      PlistCodesAreEntities(i);
    }
    forall i, j | 0 <= i < |PLIST| && 0 <= j < |PLIST| && PLIST[i].1 <= PLIST[j].1 ensures PLIST[i] == PLIST[j] {
      PlistCodesDiffer(i, j);
    }
  }

  predicate InODataCode(c: char) {
    c in {'%', '0', '2', '3', '5', '6', '7', 'D', 'F'}
  }

  lemma ODataCodesAreHex(i: nat)
    requires i < |ODATA|
    ensures |ODATA[i].1| == 3 && ODATA[i].1[0] == '%'
    ensures InODataCode(ODATA[i].1[1]) && InODataCode(ODATA[i].1[2])
    ensures i > 0 ==> !InODataCode(ODATA[i].0)
  {
  }

  lemma ODataKeysDiffer(i: nat, j: nat)
    requires i < |ODATA| && j < |ODATA|
    ensures ODATA[i].0 == ODATA[j].0 ==> i == j
    ensures ODATA[i].1[1..] == ODATA[j].1[1..] ==> i == j
  {
    var s, t := ODATA[i].1[1..], ODATA[j].1[1..];
    assert s == t ==> s[0] == t[0] && s[1] == t[1];
  }

  lemma ODataCodesFit()
    ensures InOrder(ODATA) && Readable(ODATA, '%')
  {
    assert ODATA[0].0 == '%';
    forall i | 0 <= i < |ODATA|
      ensures ODATA[i].1 != [] && ODATA[i].1[0] == '%' && |ODATA[i].1| == 3
      ensures forall j | i < j < |ODATA| :: ODATA[j].0 !in ODATA[i].1 && ODATA[i].0 != ODATA[j].0
    {
      ODataCodesAreHex(i);
      forall j | i < j < |ODATA| ensures ODATA[j].0 !in ODATA[i].1 && ODATA[i].0 != ODATA[j].0 {
        ODataCodesAreHex(j);
        ODataKeysDiffer(i, j);
      }
    }
    forall i, j | 0 <= i < |ODATA| && 0 <= j < |ODATA| && ODATA[i].1 <= ODATA[j].1 ensures ODATA[i] == ODATA[j] {
      assert ODATA[i].1 == ODATA[j].1;
      ODataKeysDiffer(i, j);
    }
  }

  // ---- reading them back ----

  /** Reads text as XML does: the five predefined entities of section 4.6 of XML 1.0 stand for their characters. */
  function XmlText(s: string): string {
    if s == "" then ""
    else if "&amp;" <= s then ['&'] + XmlText(s[5..])
    else if "&lt;" <= s then ['<'] + XmlText(s[4..])
    else if "&gt;" <= s then ['>'] + XmlText(s[4..])
    else if "&quot;" <= s then ['"'] + XmlText(s[6..])
    else if "&apos;" <= s then ['\''] + XmlText(s[6..])
    else [s[0]] + XmlText(s[1..])
  }

  /** Reads triplets as in section 2.1 of RFC 3986: a percent sign and two hexadecimal digits stand for a character. */
  function PercentText(s: string): string {
    if s == "" then ""
    else if s[0] == '%' && |s| >= 3 && HexValue(s[1]).Some? && HexValue(s[2]).Some? then
      [((HexValue(s[1]).value * 16 + HexValue(s[2]).value) % 256) as char] + PercentText(s[3..])
    else [s[0]] + PercentText(s[1..])
  }

  lemma CodeOfListed(codes: Codes, i: nat)
    requires i < |codes| && forall j | 0 <= j < |codes| && j != i :: codes[j].0 != codes[i].0
    ensures CodeOf(codes[i].0, codes) == codes[i].1
  {
    EscapeHasCode(codes, codes[i].0);
  }

  lemma PlistCodeAt(i: nat)
    requires i < |PLIST|
    ensures CodeOf(PLIST[i].0, PLIST) == PLIST[i].1
  {
    forall j | 0 <= j < |PLIST| && j != i ensures PLIST[j].0 != PLIST[i].0 {
      if i < j {
        PlistKeysDiffer(i, j);
      } else {
        PlistKeysDiffer(j, i);
      }
    }
    CodeOfListed(PLIST, i);
  }

  lemma XmlReadsEntity(entity: string, c: char, tail: string)
    requires (entity, c) in {("&amp;", '&'), ("&lt;", '<'), ("&gt;", '>'), ("&quot;", '"'), ("&apos;", '\'')}
    ensures XmlText(entity + tail) == [c] + XmlText(tail)
  {
    var s := entity + tail;
    assert s[..|entity|] == entity && s[|entity|..] == tail;
    assert s[0] == entity[0] && s[1] == entity[1] && s[2] == entity[2];
  }

  lemma XmlReadsOther(c: char, tail: string)
    requires c != '&'
    ensures XmlText([c] + tail) == [c] + XmlText(tail)
  {
    var s := [c] + tail;
    assert s[0] == c && s[1..] == tail;
  }

  lemma XmlReadsOne(c: char, tail: string)
    ensures XmlText(CodeOf(c, PLIST) + tail) == [c] + XmlText(tail)
  {
    CodeIsKnown(c, PLIST);
    if i :| 0 <= i < |PLIST| && PLIST[i].0 == c {
      PlistCodeAt(i);
      XmlReadsEntity(PLIST[i].1, c, tail);
    } else {
      assert PLIST[0].0 == '&';
      XmlReadsOther(c, tail);
    }
  }

  lemma {:induction false} XmlReadsBack(value: string)
    ensures XmlText(Simultaneous(value, PLIST)) == value
  {
    if value != "" {
      XmlReadsBack(value[1..]);
      XmlReadsOne(value[0], Simultaneous(value[1..], PLIST));
      assert value == [value[0]] + value[1..];
    }
  }

  lemma PlistEscapes(c: char)
    requires c in {'<', '>', '"', '\''}
    ensures exists i :: 0 <= i < |PLIST| && PLIST[i].0 == c
    ensures forall i | 0 <= i < |PLIST| :: c !in PLIST[i].1
  {
    var i := if c == '<' then 1 else if c == '>' then 2 else if c == '"' then 3 else 4;
    assert PLIST[i].0 == c;
  }

  /** Read as XML the text is the value, and no markup character is left in it. */
  lemma PlistReadsBack(value: string)
    ensures XmlText(EscapePlist(value)) == value && Decode(EscapePlist(value), PLIST) == value
    ensures forall c | c in {'<', '>', '"', '\''} :: c !in EscapePlist(value)
  {
    PlistCodesFit();
    ChainIsSimultaneous(value, PLIST);
    DecodeInverts(value, PLIST, '&');
    XmlReadsBack(value);
    forall c | c in {'<', '>', '"', '\''} ensures c !in EscapePlist(value) {
      PlistEscapes(c);
      EscapedIsGone(value, PLIST, c);
    }
  }

  lemma ODataEscapes(c: char)
    requires c in {' ', '&', '=', '?', '#', '\''}
    ensures exists i :: 0 <= i < |ODATA| && ODATA[i].0 == c
    ensures forall i | 0 <= i < |ODATA| :: c !in ODATA[i].1
  {
    var i := if c == ' ' then 1 else if c == '&' then 2 else if c == '=' then 3 else if c == '?' then 4
             else if c == '#' then 5 else 6;
    assert ODATA[i].0 == c;
    forall j | 0 <= j < |ODATA| ensures c !in ODATA[j].1 {
      ODataCodesAreHex(j);
      ODataCodesAreHex(i);
    }
  }

  /** Every code is the triplet of its own character. */
  lemma ODataCodesAreTriplets(i: nat)
    requires i < |ODATA|
    ensures |ODATA[i].1| == 3 && ODATA[i].1[0] == '%'
    ensures HexValue(ODATA[i].1[1]).Some? && HexValue(ODATA[i].1[2]).Some?
    ensures HexValue(ODATA[i].1[1]).value * 16 + HexValue(ODATA[i].1[2]).value == ODATA[i].0 as int < 256
    ensures ODATA[0].0 == '%'
  {
  }

  lemma PercentReadsTriplet(code: string, c: char, tail: string)
    requires |code| == 3 && code[0] == '%' && HexValue(code[1]).Some? && HexValue(code[2]).Some?
    requires HexValue(code[1]).value * 16 + HexValue(code[2]).value == c as int < 256
    ensures PercentText(code + tail) == [c] + PercentText(tail)
  {
    var s := code + tail;
    assert s[0] == code[0] && s[1] == code[1] && s[2] == code[2] && s[3..] == tail;
  }

  lemma PercentReadsOther(c: char, tail: string)
    requires c != '%'
    ensures PercentText([c] + tail) == [c] + PercentText(tail)
  {
    var s := [c] + tail;
    assert s[0] == c && s[1..] == tail;
  }

  lemma ODataCodeAt(i: nat)
    requires i < |ODATA|
    ensures CodeOf(ODATA[i].0, ODATA) == ODATA[i].1
  {
    forall j | 0 <= j < |ODATA| && j != i ensures ODATA[j].0 != ODATA[i].0 {
      ODataKeysDiffer(i, j);
    }
    CodeOfListed(ODATA, i);
  }

  lemma PercentReadsOne(c: char, tail: string)
    ensures PercentText(CodeOf(c, ODATA) + tail) == [c] + PercentText(tail)
  {
    CodeIsKnown(c, ODATA);
    if i :| 0 <= i < |ODATA| && ODATA[i].0 == c {
      ODataCodeAt(i);
      ODataCodesAreTriplets(i);
      PercentReadsTriplet(ODATA[i].1, c, tail);
    } else {
      ODataCodesAreTriplets(0);
      PercentReadsOther(c, tail);
    }
  }

  lemma {:induction false} PercentReadsBack(value: string)
    ensures PercentText(Simultaneous(value, ODATA)) == value
  {
    if value != "" {
      PercentReadsBack(value[1..]);
      PercentReadsOne(value[0], Simultaneous(value[1..], ODATA));
      assert value == [value[0]] + value[1..];
    }
  }

  /** Read by percent-decoding the text is the value, and nothing that splits a query is left in it. */
  lemma ODataReadsBack(value: string)
    ensures PercentText(EncodeODataFilter(value)) == value && Decode(EncodeODataFilter(value), ODATA) == value
    ensures forall c | c in {' ', '&', '=', '?', '#', '\''} :: c !in EncodeODataFilter(value)
  {
    ODataCodesFit();
    ChainIsSimultaneous(value, ODATA);
    DecodeInverts(value, ODATA, '%');
    PercentReadsBack(value);
    forall c | c in {' ', '&', '=', '?', '#', '\''} ensures c !in EncodeODataFilter(value) {
      ODataEscapes(c);
      EscapedIsGone(value, ODATA, c);
    }
  }

  /** With the escape character last instead of first, two values are written alike. */
  lemma EscapeLastLosesValues()
    ensures Chain("<", [('<', "&lt;"), ('&', "&amp;")]) == "&amp;lt;"
    ensures Chain("&lt;", [('<', "&lt;"), ('&', "&amp;")]) == "&amp;lt;"
  {
    var codes: Codes := [('<', "&lt;"), ('&', "&amp;")];
    var first: Codes := [('<', "&lt;")];
    assert codes[..1] == first && first[..0] == [];
    LessThanIsWritten();
    ReplaceOfAbsent("&lt;", '<', "&lt;");
    assert Chain("<", first) == "&lt;" && Chain("&lt;", first) == "&lt;";
  }

  lemma LessThanIsWritten()
    ensures Replace("<", '<', "&lt;") == "&lt;" && Replace("&lt;", '&', "&amp;") == "&amp;lt;"
  {
    ReplaceOfAbsent([], '<', "&lt;");
    assert "<"[1..] == [] && "&lt;"[1..] == "lt;";
    ReplaceOfAbsent("lt;", '&', "&amp;");
    assert "&amp;" + "lt;" == "&amp;lt;";
  }
}
