/** Writing a TOML v1.0.0 basic string, and the rules of that format for reading one. */
module TomlStrings {
  import opened Text

  /** Rust's `char::is_control`: the general category Cc. */
  predicate IsControl(c: char) {
    c < ' ' || '\U{007F}' <= c <= '\U{009F}'
  }

  function UpperHex4(n: nat): string
    requires n < 0x10000
  {
    [UpperHexDigit(n / 4096), UpperHexDigit(n / 256 % 16), UpperHexDigit(n / 16 % 16), UpperHexDigit(n % 16)]
  }

  function Escaped(c: char): string {
    match c
    case '"' => "\\\""
    case '\\' => "\\\\"
    case '\n' => "\\n"
    case '\r' => "\\r"
    case '\t' => "\\t"
    case _ => if IsControl(c) then "\\u" + UpperHex4(c as int) else [c]
  }

  function EscapedAll(s: string): string {
    if s == [] then [] else Escaped(s[0]) + EscapedAll(s[1..])
  }

  function BasicString(s: string): string {
    "\"" + EscapedAll(s) + "\""
  }

  lemma Regroup(a: string, b: string, c: string)
    ensures a + (b + c) == a + b + c
  {
  }

  method PushEscaped(escaped: string, c: char) returns (longer: string)
    ensures longer == escaped + Escaped(c)
  {
    if c == '"' {
      longer := escaped + "\\\"";
    } else if c == '\\' {
      longer := escaped + "\\\\";
    } else if c == '\n' {
      longer := escaped + "\\n";
    } else if c == '\r' {
      longer := escaped + "\\r";
    } else if c == '\t' {
      longer := escaped + "\\t";
    } else if IsControl(c) {
      longer := escaped + ("\\u" + UpperHex4(c as int));
    } else {
      longer := escaped + [c];
    }
  }

  method WriteBasicString(value: string) returns (escaped: string)
    ensures escaped == BasicString(value)
  {
    escaped := "\"";
    for n := 0 to |value|
      invariant escaped + EscapedAll(value[n..]) == "\"" + EscapedAll(value)
    {
      assert value[n..][1..] == value[n + 1..];
      Regroup(escaped, Escaped(value[n]), EscapedAll(value[n + 1..]));
      escaped := PushEscaped(escaped, value[n]);
    }
    assert value[|value|..] == [];
    escaped := escaped + "\"";
  }

  // ---- reading ----

  function HexNumber(s: string): Option<nat> {
    if s == [] then Some(0)
    else
      var front, digit := HexNumber(s[..|s| - 1]), HexValue(s[|s| - 1]);
      if front.None? || digit.None? then None else Some(front.value * 16 + digit.value)
  }

  predicate IsScalar(n: nat) {
    n < 0xD800 || 0xE000 <= n < 0x11_0000
  }

  function ScalarOf(digits: string): Option<char> {
    var n := HexNumber(digits);
    if n.None? || !IsScalar(n.value) then None else Some(n.value as char)
  }

  /** Characters that may stand for themselves: no quote, no backslash, no control character but tab. */
  predicate MayStandRaw(c: char) {
    c == '\t' || (' ' <= c && c != '"' && c != '\\' && c != '\U{007F}')
  }

  /** One character of a basic string and how many were read for it; None at the closing quote and on errors. */
  function ReadChar(s: string): (r: Option<(char, nat)>)
    ensures r.Some? ==> 0 < r.value.1 <= |s|
  {
    if s == [] then None
    else if MayStandRaw(s[0]) then Some((s[0], 1))
    else if s[0] != '\\' || |s| < 2 then None
    else
      match s[1]
      case 'b' => Some(('\U{0008}', 2))
      case 't' => Some(('\t', 2))
      case 'n' => Some(('\n', 2))
      case 'f' => Some(('\U{000C}', 2))
      case 'r' => Some(('\r', 2))
      case '"' => Some(('"', 2))
      case '\\' => Some(('\\', 2))
      case 'u' => if |s| < 6 || ScalarOf(s[2..6]).None? then None else Some((ScalarOf(s[2..6]).value, 6))
      case 'U' => if |s| < 10 || ScalarOf(s[2..10]).None? then None else Some((ScalarOf(s[2..10]).value, 10))
      case _ => None
  }

  /** The rest of a basic string up to its closing quote, and what follows it. */
  function ReadBody(s: string): Option<(string, string)> {
    if s == [] then None
    else if s[0] == '"' then Some(([], s[1..]))
    else
      var first := ReadChar(s);
      if first.None? then None
      else
        var rest := ReadBody(s[first.value.1..]);
        if rest.None? then None else Some(([first.value.0] + rest.value.0, rest.value.1))
  }

  function ReadBasicString(s: string): Option<(string, string)> {
    if s == [] || s[0] != '"' then None else ReadBody(s[1..])
  }

  lemma HexNumberOfOneMore(s: string, v: nat, digit: nat)
    requires HexNumber(s) == Some(v) && digit < 16
    ensures HexNumber(s + [UpperHexDigit(digit)]) == Some(v * 16 + digit)
  {
    UpperHexReadsBack(digit);
    assert (s + [UpperHexDigit(digit)])[..|s|] == s;
  }

  lemma TwoDigitsReadBack(s: string, v: nat, a: nat, b: nat)
    requires HexNumber(s) == Some(v) && a < 16 && b < 16
    ensures HexNumber(s + [UpperHexDigit(a), UpperHexDigit(b)]) == Some((v * 16 + a) * 16 + b)
  {
    HexNumberOfOneMore(s, v, a);
    HexNumberOfOneMore(s + [UpperHexDigit(a)], v * 16 + a, b);
    assert s + [UpperHexDigit(a)] + [UpperHexDigit(b)] == s + [UpperHexDigit(a), UpperHexDigit(b)];
  }

  lemma FourDigitsReadBack(a: nat, b: nat, c: nat, d: nat)
    requires a < 16 && b < 16 && c < 16 && d < 16
    ensures HexNumber([UpperHexDigit(a), UpperHexDigit(b), UpperHexDigit(c), UpperHexDigit(d)])
            == Some((((a * 16) + b) * 16 + c) * 16 + d)
  {
    TwoDigitsReadBack([], 0, a, b);
    var front := [UpperHexDigit(a), UpperHexDigit(b)];
    assert [] + front == front;
    TwoDigitsReadBack(front, a * 16 + b, c, d);
    assert front + [UpperHexDigit(c), UpperHexDigit(d)]
           == [UpperHexDigit(a), UpperHexDigit(b), UpperHexDigit(c), UpperHexDigit(d)];
  }

  lemma Hex4ReadsBack(n: nat)
    requires n < 0x10000
    ensures HexNumber(UpperHex4(n)) == Some(n)
  {
    FourDigitsReadBack(n / 4096, n / 256 % 16, n / 16 % 16, n % 16);
    FourDigitsSum(n);
  }

  lemma FourDigitsSum(n: nat)
    ensures (((n / 4096 * 16) + n / 256 % 16) * 16 + n / 16 % 16) * 16 + n % 16 == n
  {
    assert n / 4096 == n / 256 / 16 && n / 256 == n / 16 / 16;
    assert n / 4096 * 16 + n / 256 % 16 == n / 256 && n / 256 * 16 + n / 16 % 16 == n / 16;
  }

  /** Whatever was written for a character is read back as that character, and the reader stops behind it. */
  lemma EscapedReadsBack(c: char, tail: string)
    ensures ReadChar(Escaped(c) + tail) == Some((c, |Escaped(c)|))
    ensures Escaped(c)[0] != '"'
  {
    var s := Escaped(c) + tail;
    if IsControl(c) && c !in {'\n', '\r', '\t'} {
      Hex4ReadsBack(c as int);
      assert s[0] == '\\' && s[1] == 'u' && s[2..6] == UpperHex4(c as int);
    } else if c in {'"', '\\', '\n', '\r', '\t'} {
      assert s[0] == '\\' && s[1] == Escaped(c)[1];
    } else {
      assert s[0] == c;
    }
  }

  lemma ReadBodyOfOneMore(code: string, c: char, rest: string, s: string, tail: string)
    requires ReadChar(code + rest) == Some((c, |code|)) && code != [] && code[0] != '"'
    requires ReadBody(rest) == Some((s, tail))
    ensures ReadBody(code + rest) == Some(([c] + s, tail))
  {
    assert (code + rest)[|code|..] == rest && (code + rest)[0] == code[0];
  }

  lemma {:induction false} BodyReadsBack(s: string, tail: string)
    ensures ReadBody(EscapedAll(s) + ("\"" + tail)) == Some((s, tail))
  {
    if s == [] {
      assert [] + ("\"" + tail) == "\"" + tail;
    } else {
      var code, rest := Escaped(s[0]), EscapedAll(s[1..]) + ("\"" + tail);
      BodyReadsBack(s[1..], tail);
      EscapedReadsBack(s[0], rest);
      ReadBodyOfOneMore(code, s[0], rest, s[1..], tail);
      Regroup(code, EscapedAll(s[1..]), "\"" + tail);
      assert s == [s[0]] + s[1..];
    }
  }

  /** Reading under the rules of TOML gives the value back, whatever follows the string. */
  lemma BasicStringReadsBack(s: string, tail: string)
    ensures ReadBasicString(BasicString(s) + tail) == Some((s, tail))
  {
    BodyReadsBack(s, tail);
    QuotedIsRead(EscapedAll(s), tail);
  }

  lemma QuotedIsRead(body: string, tail: string)
    ensures ReadBasicString("\"" + body + "\"" + tail) == ReadBody(body + ("\"" + tail))
  {
    var s := "\"" + body + "\"" + tail;
    assert s[0] == '"' && s[1..] == body + ("\"" + tail);
  }

  /** Nothing that is written needs more than the raw characters, the quote of an escape and the backslash. */
  lemma {:induction false} WrittenIsPrintable(s: string)
    ensures forall i | 0 <= i < |EscapedAll(s)| :: !IsControl(EscapedAll(s)[i])
    ensures forall i | 0 <= i < |EscapedAll(s)| && EscapedAll(s)[i] == '"' :: i > 0 && EscapedAll(s)[i - 1] == '\\'
  {
    if s != [] {
      var code, rest := Escaped(s[0]), EscapedAll(s[1..]);
      WrittenIsPrintable(s[1..]);
      EscapedIsPrintable(s[0]);
      PrintableJoined(code, rest);
    }
  }

  /** Everything but quotes, backslashes and control characters is written as it is. */
  lemma {:induction false} PrintableIsKept(s: string)
    requires forall i | 0 <= i < |s| :: s[i] != '"' && s[i] != '\\' && ' ' <= s[i]
                                        && !('\U{007F}' <= s[i] <= '\U{009F}')
    ensures EscapedAll(s) == s
  {
    if s != [] {
      assert forall i | 0 <= i < |s[1..]| :: s[1..][i] == s[i + 1];
      PrintableIsKept(s[1..]);
      assert Escaped(s[0]) == [s[0]] && s == [s[0]] + s[1..];
    }
  }

  lemma PrintableJoined(a: string, b: string)
    requires forall i | 0 <= i < |a| :: !IsControl(a[i])
    requires forall i | 0 <= i < |b| :: !IsControl(b[i])
    requires forall i | 0 <= i < |a| && a[i] == '"' :: i > 0 && a[i - 1] == '\\'
    requires forall i | 0 <= i < |b| && b[i] == '"' :: i > 0 && b[i - 1] == '\\'
    ensures forall i | 0 <= i < |a + b| :: !IsControl((a + b)[i])
    ensures forall i | 0 <= i < |a + b| && (a + b)[i] == '"' :: i > 0 && (a + b)[i - 1] == '\\'
  {
    forall i | 0 <= i < |a + b| && (a + b)[i] == '"' ensures i > 0 && (a + b)[i - 1] == '\\' {
      if i >= |a| {
        assert b[i - |a|] == '"';
      }
    }
  }

  lemma EscapedIsPrintable(c: char)
    ensures forall i | 0 <= i < |Escaped(c)| :: !IsControl(Escaped(c)[i])
    ensures forall i | 0 <= i < |Escaped(c)| && Escaped(c)[i] == '"' :: i > 0 && Escaped(c)[i - 1] == '\\'
  {
  }
}
