/** The lines of a text. */
module TextLines {

  function IndexOfNewline(s: string): int {
    if s == [] then -1
    else if s[0] == '\n' then 0
    else
      var i := IndexOfNewline(s[1..]);
      if i < 0 then -1 else i + 1
  }

  lemma {:induction false} NewlineIsFirst(s: string)
    ensures IndexOfNewline(s) < 0 ==> '\n' !in s
    ensures IndexOfNewline(s) >= 0 ==>
              IndexOfNewline(s) < |s| && s[IndexOfNewline(s)] == '\n' && '\n' !in s[..IndexOfNewline(s)]
  {
    if s != [] && s[0] != '\n' {
      NewlineIsFirst(s[1..]);
      assert s == [s[0]] + s[1..];
      var i := IndexOfNewline(s);
      assert i >= 0 ==> s[..i] == [s[0]] + s[1..][..i - 1];
    }
  }

  function WithoutReturn(line: string): string {
    if line != [] && line[|line| - 1] == '\r' then line[..|line| - 1] else line
  }

  /** Rust's `str::lines`. */
  function Lines(s: string): seq<string> {
    NewlineIsFirst(s);
    var i := IndexOfNewline(s);
    if s == [] then []
    else if i < 0 then [s]
    else [WithoutReturn(s[..i])] + Lines(s[i + 1..])
  }

  lemma {:induction false} LinesHoldNoNewline(s: string)
    ensures forall i | 0 <= i < |Lines(s)| :: '\n' !in Lines(s)[i]
  {
    NewlineIsFirst(s);
    var i := IndexOfNewline(s);
    if s != [] && i >= 0 {
      LinesHoldNoNewline(s[i + 1..]);
    }
  }

  lemma {:induction false} FirstNewline(line: string, rest: string)
    requires '\n' !in line
    ensures IndexOfNewline(line + "\n" + rest) == |line|
  {
    var s := line + "\n" + rest;
    if line != [] {
      assert line[0] in line && forall c | c in line[1..] :: c in line;
      assert s[0] == line[0] && s[1..] == line[1..] + "\n" + rest;
      FirstNewline(line[1..], rest);
    }
  }

  /** A line ends at its newline, and at a carriage return right before that. */
  lemma LinesOfJoined(line: string, rest: string)
    requires '\n' !in line
    ensures Lines(line + "\n" + rest)
            == [if line != [] && line[|line| - 1] == '\r' then line[..|line| - 1] else line] + Lines(rest)
  {
    var s := line + "\n" + rest;
    FirstNewline(line, rest);
    assert s[..|line|] == line && s[|line| + 1..] == rest;
  }
}
