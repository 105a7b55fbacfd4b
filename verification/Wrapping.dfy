/** Wrapping text for the terminal without losing any of it. */
module Wrapping {
  import opened TextLines

  const INDENT := "  "

  /** One source line: full lines of `width` characters, each continued behind an indent. */
  function WrapSource(line: string, width: nat): seq<string>
    requires width >= 20
    decreases |line|
  {
    if |line| <= width then [line] else [line[..width]] + WrapSource(INDENT + line[width..], width)
  }

  function WrapAll(lines: seq<string>, width: nat): seq<string>
    requires width >= 20
  {
    if lines == [] then [] else WrapAll(lines[..|lines| - 1], width) + WrapSource(lines[|lines| - 1], width)
  }

  function EffectiveWidth(width: nat): nat {
    if width < 20 then 20 else width
  }

  /** An empty text still shows one line. */
  function Wrap(text: string, width: nat): seq<string> {
    var out := WrapAll(Lines(text), EffectiveWidth(width));
    if out == [] then [""] else out
  }

  method WrapLine(text: string, width: nat) returns (out: seq<string>)
    ensures out == Wrap(text, width)
  {
    var w := if width < 20 then 20 else width;
    var lines := Lines(text);
    out := [];
    for n := 0 to |lines|
      invariant out == WrapAll(lines[..n], w)
    {
      assert lines[..n + 1][..n] == lines[..n];
      ghost var before := out;
      var line := lines[n];
      while |line| > w
        invariant out + WrapSource(line, w) == before + WrapSource(lines[n], w)
        decreases |line|
      {
        var head := line[..w];
        Regroup(out, head, WrapSource(INDENT + line[w..], w));
        out := out + [head];
        line := INDENT + line[w..];
      }
      out := out + [line];
    }
    assert lines[..|lines|] == lines;
    if out == [] {
      out := [""];
    }
  }

  lemma Regroup(out: seq<string>, head: string, rest: seq<string>)
    ensures out + ([head] + rest) == out + [head] + rest
  {
  }

  // ---- no line is too long ----

  lemma {:induction false} SourceLinesFit(line: string, width: nat)
    requires width >= 20
    ensures forall l | l in WrapSource(line, width) :: |l| <= width
    decreases |line|
  {
    if |line| > width {
      SourceLinesFit(INDENT + line[width..], width);
    }
  }

  lemma {:induction false} AllLinesFit(lines: seq<string>, width: nat)
    requires width >= 20
    ensures forall l | l in WrapAll(lines, width) :: |l| <= width
  {
    if lines != [] {
      AllLinesFit(lines[..|lines| - 1], width);
      SourceLinesFit(lines[|lines| - 1], width);
    }
  }

  lemma WrappedFits(text: string, width: nat)
    ensures forall l | l in Wrap(text, width) :: |l| <= EffectiveWidth(width)
  {
    AllLinesFit(Lines(text), EffectiveWidth(width));
  }

  // ---- nothing is lost ----

  /** The wrapped lines of one source line put together again, without the indents of the continuations. */
  function Unwrap(lines: seq<string>): string
    requires lines != [] && forall i | 0 < i < |lines| :: INDENT <= lines[i]
  {
    lines[0] + Continuations(lines[1..])
  }

  function Continuations(lines: seq<string>): string
    requires forall i | 0 <= i < |lines| :: INDENT <= lines[i]
  {
    if lines == [] then [] else lines[0][|INDENT|..] + Continuations(lines[1..])
  }

  lemma {:induction false} SourceReadsBack(line: string, width: nat)
    requires width >= 20
    ensures WrapSource(line, width) != []
    ensures forall i | 0 < i < |WrapSource(line, width)| :: INDENT <= WrapSource(line, width)[i]
    ensures Unwrap(WrapSource(line, width)) == line
    ensures INDENT <= line ==> INDENT <= WrapSource(line, width)[0]
    decreases |line|
  {
    if |line| > width {
      var rest := INDENT + line[width..];
      SourceReadsBack(rest, width);
      var tail := WrapSource(rest, width);
      assert INDENT <= rest && INDENT <= tail[0];
      assert WrapSource(line, width)[1..] == tail;
      assert tail[0][|INDENT|..] + Continuations(tail[1..]) == line[width..] by {
        assert (tail[0] + Continuations(tail[1..]))[|INDENT|..] == tail[0][|INDENT|..] + Continuations(tail[1..]);
        assert rest[|INDENT|..] == line[width..];
      }
      assert line == line[..width] + line[width..];
    }
  }

  // ---- how many lines there are ----

  lemma QuotientIs(x: nat, b: nat, q: nat)
    requires b > 0 && q * b <= x < (q + 1) * b
    ensures x / b == q
  {
    var r := x % b;
    assert x == x / b * b + r;
    MultiplesOrdered(x / b + 1, q, b);
    MultiplesOrdered(q + 1, x / b, b);
  }

  lemma MultiplesOrdered(i: int, j: int, b: nat)
    ensures i <= j ==> i * b <= j * b
  {
  }

  /** Every line but the last carries as much as it can, so their number lies between these bounds. */
  lemma {:induction false} LineCountBounds(line: string, width: nat)
    requires width >= 20 && |line| > width
    ensures var c := |WrapSource(line, width)|;
            c >= 2 && (c - 2) * (width - 2) < |line| - width <= (c - 1) * (width - 2)
    decreases |line|
  {
    var rest := INDENT + line[width..];
    var c := |WrapSource(line, width)|;
    assert c == 1 + |WrapSource(rest, width)|;
    if |rest| > width {
      LineCountBounds(rest, width);
      assert (c - 2) * (width - 2) == (c - 3) * (width - 2) + (width - 2);
      assert (c - 1) * (width - 2) == (c - 2) * (width - 2) + (width - 2);
    } else {
      assert c == 2;
    }
  }

  /** A source line of n characters above the width takes one line and then ceil((n - w) / (w - 2)) more. */
  lemma LineCount(line: string, width: nat)
    requires width >= 20
    ensures |WrapSource(line, width)|
            == if |line| <= width then 1 else 1 + (|line| - width + (width - 2) - 1) / (width - 2)
  {
    if |line| > width {
      LineCountBounds(line, width);
      var c := |WrapSource(line, width)|;
      assert (c - 1) * (width - 2) == (c - 2) * (width - 2) + (width - 2);
      assert c * (width - 2) == (c - 1) * (width - 2) + (width - 2);
      QuotientIs(|line| - width + (width - 2) - 1, width - 2, c - 1);
    }
  }
}
