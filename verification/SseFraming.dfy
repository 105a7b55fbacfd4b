/** Cutting a stream of server-sent events into frames, however the stream is chopped into chunks. */
module SseFraming {

  /** The index of the first blank line, or -1. */
  function FirstBreak(s: string): (i: int)
    ensures i >= 0 ==> i + 2 <= |s|
  {
    if |s| < 2 then -1
    else if s[0] == '\n' && s[1] == '\n' then 0
    else
      var i := FirstBreak(s[1..]);
      if i < 0 then -1 else i + 1
  }

  predicate BreakAt(s: string, i: int) {
    0 <= i <= |s| - 2 && s[i] == '\n' && s[i + 1] == '\n'
  }

  predicate Unbroken(s: string) {
    forall i | 0 <= i <= |s| - 2 :: !BreakAt(s, i)
  }

  lemma {:induction false} FirstBreakIsFirst(s: string)
    ensures FirstBreak(s) < 0 ==> Unbroken(s)
    ensures FirstBreak(s) >= 0 ==> BreakAt(s, FirstBreak(s)) && forall i | 0 <= i < FirstBreak(s) :: !BreakAt(s, i)
  {
    if |s| >= 2 && !BreakAt(s, 0) {
      FirstBreakIsFirst(s[1..]);
      forall i | 0 < i <= |s| - 2 ensures BreakAt(s, i) <==> BreakAt(s[1..], i - 1) {
      }
    }
  }

  lemma FirstBreakIs(s: string, i: nat)
    requires BreakAt(s, i) && forall j | 0 <= j < i :: !BreakAt(s, j)
    ensures FirstBreak(s) == i
  {
    FirstBreakIsFirst(s);
  }

  function Frames(s: string): seq<string> {
    var i := FirstBreak(s);
    if i < 0 then [] else [s[..i]] + Frames(s[i + 2..])
  }

  function Rest(s: string): string {
    var i := FirstBreak(s);
    if i < 0 then s else Rest(s[i + 2..])
  }

  /** Frames written one after the other, each followed by a blank line, and then what is left over. */
  function Joined(frames: seq<string>, rest: string): string {
    if frames == [] then rest else frames[0] + "\n\n" + Joined(frames[1..], rest)
  }

  predicate IsFrame(s: string) {
    Unbroken(s) && (s == [] || s[|s| - 1] != '\n')
  }

  ghost predicate AreFrames(frames: seq<string>) {
    forall i | 0 <= i < |frames| :: IsFrame(frames[i])
  }

  // ---- cutting and joining ----

  lemma FirstFrameIsFrame(s: string)
    requires FirstBreak(s) >= 0
    ensures FirstBreak(s) <= |s| - 2 && IsFrame(s[..FirstBreak(s)])
    ensures s == s[..FirstBreak(s)] + "\n\n" + s[FirstBreak(s) + 2..]
  {
    FirstBreakIsFirst(s);
    BeforeBreakIsFrame(s, FirstBreak(s));
    SplitAtBreak(s, FirstBreak(s));
  }

  lemma BeforeBreakIsFrame(s: string, i: nat)
    requires BreakAt(s, i) && forall j | 0 <= j < i :: !BreakAt(s, j)
    ensures IsFrame(s[..i])
  {
    var front := s[..i];
    forall j | 0 <= j <= i - 2 ensures !BreakAt(front, j) {
      assert !BreakAt(s, j) && front[j] == s[j] && front[j + 1] == s[j + 1];
    }
    assert i > 0 ==> !BreakAt(s, i - 1) && front[i - 1] == s[i - 1];
  }

  lemma SplitAtBreak(s: string, i: nat)
    requires BreakAt(s, i)
    ensures i <= |s| - 2 && s == s[..i] + "\n\n" + s[i + 2..]
  {
    assert s[i..i + 2] == "\n\n";
    assert s == s[..i] + s[i..i + 2] + s[i + 2..];
  }

  /** Nothing is lost: the frames and the rest give back the text, and none of them holds a blank line. */
  lemma {:induction false} FramesRejoin(s: string)
    ensures Joined(Frames(s), Rest(s)) == s && AreFrames(Frames(s)) && Unbroken(Rest(s))
  {
    FirstBreakIsFirst(s);
    var i := FirstBreak(s);
    if i >= 0 {
      FirstFrameIsFrame(s);
      FramesRejoin(s[i + 2..]);
      assert Frames(s)[1..] == Frames(s[i + 2..]);
    }
  }

  lemma FrameThenBreak(frame: string, tail: string)
    requires IsFrame(frame)
    ensures FirstBreak(frame + "\n\n" + tail) == |frame|
    ensures (frame + "\n\n" + tail)[..|frame|] == frame && (frame + "\n\n" + tail)[|frame| + 2..] == tail
  {
    var s := frame + "\n\n" + tail;
    assert BreakAt(s, |frame|);
    forall j | 0 <= j < |frame| ensures !BreakAt(s, j) {
      assert j <= |frame| - 2 ==> !BreakAt(frame, j);
    }
    FirstBreakIs(s, |frame|);
  }

  /** And nothing else does: any frames joined this way are cut into just those frames again. */
  lemma {:induction false} JoinedCuts(frames: seq<string>, rest: string)
    requires AreFrames(frames) && Unbroken(rest)
    ensures Frames(Joined(frames, rest)) == frames && Rest(Joined(frames, rest)) == rest
  {
    if frames == [] {
      FirstBreakIsFirst(rest);
    } else {
      JoinedCuts(frames[1..], rest);
      FrameThenBreak(frames[0], Joined(frames[1..], rest));
      assert frames == [frames[0]] + frames[1..];
    }
  }

  // ---- chunks ----

  /** What was cut off before more text arrives is what would be cut off anyway. */
  lemma {:induction false} CutEarlyOrLate(a: string, b: string)
    ensures Frames(a + b) == Frames(a) + Frames(Rest(a) + b) && Rest(a + b) == Rest(Rest(a) + b)
  {
    FirstBreakIsFirst(a);
    var i := FirstBreak(a);
    if i >= 0 {
      var head, tail := a[..i], a[i + 2..];
      BreakInLonger(a, b, i);
      BrokenIs(a, head, tail);
      BrokenIs(a + b, head, tail + b);
      CutEarlyOrLate(tail, b);
      Regroup([head], Frames(tail), Frames(Rest(tail) + b));
    }
  }

  /** The first frame, and those of what follows. */
  lemma FramesOfBroken(s: string)
    requires FirstBreak(s) >= 0
    ensures Frames(s) == [s[..FirstBreak(s)]] + Frames(s[FirstBreak(s) + 2..])
  {
  }

  lemma RestOfBroken(s: string)
    requires FirstBreak(s) >= 0
    ensures Rest(s) == Rest(s[FirstBreak(s) + 2..])
  {
  }

  lemma BrokenIs(s: string, head: string, tail: string)
    requires FirstBreak(s) >= 0 && head == s[..FirstBreak(s)] && tail == s[FirstBreak(s) + 2..]
    ensures Frames(s) == [head] + Frames(tail) && Rest(s) == Rest(tail)
  {
    FramesOfBroken(s);
    RestOfBroken(s);
  }

  lemma BreakInLonger(a: string, b: string, i: nat)
    requires BreakAt(a, i) && forall j | 0 <= j < i :: !BreakAt(a, j)
    ensures i <= |a| - 2 && FirstBreak(a + b) == i
    ensures (a + b)[..i] == a[..i] && (a + b)[i + 2..] == a[i + 2..] + b
  {
    forall j | 0 <= j <= i ensures BreakAt(a + b, j) <==> BreakAt(a, j) {
      assert (a + b)[j] == a[j] && (a + b)[j + 1] == a[j + 1];
    }
    FirstBreakIs(a + b, i);
  }

  function Concatenated(chunks: seq<string>): string {
    if chunks == [] then [] else Concatenated(chunks[..|chunks| - 1]) + chunks[|chunks| - 1]
  }

  /** The buffer and the frames handled so far, after each chunk has been received and drained. */
  function Received(chunks: seq<string>): (seq<string>, string) {
    if chunks == [] then ([], [])
    else
      var (frames, buffer) := Received(chunks[..|chunks| - 1]);
      var text := buffer + chunks[|chunks| - 1];
      (frames + Frames(text), Rest(text))
  }

  /** However a text is chopped up, the frames and what is left over are those of the text in one piece. */
  lemma {:induction false} ChunkingDoesNotMatter(chunks: seq<string>)
    ensures Received(chunks) == (Frames(Concatenated(chunks)), Rest(Concatenated(chunks)))
  {
    if chunks != [] {
      ChunkingDoesNotMatter(chunks[..|chunks| - 1]);
      CutEarlyOrLate(Concatenated(chunks[..|chunks| - 1]), chunks[|chunks| - 1]);
    }
  }

  lemma Regroup(a: seq<string>, b: seq<string>, c: seq<string>)
    ensures a + (b + c) == a + b + c
  {
  }

  class EventBuffer {
    var buffer: string

    constructor ()
      ensures buffer == ""
    {
      buffer := "";
    }

    /** Takes every complete frame out of the buffer. */
    method Drain() returns (frames: seq<string>)
      modifies this
      ensures frames == Frames(old(buffer)) && buffer == Rest(old(buffer))
    {
      frames := [];
      var end := FirstBreak(buffer);
      while end >= 0
        invariant end == FirstBreak(buffer)
        invariant Frames(old(buffer)) == frames + Frames(buffer) && Rest(old(buffer)) == Rest(buffer)
        decreases |buffer|
      {
        FirstBreakIsFirst(buffer);
        BrokenIs(buffer, buffer[..end], buffer[end + 2..]);
        Regroup(frames, [buffer[..end]], Frames(buffer[end + 2..]));
        frames := frames + [buffer[..end]];
        buffer := buffer[end + 2..];
        end := FirstBreak(buffer);
      }
    }

    /** Receives the chunks of a whole stream. */
    method Receive(chunks: seq<string>) returns (frames: seq<string>)
      requires buffer == ""
      modifies this
      ensures frames == Frames(Concatenated(chunks)) && buffer == Rest(Concatenated(chunks))
    {
      frames := [];
      for n := 0 to |chunks|
        invariant (frames, buffer) == Received(chunks[..n])
      {
        assert chunks[..n + 1][..n] == chunks[..n];
        buffer := buffer + chunks[n];
        var drained := Drain();
        frames := frames + drained;
      }
      assert chunks[..|chunks|] == chunks;
      ChunkingDoesNotMatter(chunks);
    }
  }
}
