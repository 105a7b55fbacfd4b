/** The hand-written base64 encoder, for any number of bytes, against the decoder of section 4 of RFC 4648. */
module Base64 {
  import opened Text

  /** The alphabet of section 4. */
  function Symbol(n: nat): char
    requires n < 64
  {
    if n < 26 then 'A' + n as char
    else if n < 52 then 'a' + (n - 26) as char
    else if n < 62 then '0' + (n - 52) as char
    else if n == 62 then '+'
    else '/'
  }

  function Value(c: char): (v: Option<nat>)
    ensures v.Some? ==> v.value < 64
  {
    if 'A' <= c <= 'Z' then Some(c as int - 'A' as int)
    else if 'a' <= c <= 'z' then Some(c as int - 'a' as int + 26)
    else if '0' <= c <= '9' then Some(c as int - '0' as int + 52)
    else if c == '+' then Some(62)
    else if c == '/' then Some(63)
    else None
  }

  /** One to three bytes as a 24-bit number; missing bytes count as zero. */
  function TripleOf(chunk: seq<Byte>): (triple: nat)
    requires 1 <= |chunk| <= 3
    ensures triple < 0x100_0000
  {
    var b1: int := if |chunk| > 1 then chunk[1] else 0;
    var b2: int := if |chunk| > 2 then chunk[2] else 0;
    (chunk[0] as int) * 65536 + b1 * 256 + b2
  }

  /** The four characters for one to three bytes; missing bytes show as padding. */
  function EncodeChunk(chunk: seq<Byte>): (group: string)
    requires 1 <= |chunk| <= 3
    ensures |group| == 4
  {
    var triple := TripleOf(chunk);
    [Symbol(triple / 262144 % 64), Symbol(triple / 4096 % 64),
     if |chunk| > 1 then Symbol(triple / 64 % 64) else '=',
     if |chunk| > 2 then Symbol(triple % 64) else '=']
  }

  function Encode(bytes: seq<Byte>): string {
    if bytes == [] then []
    else if |bytes| <= 3 then EncodeChunk(bytes)
    else EncodeChunk(bytes[..3]) + Encode(bytes[3..])
  }

  /** Pushes the characters for one chunk. */
  method PushChunk(out: string, chunk: seq<Byte>) returns (longer: string)
    requires 1 <= |chunk| <= 3
    ensures longer == out + EncodeChunk(chunk)
  {
    var b0: int := chunk[0];
    var b1: int := if |chunk| > 1 then chunk[1] else 0;
    var b2: int := if |chunk| > 2 then chunk[2] else 0;
    var triple := b0 * 65536 + b1 * 256 + b2;
    assert triple == TripleOf(chunk);
    longer := out + [Symbol(triple / 262144 % 64)];
    longer := longer + [Symbol(triple / 4096 % 64)];
    longer := longer + [if |chunk| > 1 then Symbol(triple / 64 % 64) else '='];
    longer := longer + [if |chunk| > 2 then Symbol(triple % 64) else '='];
  }

  method EncodeLoop(key: seq<Byte>) returns (out: string)
    ensures out == Encode(key)
  {
    out := "";
    var i := 0;
    while i < |key|
      invariant 0 <= i <= |key|
      invariant out + Encode(key[i..]) == Encode(key)
    {
      var next := if i + 3 <= |key| then i + 3 else |key|;
      var chunk := key[i..next];
      assert key[i..][..next - i] == chunk && key[i..][next - i..] == key[next..];
      EncodeFirstChunk(key[i..], next - i);
      Regroup(out, EncodeChunk(chunk), Encode(key[next..]));
      out := PushChunk(out, chunk);
      i := next;
    }
    assert key[|key|..] == [];
  }

  lemma EncodeFirstChunk(bytes: seq<Byte>, n: nat)
    requires bytes != [] && n == if |bytes| < 3 then |bytes| else 3
    ensures Encode(bytes) == EncodeChunk(bytes[..n]) + Encode(bytes[n..])
  {
    if |bytes| <= 3 {
      assert bytes[..n] == bytes && bytes[n..] == [];
    }
  }

  lemma Regroup(a: string, b: string, c: string)
    ensures a + (b + c) == a + b + c
  {
  }

  // ---- decoding ----

  function BytesOf(triple: nat): seq<Byte>
    requires triple < 0x100_0000
  {
    [triple / 65536, triple / 256 % 256, triple % 256]
  }

  function FromSextets(v0: nat, v1: nat, v2: nat, v3: nat): (triple: nat)
    requires v0 < 64 && v1 < 64 && v2 < 64 && v3 < 64
    ensures triple < 0x100_0000
  {
    v0 * 262144 + v1 * 4096 + v2 * 64 + v3
  }

  /** One group of four. Padding is for the last group only, and the bits it leaves over must be zero. */
  function DecodeGroup(g: string, last: bool): Option<seq<Byte>>
    requires |g| == 4
  {
    var v0, v1, v2, v3 := Value(g[0]), Value(g[1]), Value(g[2]), Value(g[3]);
    if v0.None? || v1.None? then None
    else if last && g[2] == '=' && g[3] == '=' then
      var bytes := BytesOf(FromSextets(v0.value, v1.value, 0, 0));
      if bytes[1] == 0 && bytes[2] == 0 then Some([bytes[0]]) else None
    else if v2.None? then None
    else if last && g[3] == '=' then
      var bytes := BytesOf(FromSextets(v0.value, v1.value, v2.value, 0));
      if bytes[2] == 0 then Some([bytes[0], bytes[1]]) else None
    else if v3.None? then None
    else Some(BytesOf(FromSextets(v0.value, v1.value, v2.value, v3.value)))
  }

  function Decode(s: string): Option<seq<Byte>> {
    if s == [] then Some([])
    else if |s| < 4 then None
    else
      var group, rest := DecodeGroup(s[..4], |s| == 4), Decode(s[4..]);
      if group.None? || rest.None? then None else Some(group.value + rest.value)
  }

  lemma SymbolReadsBack(n: nat)
    requires n < 64
    ensures Value(Symbol(n)) == Some(n) && Symbol(n) != '='
  {
  }

  lemma ValueReadsBack(c: char)
    requires Value(c).Some?
    ensures Value(c).value < 64 && Symbol(Value(c).value) == c
  {
  }

  lemma SextetsRebuild(triple: nat)
    requires triple < 0x100_0000
    ensures FromSextets(triple / 262144 % 64, triple / 4096 % 64, triple / 64 % 64, triple % 64) == triple
  {
    assert triple / 4096 == triple / 262144 * 64 + triple / 4096 % 64;
    assert triple / 64 == triple / 4096 * 64 + triple / 64 % 64;
  }

  lemma SextetsReadBack(v0: nat, v1: nat, v2: nat, v3: nat)
    requires v0 < 64 && v1 < 64 && v2 < 64 && v3 < 64
    ensures var triple := FromSextets(v0, v1, v2, v3);
            triple / 262144 % 64 == v0 && triple / 4096 % 64 == v1 && triple / 64 % 64 == v2 && triple % 64 == v3
  {
    var triple := FromSextets(v0, v1, v2, v3);
    assert triple / 64 == v0 * 4096 + v1 * 64 + v2;
    assert triple / 4096 == v0 * 64 + v1;
    assert triple / 262144 == v0;
  }

  lemma BytesReadBack(b0: Byte, b1: Byte, b2: Byte)
    ensures BytesOf(TripleOf([b0, b1, b2])) == [b0, b1, b2]
  {
    var triple := TripleOf([b0, b1, b2]);
    assert triple / 256 == (b0 as int) * 256 + (b1 as int);
  }

  lemma BytesRebuild(triple: nat)
    requires triple < 0x100_0000
    ensures TripleOf(BytesOf(triple)) == triple
  {
    assert triple / 256 == triple / 65536 * 256 + triple / 256 % 256;
  }

  lemma TripleOfPadded(b0: Byte, b1: Byte)
    ensures TripleOf([b0]) == TripleOf([b0, 0, 0]) && TripleOf([b0]) % 4096 == 0
    ensures TripleOf([b0, b1]) == TripleOf([b0, b1, 0]) && TripleOf([b0, b1]) % 64 == 0
  {
    var n0, n1: int := b0, b1;
    assert TripleOf([b0]) == 4096 * (16 * n0);
    assert TripleOf([b0, b1]) == 64 * (1024 * n0 + 4 * n1);
  }

  lemma FullChunkReadsBack(b0: Byte, b1: Byte, b2: Byte, last: bool)
    ensures DecodeGroup(EncodeChunk([b0, b1, b2]), last) == Some([b0, b1, b2])
  {
    var triple := TripleOf([b0, b1, b2]);
    SymbolReadsBack(triple / 262144 % 64);
    SymbolReadsBack(triple / 4096 % 64);
    SymbolReadsBack(triple / 64 % 64);
    SymbolReadsBack(triple % 64);
    SextetsRebuild(triple);
    BytesReadBack(b0, b1, b2);
  }

  lemma OneByteReadsBack(b0: Byte)
    ensures DecodeGroup(EncodeChunk([b0]), true) == Some([b0])
  {
    var triple := TripleOf([b0]);
    TripleOfPadded(b0, 0);
    SymbolReadsBack(triple / 262144 % 64);
    SymbolReadsBack(triple / 4096 % 64);
    SextetsRebuild(triple);
    assert triple / 64 % 64 == 0 && triple % 64 == 0;
    BytesReadBack(b0, 0, 0);
  }

  lemma TwoBytesReadBack(b0: Byte, b1: Byte)
    ensures DecodeGroup(EncodeChunk([b0, b1]), true) == Some([b0, b1])
  {
    var triple := TripleOf([b0, b1]);
    TripleOfPadded(b0, b1);
    SymbolReadsBack(triple / 262144 % 64);
    SymbolReadsBack(triple / 4096 % 64);
    SymbolReadsBack(triple / 64 % 64);
    SextetsRebuild(triple);
    BytesReadBack(b0, b1, 0);
  }

  lemma ChunkReadsBack(chunk: seq<Byte>, last: bool)
    requires 1 <= |chunk| <= 3 && (last || |chunk| == 3)
    ensures DecodeGroup(EncodeChunk(chunk), last) == Some(chunk)
  {
    if |chunk| == 1 {
      OneByteReadsBack(chunk[0]);
      assert chunk == [chunk[0]];
    } else if |chunk| == 2 {
      TwoBytesReadBack(chunk[0], chunk[1]);
      assert chunk == [chunk[0], chunk[1]];
    } else {
      FullChunkReadsBack(chunk[0], chunk[1], chunk[2], last);
      assert chunk == [chunk[0], chunk[1], chunk[2]];
    }
  }

  lemma {:induction false} EncodedReadsBack(bytes: seq<Byte>)
    ensures Decode(Encode(bytes)) == Some(bytes)
  {
    if bytes == [] {
    } else if |bytes| <= 3 {
      var s := EncodeChunk(bytes);
      ChunkReadsBack(bytes, true);
      assert s[..4] == s && s[4..] == [] && bytes + [] == bytes;
    } else {
      EncodedReadsBack(bytes[3..]);
      ChunkReadsBack(bytes[..3], false);
      EncodedLength(bytes[3..]);
      DecodeFirstGroup(EncodeChunk(bytes[..3]), Encode(bytes[3..]));
      assert bytes[..3] + bytes[3..] == bytes;
    }
  }

  lemma DecodeFirstGroup(group: string, rest: string)
    requires |group| == 4 && rest != [] && DecodeGroup(group, false).Some? && Decode(rest).Some?
    ensures Decode(group + rest) == Some(DecodeGroup(group, false).value + Decode(rest).value)
  {
    assert (group + rest)[..4] == group && (group + rest)[4..] == rest;
  }

  /** Four characters for every three bytes or part of three. */
  lemma {:induction false} EncodedLength(bytes: seq<Byte>)
    ensures |Encode(bytes)| == 4 * ((|bytes| + 2) / 3)
  {
    var n := |bytes|;
    if n > 3 {
      EncodedLength(bytes[3..]);
      assert |Encode(bytes)| == 4 + |Encode(bytes[3..])|;
      assert (n + 2) / 3 == 1 + (n - 3 + 2) / 3;
    } else {
      assert (n + 2) / 3 == if n == 0 then 0 else 1;
    }
  }

  lemma FullGroupIsEncoded(v0: nat, v1: nat, v2: nat, v3: nat)
    requires v0 < 64 && v1 < 64 && v2 < 64 && v3 < 64
    ensures EncodeChunk(BytesOf(FromSextets(v0, v1, v2, v3))) == [Symbol(v0), Symbol(v1), Symbol(v2), Symbol(v3)]
  {
    SextetsReadBack(v0, v1, v2, v3);
    BytesRebuild(FromSextets(v0, v1, v2, v3));
  }

  lemma TwoByteGroupIsEncoded(v0: nat, v1: nat, v2: nat)
    requires v0 < 64 && v1 < 64 && v2 < 64 && BytesOf(FromSextets(v0, v1, v2, 0))[2] == 0
    ensures EncodeChunk(BytesOf(FromSextets(v0, v1, v2, 0))[..2]) == [Symbol(v0), Symbol(v1), Symbol(v2), '=']
  {
    var bytes := BytesOf(FromSextets(v0, v1, v2, 0));
    SextetsReadBack(v0, v1, v2, 0);
    BytesRebuild(FromSextets(v0, v1, v2, 0));
    TripleOfPadded(bytes[0], bytes[1]);
    assert bytes[..2] == [bytes[0], bytes[1]] && bytes == [bytes[0], bytes[1], 0];
  }

  lemma OneByteGroupIsEncoded(v0: nat, v1: nat)
    requires v0 < 64 && v1 < 64
    requires BytesOf(FromSextets(v0, v1, 0, 0))[1] == 0 && BytesOf(FromSextets(v0, v1, 0, 0))[2] == 0
    ensures EncodeChunk(BytesOf(FromSextets(v0, v1, 0, 0))[..1]) == [Symbol(v0), Symbol(v1), '=', '=']
  {
    var bytes := BytesOf(FromSextets(v0, v1, 0, 0));
    SextetsReadBack(v0, v1, 0, 0);
    BytesRebuild(FromSextets(v0, v1, 0, 0));
    TripleOfPadded(bytes[0], bytes[1]);
    assert bytes[..1] == [bytes[0]] && bytes == [bytes[0], 0, 0];
  }

  /** What an accepted group is, by how much of it is padding. */
  lemma GroupIs(g: string, last: bool)
    requires |g| == 4 && DecodeGroup(g, last).Some?
    ensures Value(g[0]).Some? && Value(g[1]).Some?
    ensures last && g[2] == '=' && g[3] == '=' ==>
              |DecodeGroup(g, last).value| == 1
              && BytesOf(FromSextets(Value(g[0]).value, Value(g[1]).value, 0, 0))
                 == DecodeGroup(g, last).value + [0, 0]
    ensures !(last && g[2] == '=' && g[3] == '=') ==> Value(g[2]).Some?
    ensures last && g[2] != '=' && g[3] == '=' ==>
              |DecodeGroup(g, last).value| == 2
              && BytesOf(FromSextets(Value(g[0]).value, Value(g[1]).value, Value(g[2]).value, 0))
                 == DecodeGroup(g, last).value + [0]
    ensures !(last && g[3] == '=') ==>
              Value(g[3]).Some?
              && BytesOf(FromSextets(Value(g[0]).value, Value(g[1]).value, Value(g[2]).value, Value(g[3]).value))
                 == DecodeGroup(g, last).value
  {
  }

  lemma GroupIsEncoded(g: string, last: bool)
    requires |g| == 4 && DecodeGroup(g, last).Some?
    ensures 1 <= |DecodeGroup(g, last).value| <= 3 && (!last ==> |DecodeGroup(g, last).value| == 3)
    ensures EncodeChunk(DecodeGroup(g, last).value) == g
  {
    GroupIs(g, last);
    ValueReadsBack(g[0]);
    ValueReadsBack(g[1]);
    var bytes := DecodeGroup(g, last).value;
    var v0, v1 := Value(g[0]).value, Value(g[1]).value;
    assert g == [g[0], g[1], g[2], g[3]];
    if last && g[2] == '=' && g[3] == '=' {
      OneByteGroupIsEncoded(v0, v1);
      assert (bytes + [0, 0])[..1] == bytes;
    } else {
      ValueReadsBack(g[2]);
      var v2 := Value(g[2]).value;
      if last && g[3] == '=' {
        TwoByteGroupIsEncoded(v0, v1, v2);
        assert (bytes + [0])[..2] == bytes;
      } else {
        ValueReadsBack(g[3]);
        FullGroupIsEncoded(v0, v1, v2, Value(g[3]).value);
      }
    }
  }

  /** A text decodes to some bytes exactly when it is their encoding. */
  lemma {:induction false} DecodesIffEncoded(s: string, bytes: seq<Byte>)
    ensures Decode(s) == Some(bytes) <==> s == Encode(bytes)
  {
    EncodedReadsBack(bytes);
    if Decode(s) == Some(bytes) && s != [] {
      var group, rest := DecodeGroup(s[..4], |s| == 4).value, Decode(s[4..]).value;
      GroupIsEncoded(s[..4], |s| == 4);
      DecodesIffEncoded(s[4..], rest);
      assert s == s[..4] + s[4..];
      if |s| == 4 {
        assert rest == [] && bytes == group;
      } else {
        RestNotEmpty(s[4..]);
        assert bytes[..3] == group && bytes[3..] == rest;
      }
    }
  }

  lemma RestNotEmpty(s: string)
    requires s != [] && Decode(s).Some?
    ensures Decode(s).value != []
  {
    GroupIsEncoded(s[..4], |s| == 4);
  }
}
