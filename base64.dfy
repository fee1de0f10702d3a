/**
 * Base64 in the standard alphabet with `=` padding (section 4 of RFC 4648), as used to inline
 * an attached image into a `data:image/png;base64,` URL.
 */
module Base64 {
  import opened Wrappers

  type Byte = x: int | 0 <= x < 256
  type Sextet = x: int | 0 <= x < 64

  /** The symbol of a 6-bit value: `A`-`Z`, `a`-`z`, `0`-`9`, `+`, `/`. */
  function Sym(v: Sextet): char {
    if v < 26 then ('A' as int + v) as char
    else if v < 52 then ('a' as int + (v - 26)) as char
    else if v < 62 then ('0' as int + (v - 52)) as char
    else if v == 62 then '+'
    else '/'
  }

  /** The value of a symbol, or `None` for a character outside the alphabet (including `=`). */
  function SymIndex(c: char): (r: Option<Sextet>)
    ensures r.Some? ==> Sym(r.value) == c
  {
    if 'A' <= c <= 'Z' then Some(c as int - 'A' as int)
    else if 'a' <= c <= 'z' then Some(c as int - 'a' as int + 26)
    else if '0' <= c <= '9' then Some(c as int - '0' as int + 52)
    else if c == '+' then Some(62)
    else if c == '/' then Some(63)
    else None
  }

  lemma SymRoundTrip(v: Sextet)
    ensures SymIndex(Sym(v)) == Some(v)
  {
  }

  predicate IsSymbol(c: char) {
    SymIndex(c).Some?
  }

  /** The four symbols of one group of one to three bytes, padded with `=` for a short last group. */
  function EncodeGroup(g: seq<Byte>): (r: string)
    requires 1 <= |g| <= 3
    ensures |r| == 4
  {
    if |g| == 1 then [Sym(g[0] / 4), Sym((g[0] % 4) * 16), '=', '=']
    else if |g| == 2 then [Sym(g[0] / 4), Sym((g[0] % 4) * 16 + g[1] / 16), Sym((g[1] % 16) * 4), '=']
    else [Sym(g[0] / 4), Sym((g[0] % 4) * 16 + g[1] / 16), Sym((g[1] % 16) * 4 + g[2] / 64), Sym(g[2] % 64)]
  }

  /** Section 4 of RFC 4648: four symbols per group of three bytes, the last group padded with `=`. */
  function Encode(bs: seq<Byte>): (r: string)
    ensures |r| % 4 == 0
    ensures |r| == 0 <==> |bs| == 0
    decreases |bs|
  {
    if |bs| == 0 then ""
    else if |bs| < 3 then EncodeGroup(bs)
    else EncodeGroup(bs[..3]) + Encode(bs[3..])
  }

  /** Lengths of encodings: four symbols per started group of three bytes. */
  lemma {:induction false} EncodeLength(bs: seq<Byte>)
    ensures |Encode(bs)| == 4 * ((|bs| + 2) / 3)
    decreases |bs|
  {
    if |bs| >= 3 {
      EncodeLength(bs[3..]);
      assert (|bs| + 2) / 3 == (|bs[3..]| + 2) / 3 + 1;
    }
  }

  /** The three bytes of a full quad of symbols. */
  function DecodeFull(x0: Sextet, x1: Sextet, x2: Sextet, x3: Sextet): seq<Byte> {
    [x0 * 4 + x1 / 16, (x1 % 16) * 16 + x2 / 4, (x2 % 4) * 64 + x3]
  }

  /** One quad: padding only at the end of the input, and the bits it drops must be zero. */
  function DecodeQuad(q: string, last: bool): (r: Option<seq<Byte>>)
    requires |q| == 4
    ensures r.Some? ==> 1 <= |r.value| <= 3 && (|r.value| < 3 ==> last)
  {
    match (SymIndex(q[0]), SymIndex(q[1]), SymIndex(q[2]), SymIndex(q[3]))
    case (Some(x0), Some(x1), Some(x2), Some(x3)) => Some(DecodeFull(x0, x1, x2, x3))
    case (Some(x0), Some(x1), Some(x2), None) =>
      var g: seq<Byte> := [x0 as int * 4 + x1 / 16, (x1 as int % 16) * 16 + x2 / 4];
      if last && q[3] == '=' && x2 % 4 == 0 then Some(g) else None
    case (Some(x0), Some(x1), None, None) =>
      var g: seq<Byte> := [x0 as int * 4 + x1 / 16];
      if last && q[2] == '=' && q[3] == '=' && x1 % 16 == 0 then Some(g) else None
    case _ => None
  }

  /** Strict decoding: `None` unless the input is a canonical padded encoding. */
  function Decode(s: string): (r: Option<seq<Byte>>)
    ensures r.Some? ==> |s| % 4 == 0
    decreases |s|
  {
    if |s| == 0 then Some([])
    else if |s| < 4 then None
    else
      match DecodeQuad(s[..4], |s| == 4)
      case None => None
      case Some(g) =>
        var tail := s[4..];
        assert |s| == |tail| + 4;
        match Decode(tail)
        case None => None
        case Some(rest) => Some(g + rest)
  }

  lemma SplitByte16(a: Byte, b: Byte)
    ensures ((a % 4) * 16 + b / 16) / 16 == a % 4
    ensures ((a % 4) * 16 + b / 16) % 16 == b / 16
    ensures (a / 4) * 4 + a % 4 == a
  {
  }

  lemma SplitByte4(b: Byte, c: Byte)
    ensures ((b % 16) * 4 + c / 64) / 4 == b % 16
    ensures ((b % 16) * 4 + c / 64) % 4 == c / 64
    ensures (b / 16) * 16 + b % 16 == b
    ensures (c / 64) * 64 + c % 64 == c
  {
  }

  lemma FullGroupRoundTrip(a: Byte, b: Byte, c: Byte, last: bool)
    ensures DecodeQuad(EncodeGroup([a, b, c]), last) == Some([a, b, c])
  {
    var x0, x1, x2, x3 := a / 4, (a % 4) * 16 + b / 16, (b % 16) * 4 + c / 64, c % 64;
    var q := EncodeGroup([a, b, c]);
    assert q == [Sym(x0), Sym(x1), Sym(x2), Sym(x3)];
    SymRoundTrip(x0);
    SymRoundTrip(x1);
    SymRoundTrip(x2);
    SymRoundTrip(x3);
    assert SymIndex(q[0]) == Some(x0) && SymIndex(q[1]) == Some(x1);
    assert SymIndex(q[2]) == Some(x2) && SymIndex(q[3]) == Some(x3);
    assert DecodeFull(x0, x1, x2, x3) == [a, b, c] by {
      SplitByte16(a, b);
      SplitByte4(b, c);
      assert x0 * 4 + x1 / 16 == a;
      assert (x1 % 16) * 16 + x2 / 4 == b;
      assert (x2 % 4) * 64 + x3 == c;
    }
  }

  lemma OneByteRoundTrip(a: Byte)
    ensures DecodeQuad(EncodeGroup([a]), true) == Some([a])
  {
    var q := EncodeGroup([a]);
    assert q == [Sym(a / 4), Sym((a % 4) * 16), '=', '='];
    SymRoundTrip(a / 4);
    SymRoundTrip((a % 4) * 16);
    assert SymIndex(q[0]) == Some(a / 4) && SymIndex(q[1]) == Some((a % 4) * 16);
    assert ((a % 4) * 16) / 16 == a % 4 && ((a % 4) * 16) % 16 == 0;
    assert (a / 4) * 4 + a % 4 == a;
  }

  lemma TwoByteRoundTrip(a: Byte, b: Byte)
    ensures DecodeQuad(EncodeGroup([a, b]), true) == Some([a, b])
  {
    var x0, x1, x2 := a / 4, (a % 4) * 16 + b / 16, (b % 16) * 4;
    var q := EncodeGroup([a, b]);
    assert q == [Sym(x0), Sym(x1), Sym(x2), '='];
    SplitByte16(a, b);
    SymRoundTrip(x0);
    SymRoundTrip(x1);
    SymRoundTrip(x2);
    assert SymIndex(q[0]) == Some(x0) && SymIndex(q[1]) == Some(x1) && SymIndex(q[2]) == Some(x2);
    assert x2 / 4 == b % 16 && x2 % 4 == 0;
    assert (b / 16) * 16 + b % 16 == b;
  }

  /** A group decodes back to its bytes; a short group only as the last one. */
  lemma GroupRoundTrip(g: seq<Byte>, last: bool)
    requires 1 <= |g| <= 3 && (|g| < 3 ==> last)
    ensures DecodeQuad(EncodeGroup(g), last) == Some(g)
  {
    if |g| == 1 {
      assert g == [g[0]];
      OneByteRoundTrip(g[0]);
    } else if |g| == 2 {
      assert g == [g[0], g[1]];
      TwoByteRoundTrip(g[0], g[1]);
    } else {
      assert g == [g[0], g[1], g[2]];
      FullGroupRoundTrip(g[0], g[1], g[2], last);
    }
  }

  /** Decoding a quad followed by more input decodes the quad and then the rest. */
  lemma DecodeCons(q: string, t: string, g: seq<Byte>, rest: seq<Byte>)
    requires |q| == 4
    requires DecodeQuad(q, |t| == 0) == Some(g) && Decode(t) == Some(rest)
    ensures Decode(q + t) == Some(g + rest)
  {
    assert (q + t)[..4] == q && (q + t)[4..] == t;
  }

  /** Decoding an encoding gives the bytes back. */
  lemma {:induction false} DecodeEncode(bs: seq<Byte>)
    ensures Decode(Encode(bs)) == Some(bs)
    decreases |bs|
  {
    if |bs| > 0 {
      var n := if |bs| < 3 then |bs| else 3;
      var g, rest := bs[..n], bs[n..];
      if n < 3 {
        assert rest == [] && Encode(bs) == EncodeGroup(g) + Encode(rest);
      } else {
        assert Encode(bs) == EncodeGroup(g) + Encode(rest);
      }
      DecodeEncode(rest);
      EncodeLength(rest);
      GroupRoundTrip(g, |Encode(rest)| == 0);
      DecodeCons(EncodeGroup(g), Encode(rest), g, rest);
      assert g + rest == bs;
    }
  }

  /** The test vectors `foo` and `f` of section 10 of RFC 4648. */
  lemma EncodeExample()
    ensures Encode([102, 111, 111]) == "Zm9v"
    ensures Encode([102]) == "Zg=="
  {
  }
}
