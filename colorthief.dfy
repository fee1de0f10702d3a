/** `get_color`: the embed colour of a reply, the dominant colour of the author's avatar. */
module ColorThief {
  import opened Wrappers
  import opened TextUtil

  const IconsPath := "cdn.discordapp.com/icons/"
  const AvatarsPath := "cdn.discordapp.com/avatars/"

  /** The query names a Discord CDN icon or avatar. */
  predicate IsCdnUrl(q: string) {
    Contains(q, IconsPath) || Contains(q, AvatarsPath)
  }

  /** The sizes the pattern `\?size=(32|64|128|256|512|1024|2048|4096)$` accepts, in its order. */
  const Sizes: seq<string> := ["32", "64", "128", "256", "512", "1024", "2048", "4096"]

  const SmallSize := "?size=16"

  /** The length of the run of digits that ends `s`. */
  function TrailingDigits(s: string): (n: nat)
    ensures n <= |s|
    ensures forall j :: |s| - n <= j < |s| ==> IsDigit(s[j])
    ensures n == |s| || !IsDigit(s[|s| - n - 1])
    decreases |s|
  {
    if |s| > 0 && IsDigit(s[|s| - 1]) then 1 + TrailingDigits(s[..|s| - 1]) else 0
  }

  /**
   * The size `N` of a `?size=N` that ends `t`, for `N` a size of the pattern. The `=` before
   * `N` is no digit, so `N` is the whole run of digits at the end.
   */
  function SizeSuffix(t: string): (r: Option<string>)
    ensures r.Some? ==> r.value in Sizes && EndsWith(t, "?size=" + r.value)
  {
    var n := TrailingDigits(t);
    if n + 6 <= |t| && t[|t| - n - 6..|t| - n] == "?size=" && t[|t| - n..] in Sizes then
      assert t[|t| - n - 6..] == t[|t| - n - 6..|t| - n] + t[|t| - n..];
      Some(t[|t| - n..])
    else None
  }

  lemma SizesAreDigits(n: string)
    requires n in Sizes
    ensures |n| >= 2 && forall j :: 0 <= j < |n| ==> IsDigit(n[j])
  {
  }

  /** The suffix found is the regex's: `t` ends with `?size=N` for a size `N` exactly when one is found. */
  lemma SizeSuffixComplete(t: string, n: string)
    requires n in Sizes && EndsWith(t, "?size=" + n)
    ensures SizeSuffix(t) == Some(n)
  {
    SizesAreDigits(n);
    var m := "?size=" + n;
    var k := |t| - |m|;
    assert forall j :: 0 <= j < |m| ==> t[k + j] == m[j] by {
      forall j | 0 <= j < |m| ensures t[k + j] == m[j] {
        assert t[k..][j] == m[j];
      }
    }
    assert forall j :: |t| - |n| <= j < |t| ==> IsDigit(t[j]) by {
      forall j | |t| - |n| <= j < |t| ensures IsDigit(t[j]) {
        assert t[j] == m[j - k] == n[j - k - 6];
      }
    }
    assert t[|t| - |n| - 1] == m[5] == '=';
    var d := TrailingDigits(t);
    assert d == |n|;
    assert t[|t| - d - 6..|t| - d] == m[..6];
    assert t[|t| - d..] == m[6..];
  }

  /**
   * The `re.sub` of the size: `$` matches at the end and just before a final newline, and
   * since the text matched starts with `?`, which no size contains, at most one match exists.
   */
  function Resize(q: string): (r: string)
    ensures |r| <= |q|
  {
    match SizeSuffix(q)
    case Some(n) => q[..|q| - |"?size=" + n|] + SmallSize
    case None =>
      if |q| > 0 && q[|q| - 1] == '\n' then
        match SizeSuffix(q[..|q| - 1])
        case Some(n) => q[..|q| - 1 - |"?size=" + n|] + SmallSize + "\n"
        case None => q
      else q
  }

  /** The query `get_color` fetches: CDN links are asked for the 16-pixel size. */
  function RewriteQuery(q: string): (r: string)
    ensures |r| <= |q|
  {
    if IsCdnUrl(q) then Resize(q) else q
  }

  /** A link off the CDN is fetched as given. */
  lemma RewriteOnlyCdn(q: string)
    requires !IsCdnUrl(q)
    ensures RewriteQuery(q) == q
  {
  }

  /** No size of the pattern is `16`, so a link ending in `?size=16` is not resized again. */
  lemma SmallSizeFinal(x: string)
    ensures SizeSuffix(x + SmallSize).None?
  {
    var t := x + SmallSize;
    assert t[|t| - 1] == '6' && t[|t| - 2] == '1' && t[|t| - 3] == '=';
    assert TrailingDigits(t[..|t| - 2]) == 0;
    assert t[..|t| - 1][..|t| - 2] == t[..|t| - 2];
    assert TrailingDigits(t) == 2;
    assert t[|t| - 2..] == "16";
  }

  /** Every size ends in a digit, so a text ending in a newline has no size suffix. */
  lemma NewlineHasNoSize(x: string)
    ensures SizeSuffix(x + "\n").None?
  {
    var t := x + "\n";
    assert TrailingDigits(t) == 0;
  }

  /** Resizing is idempotent: a resized link is fetched at the same size again. */
  lemma ResizeIdempotent(q: string)
    ensures Resize(Resize(q)) == Resize(q)
  {
    match SizeSuffix(q)
    case Some(n) =>
      var x := q[..|q| - |"?size=" + n|];
      SmallSizeFinal(x);
      assert (x + SmallSize)[|x + SmallSize| - 1] == '6';
    case None =>
      if |q| > 0 && q[|q| - 1] == '\n' {
        match SizeSuffix(q[..|q| - 1])
        case Some(n) =>
          var x := q[..|q| - 1 - |"?size=" + n|];
          var y := x + SmallSize;
          assert Resize(q) == y + "\n";
          NewlineHasNoSize(y);
          assert (y + "\n")[..|y + "\n"| - 1] == y;
          SmallSizeFinal(x);
        case None =>
      }
  }

  /** An avatar asked for at size 1024 is asked for at size 16. */
  lemma ResizeExample(base: string)
    ensures Resize(base + "?size=1024") == base + SmallSize
  {
    var q := base + "?size=1024";
    assert q[|q| - 10..] == "?size=1024";
    assert Sizes[5] == "1024";
    SizeSuffixComplete(q, "1024");
    assert q[..|q| - 10] == base;
  }

  /** The hexadecimal digit of a value below 16, lower case as `:02x` writes it. */
  function HexDigit(d: int): char
    requires 0 <= d < 16
  {
    if d < 10 then ('0' as int + d) as char else ('a' as int + d - 10) as char
  }

  predicate IsHex(c: char) {
    ('0' <= c <= '9') || ('a' <= c <= 'f') || ('A' <= c <= 'F')
  }

  /** The value of a hexadecimal digit, either case, as `int(_, 16)` reads it. */
  function HexValueOf(c: char): nat
    requires IsHex(c)
  {
    if '0' <= c <= '9' then c as int - '0' as int
    else if 'a' <= c <= 'f' then c as int - 'a' as int + 10
    else c as int - 'A' as int + 10
  }

  predicate AllHex(s: string) {
    forall i :: 0 <= i < |s| ==> IsHex(s[i])
  }

  /** The value of a string of hexadecimal digits, most significant first. */
  function HexValue(s: string): nat
    requires AllHex(s)
    decreases |s|
  {
    if |s| == 0 then 0 else HexValue(s[..|s| - 1]) * 16 + HexValueOf(s[|s| - 1])
  }

  function Pow16(n: nat): (p: nat)
    ensures p > 0
  {
    if n == 0 then 1 else 16 * Pow16(n - 1)
  }

  lemma AllHexConcat(a: string, b: string)
    requires AllHex(a) && AllHex(b)
    ensures AllHex(a + b)
  {
    forall i | 0 <= i < |a + b| ensures IsHex((a + b)[i]) {
      if i < |a| { assert (a + b)[i] == a[i]; } else { assert (a + b)[i] == b[i - |a|]; }
    }
  }

  lemma Regroup(x: int, p: int, y: int, d: int)
    ensures (x * p + y) * 16 + d == x * (p * 16) + (y * 16 + d)
  {
  }

  /** Appending digits shifts the value of the first part left by four bits a digit. */
  lemma {:induction false} HexValueAppend(a: string, b: string)
    requires AllHex(a) && AllHex(b)
    ensures AllHex(a + b) && HexValue(a + b) == HexValue(a) * Pow16(|b|) + HexValue(b)
    decreases |b|
  {
    AllHexConcat(a, b);
    if |b| == 0 {
      assert a + b == a;
    } else {
      var b' := b[..|b| - 1];
      var c := b[|b| - 1];
      assert (a + b)[..|a + b| - 1] == a + b';
      assert (a + b)[|a + b| - 1] == c;
      HexValueAppend(a, b');
      assert HexValue(a + b) == HexValue(a + b') * 16 + HexValueOf(c);
      assert HexValue(b) == HexValue(b') * 16 + HexValueOf(c);
      assert Pow16(|b|) == Pow16(|b'|) * 16;
      Regroup(HexValue(a), Pow16(|b'|), HexValue(b'), HexValueOf(c));
    }
  }

  type Channel = x: int | 0 <= x < 256

  /** `f"{v:02x}"` for one colour channel. */
  function Hex2(v: Channel): (s: string)
    ensures AllHex(s)
  {
    [HexDigit(v / 16), HexDigit(v % 16)]
  }

  lemma Hex2Value(v: Channel)
    ensures HexValue(Hex2(v)) == v
  {
    var s := Hex2(v);
    assert s[..1][..0] == [];
    assert HexValueOf(s[0]) == v / 16 && HexValueOf(s[1]) == v % 16;
    assert HexValue(s[..1]) == HexValue(s[..1][..0]) * 16 + HexValueOf(s[0]);
    assert HexValue(s) == HexValue(s[..1]) * 16 + HexValueOf(s[1]);
  }

  /** The literal `int(_, 16)` is given: `0x` and two digits per channel. */
  function ColorLiteral(r: Channel, g: Channel, b: Channel): string {
    "0x" + Hex2(r) + Hex2(g) + Hex2(b)
  }

  /** `int(s, 16)` on a `0x`-prefixed literal, `None` where it would raise. */
  function ParseHex(s: string): Option<nat> {
    if StartsWith(s, "0x") && |s| > 2 && AllHex(s[2..]) then Some(HexValue(s[2..])) else None
  }

  /** The colour literal parses to the channels packed as `0xRRGGBB`. */
  lemma ColorLiteralValue(r: Channel, g: Channel, b: Channel)
    ensures ParseHex(ColorLiteral(r, g, b)) == Some(r * 65536 + g * 256 + b)
    ensures r * 65536 + g * 256 + b < 0x100_0000
  {
    assert Pow16(2) == 256;
    Hex2Value(r);
    Hex2Value(g);
    Hex2Value(b);
    var rg := Hex2(r) + Hex2(g);
    HexValueAppend(Hex2(r), Hex2(g));
    assert HexValue(rg) == r * 256 + g;
    HexValueAppend(rg, Hex2(b));
    assert HexValue(rg + Hex2(b)) == (r * 256 + g) * 256 + b;
    var s := ColorLiteral(r, g, b);
    assert s[..2] == "0x";
    assert s[2..] == rg + Hex2(b);
  }

  /** The colour used when anything in `get_color` raises. */
  const Fallback: nat := 0x505050

  datatype Rgb = Rgb(r: Channel, g: Channel, b: Channel)

  /**
   * `get_color`; `dominant` stands for the GET of a URL and the palette extraction, `None`
   * when either raised.
   */
  function GetColor(query: string, dominant: string -> Option<Rgb>): (c: nat)
    ensures c < 0x100_0000
    ensures dominant(RewriteQuery(query)).None? ==> c == Fallback
    ensures dominant(RewriteQuery(query)).Some? ==>
              c == dominant(RewriteQuery(query)).value.r * 65536 + dominant(RewriteQuery(query)).value.g * 256
                   + dominant(RewriteQuery(query)).value.b
  {
    match dominant(RewriteQuery(query))
    case None => Fallback
    case Some(rgb) =>
      ColorLiteralValue(rgb.r, rgb.g, rgb.b);
      ParseHex(ColorLiteral(rgb.r, rgb.g, rgb.b)).value
  }
}
