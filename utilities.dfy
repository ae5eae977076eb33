/** Integer helpers shared by every shape family: 8-bit colour channels,
    clamping, and the text formatting used by the vector output. */
module Utilities {

  /** An unsigned 8-bit value (a channel of an RGBA pixel). */
  type Byte = b: int | 0 <= b < 256

  /** An RGBA colour with 8-bit channels. */
  datatype Rgba = Rgba(r: Byte, g: Byte, b: Byte, a: Byte)

  /** The colour every freshly built shape carries: black at half opacity. */
  const FreshColor: Rgba := Rgba(0, 0, 0, 128)

  function Min(a: int, b: int): int { if a <= b then a else b }
  function Max(a: int, b: int): int { if a >= b then a else b }

  /** `max(lo, min(hi, v))`: the lower bound wins when the bounds are inverted. */
  function Clamp(v: int, lo: int, hi: int): (r: int)
    ensures r >= lo
    ensures lo <= hi ==> r <= hi
    ensures lo <= v <= hi ==> r == v
    ensures v < lo ==> r == lo
    ensures lo <= hi && hi < v ==> r == hi
    ensures hi < lo ==> r == lo
  {
    Max(lo, Min(hi, v))
  }

  lemma ClampIdempotent(v: int, lo: int, hi: int)
    ensures Clamp(Clamp(v, lo, hi), lo, hi) == Clamp(v, lo, hi)
  {
  }

  lemma ClampExamples()
    ensures Clamp(10, -10, 20) == 10
    ensures Clamp(-20, -10, 20) == -10
    ensures Clamp(30, -10, 20) == 20
  {
  }

  // ---------------------------------------------------------------------
  // Hexadecimal colour strings

  predicate IsUpperHexDigit(c: char) {
    ('0' <= c <= '9') || ('A' <= c <= 'F')
  }

  /** The upper-case hexadecimal digit of a value below 16. */
  function HexDigit(n: int): (c: char)
    requires 0 <= n < 16
    ensures IsUpperHexDigit(c)
  {
    if n < 10 then (48 + n) as char else (55 + n) as char
  }

  /** The value of one upper-case hexadecimal digit. */
  function HexValue(c: char): (n: int)
    requires IsUpperHexDigit(c)
    ensures 0 <= n < 16
    ensures HexDigit(n) == c
  {
    if c <= '9' then c as int - 48 else c as int - 55
  }

  lemma HexValueOfDigit(n: int)
    requires 0 <= n < 16
    ensures HexValue(HexDigit(n)) == n
  {
  }

  /** `{:02X}`: two upper-case hexadecimal digits, most significant first. */
  function Hex2(v: Byte): (s: string)
    ensures |s| == 2 && IsUpperHexDigit(s[0]) && IsUpperHexDigit(s[1])
  {
    [HexDigit(v / 16), HexDigit(v % 16)]
  }

  /** `#RRGGBB` in upper case; the alpha channel is not written. */
  function RgbToHex(c: Rgba): (s: string)
    ensures |s| == 7 && s[0] == '#'
    ensures forall i :: 1 <= i < 7 ==> IsUpperHexDigit(s[i])
  {
    "#" + Hex2(c.r) + Hex2(c.g) + Hex2(c.b)
  }

  predicate IsHexColor(s: string) {
    |s| == 7 && s[0] == '#' && forall i :: 1 <= i < 7 ==> IsUpperHexDigit(s[i])
  }

  /** The byte written by two hexadecimal digits. */
  function ParseHex2(hi: char, lo: char): (v: Byte)
    requires IsUpperHexDigit(hi) && IsUpperHexDigit(lo)
  {
    HexValue(hi) * 16 + HexValue(lo)
  }

  /** Reads back the red, green and blue channels of a `#RRGGBB` string. */
  function ParseHexColor(s: string): (rgb: (Byte, Byte, Byte))
    requires IsHexColor(s)
  {
    (ParseHex2(s[1], s[2]), ParseHex2(s[3], s[4]), ParseHex2(s[5], s[6]))
  }

  /** Formatting then parsing recovers R, G and B; alpha is ignored. */
  lemma {:induction false} RgbToHexRoundTrip(c: Rgba)
    ensures IsHexColor(RgbToHex(c))
    ensures ParseHexColor(RgbToHex(c)) == (c.r, c.g, c.b)
  {
    var s := RgbToHex(c);
    forall v: Byte ensures ParseHex2(Hex2(v)[0], Hex2(v)[1]) == v {
      HexValueOfDigit(v / 16);
      HexValueOfDigit(v % 16);
    }
    assert s[1..3] == Hex2(c.r) && s[3..5] == Hex2(c.g) && s[5..7] == Hex2(c.b);
  }

  /** Parsing then formatting recovers the string: the format is canonical. */
  lemma {:induction false} ParseHexColorRoundTrip(s: string, alpha: Byte)
    requires IsHexColor(s)
    ensures RgbToHex(Rgba(ParseHexColor(s).0, ParseHexColor(s).1, ParseHexColor(s).2, alpha)) == s
  {
    forall hi: char, lo: char | IsUpperHexDigit(hi) && IsUpperHexDigit(lo)
      ensures Hex2(ParseHex2(hi, lo)) == [hi, lo]
    {
      var v := ParseHex2(hi, lo);
      assert v / 16 == HexValue(hi) && v % 16 == HexValue(lo);
    }
    var t := RgbToHex(Rgba(ParseHexColor(s).0, ParseHexColor(s).1, ParseHexColor(s).2, alpha));
    assert t[1..3] == s[1..3] && t[3..5] == s[3..5] && t[5..7] == s[5..7];
    assert t == s[..1] + s[1..3] + s[3..5] + s[5..7];
  }

  lemma RgbToHexExamples()
    ensures RgbToHex(Rgba(0, 0, 0, 0)) == "#000000"
    ensures RgbToHex(Rgba(255, 0, 0, 0)) == "#FF0000"
    ensures RgbToHex(Rgba(0, 12, 0, 0)) == "#000C00"
  {
  }

  // ---------------------------------------------------------------------
  // Decimal numbers, as `format!("{}", n)` writes an unsigned integer

  function DecimalDigit(n: int): (c: char)
    requires 0 <= n < 10
    ensures '0' <= c <= '9'
  {
    (48 + n) as char
  }

  function Decimal(n: nat): (s: string)
    ensures |s| >= 1
    ensures forall i :: 0 <= i < |s| ==> '0' <= s[i] <= '9'
    ensures n > 0 ==> s[0] != '0'
  {
    if n < 10 then [DecimalDigit(n)] else Decimal(n / 10) + [DecimalDigit(n % 10)]
  }

  function ParseDecimal(s: string): nat
    requires forall i :: 0 <= i < |s| ==> '0' <= s[i] <= '9'
  {
    if |s| == 0 then 0 else ParseDecimal(s[..|s| - 1]) * 10 + (s[|s| - 1] as int - 48)
  }

  lemma {:induction false} DecimalRoundTrip(n: nat)
    ensures ParseDecimal(Decimal(n)) == n
  {
    if n >= 10 {
      DecimalRoundTrip(n / 10);
      var s := Decimal(n);
      assert s[..|s| - 1] == Decimal(n / 10);
    }
  }

  // ---------------------------------------------------------------------
  // Signs of products

  /** A non-zero integer times a positive one is at least that positive one in size. */
  lemma MulSign(d: int, w: int)
    requires w > 0
    ensures d >= 1 ==> d * w >= w
    ensures d <= -1 ==> d * w <= -w
  {
    assert (d - 1) * w == d * w - w;
    assert (d + 1) * w == d * w + w;
  }

  /** Multiplying by a non-negative factor keeps an order. */
  lemma ScaleMonotone(w: int, a: int, b: int)
    requires w >= 0 && a <= b
    ensures w * a <= w * b
  {
    assert w * b - w * a == w * (b - a);
  }

  /** A positive factor can be cancelled from both sides of an order. */
  lemma CancelPositive(d: int, a: int, b: int)
    requires d > 0 && d * a <= d * b
    ensures a <= b
  {
    assert (a - b) * d == d * a - d * b;
    MulSign(a - b, d);
  }
}
