/** RGB colours (lib/shine.color.js). */
module Colors {
  import opened Wrappers
  import opened Text
  import opened Numerics

  /** The index of the first `c` in `s`, or |s| when there is none (`indexOf`). */
  function IndexOf(s: string, c: char): (i: nat)
    ensures i <= |s| && c !in s[..i]
    ensures i < |s| ==> s[i] == c
    ensures i == |s| ==> c !in s
  {
    if s == [] then 0
    else if s[0] == c then 0
    else
      var i := 1 + IndexOf(s[1..], c);
      assert s[..i] == [s[0]] + s[1..][..i - 1];
      i
  }

  /** `String.prototype.replace(c, '')` with a one-character pattern: only the first `c` goes. */
  function RemoveFirst(s: string, c: char): (r: string)
    ensures c !in s ==> r == s
    ensures c in s ==> |r| == |s| - 1 && r == s[..IndexOf(s, c)] + s[IndexOf(s, c) + 1..]
  {
    var i := IndexOf(s, c);
    if i < |s| then s[..i] + s[i + 1..] else s
  }

  predicate IsHexDigit(c: char) {
    ('0' <= c <= '9') || ('a' <= c <= 'f') || ('A' <= c <= 'F')
  }

  function HexDigitValue(c: char): (d: nat)
    requires IsHexDigit(c)
    ensures d < 16
  {
    if '0' <= c <= '9' then c as int - '0' as int
    else if 'a' <= c <= 'f' then c as int - 'a' as int + 10
    else c as int - 'A' as int + 10
  }

  /** The longest prefix of hexadecimal digits. */
  function HexPrefix(s: string): (z: string)
    ensures |z| <= |s| && z == s[..|z|]
    ensures forall k :: 0 <= k < |z| ==> IsHexDigit(z[k])
    ensures |z| < |s| ==> !IsHexDigit(s[|z|])
  {
    if s == [] || !IsHexDigit(s[0]) then [] else [s[0]] + HexPrefix(s[1..])
  }

  function HexValue(z: string): nat
    requires forall k :: 0 <= k < |z| ==> IsHexDigit(z[k])
  {
    if z == [] then 0 else HexValue(z[..|z| - 1]) * 16 + HexDigitValue(z[|z| - 1])
  }

  /** `s` with its leading white space removed: a suffix of `s`, preceded only by white space. */
  function TrimLeft(s: string): (t: string)
    ensures |t| <= |s| && t == s[|s| - |t|..] && AllWhiteSpace(s[..|s| - |t|])
    ensures t == [] || !IsWhiteSpace(t[0])
  {
    if s != [] && IsWhiteSpace(s[0]) then
      var t := TrimLeft(s[1..]);
      assert s[..|s| - |t|] == [s[0]] + s[1..][..|s[1..]| - |t|];
      t
    else s
  }

  /**
   * `parseInt(s, 16)` (section 18.2.5 of ECMA-262 6th edition): leading white
   * space is skipped, then a sign, then an optional 0x or 0X; the longest run of
   * hexadecimal digits is read. None stands for NaN (no digits at all).
   */
  function ParseIntHex(s: string): Option<int> {
    var t := TrimLeft(s);
    var z := HexPrefix(AfterRadix(AfterSign(t)));
    if z == [] then None else Some(SignOf(t) * HexValue(z))
  }

  /** -1 after a leading '-', 1 otherwise. */
  function SignOf(t: string): int {
    if t != [] && t[0] == '-' then -1 else 1
  }

  /** The text after a leading sign. */
  function AfterSign(t: string): (u: string)
    ensures |u| <= |t|
  {
    if t != [] && (t[0] == '+' || t[0] == '-') then t[1..] else t
  }

  /** The text after a leading 0x or 0X. */
  function AfterRadix(u: string): (v: string)
    ensures |v| <= |u|
  {
    if |u| >= 2 && u[0] == '0' && (u[1] == 'x' || u[1] == 'X') then u[2..] else u
  }

  const Two32: int := 0x1_0000_0000
  const Two31: int := 0x8000_0000

  /** ToInt32 (ECMA-262 section 7.1.5): NaN becomes 0, everything else wraps to a signed 32-bit value. */
  function ToInt32(n: Option<int>): (i: int)
    ensures -Two31 <= i < Two31
    ensures n.Some? ==> (i - n.value) % Two32 == 0
    ensures n.None? ==> i == 0
  {
    match n
    case None => 0
    case Some(v) =>
      var m := v % Two32;
      if m >= Two31 then m - Two32 else m
  }

  /**
   * `(x >> shift) & 0xff` on a signed 32-bit x, with `unit` = 2^shift: the
   * arithmetic shift is floor division, and `& 0xff` on two's complement is the
   * non-negative remainder modulo 256.
   */
  function ByteAt(x: int, unit: nat): (b: int)
    requires unit > 0
    ensures 0 <= b <= 255
  {
    (x / unit) % 256
  }

  datatype Rgb = Rgb(r: int, g: int, b: int)

  /** The components `parseHex` assigns: bits 16-23, 8-15 and 0-7 of the parsed value. */
  function HexComponents(hex: string): (c: Rgb)
    ensures 0 <= c.r <= 255 && 0 <= c.g <= 255 && 0 <= c.b <= 255
    ensures ParseIntHex(RemoveFirst(hex, '#')).None? ==> c == Rgb(0, 0, 0)
  {
    var x := ToInt32(ParseIntHex(RemoveFirst(hex, '#')));
    Rgb(ByteAt(x, 0x1_0000), ByteAt(x, 0x100), ByteAt(x, 1))
  }

  class Color {
    var r: real
    var g: real
    var b: real

    /** Each missing (or otherwise falsy) component defaults to 0. */
    constructor(r: Option<real>, g: Option<real>, b: Option<real>)
      ensures this.r == r.GetOr(0.0) && this.g == g.GetOr(0.0) && this.b == b.GetOr(0.0)
    {
      this.r := r.GetOr(0.0);
      this.g := g.GetOr(0.0);
      this.b := b.GetOr(0.0);
    }

    /** `parseHex`: assigns r, g and b in place from a hex string. */
    method ParseHex(hex: string)
      modifies this
      ensures r == HexComponents(hex).r as real && g == HexComponents(hex).g as real
      ensures b == HexComponents(hex).b as real
      ensures 0.0 <= r <= 255.0 && 0.0 <= g <= 255.0 && 0.0 <= b <= 255.0
    {
      var c := HexComponents(hex);
      r, g, b := c.r as real, c.g as real, c.b as real;
    }

    /** `getRGBAString`: the rounded components and an alpha that is always 1.0. */
    function RgbaString(): (s: string)
      reads this
    {
      "rgba(" + IntToString(Round(r)) + "," + IntToString(Round(g)) + "," + IntToString(Round(b)) + "," + " 1.0)"
    }
  }

  /** `colorFromHex`: a fresh black colour with `parseHex(hex)` applied. */
  method ColorFromHex(hex: string) returns (c: Color)
    ensures fresh(c)
    ensures c.r == HexComponents(hex).r as real && c.g == HexComponents(hex).g as real
    ensures c.b == HexComponents(hex).b as real
  {
    c := new Color(None, None, None);
    c.ParseHex(hex);
  }

  /** For integral components in 0..255 the string is the decimal digits, and the alpha is always 1.0. */
  lemma RgbaOfBytes(c: Color, r: nat, g: nat, b: nat)
    requires c.r == r as real && c.g == g as real && c.b == b as real
    ensures c.RgbaString() == "rgba(" + NatToString(r) + "," + NatToString(g) + "," + NatToString(b) + ", 1.0)"
  {
    assert Round(c.r) == r && Round(c.g) == g && Round(c.b) == b;
  }

  /** '#ff0000' is red, as the doc comments promise. */
  lemma ParseRed()
    ensures HexComponents("#ff0000") == Rgb(255, 0, 0)
  {
    ParseRedDigits();
    ByteOfPacked(Rgb(255, 0, 0));
    ComponentsOfParsed("#ff0000", 0xff0000);
  }

  lemma ParseRedDigits()
    ensures ParseIntHex(RemoveFirst("#ff0000", '#')) == Some(0xff0000)
  {
    var v := "ff0000";
    LeadingHash("#ff0000");
    assert "#ff0000"[1..] == v;
    ParseDigitsOnly(v);
    HexValueRed();
  }

  /** '#ff0000' is the written form of (255, 0, 0), so its digits read as that colour's packed value. */
  lemma HexValueRed()
    ensures HexValue("ff0000") == 0xff0000
  {
    var red := Rgb(255, 0, 0);
    assert HexDigits(red) == "ff0000";
    PackedDigits(red);
  }

  /** Short forms are not expanded: '#fff' is the number 0xfff. */
  lemma ParseShortForm()
    ensures HexComponents("#fff") == Rgb(0, 15, 255)
  {
    ParseShortDigits();
    ByteOfPacked(Rgb(0, 15, 255));
    ComponentsOfParsed("#fff", 0xfff);
  }

  lemma ParseShortDigits()
    ensures ParseIntHex(RemoveFirst("#fff", '#')) == Some(0xfff)
  {
    var v := "fff";
    LeadingHash("#fff");
    assert "#fff"[1..] == v;
    ParseDigitsOnly(v);
    HexValueShort();
  }

  /** 'fff' is the digit 'f' followed by the two digits of 255. */
  lemma HexValueShort()
    ensures HexValue("fff") == 0xfff
  {
    assert HexByte(255) == "ff" && "fff" == "f" + HexByte(255);
    assert HexValue("f") == 15 by { assert "f"[..0] == []; }
    HexByteValue(255);
    assert Pow16(2) == 256;
    HexValueConcat("f", HexByte(255));
  }

  /** A string made only of hexadecimal digits is read whole. */
  lemma {:induction false} AllHexDigits(s: string)
    requires forall k :: 0 <= k < |s| ==> IsHexDigit(s[k])
    ensures HexPrefix(s) == s
  {
    if s != [] {
      AllHexDigits(s[1..]);
    }
  }

  /** Only the first '#' is removed: '##ff0000' reads no digits and gives black. */
  lemma ParseDoubleHash()
    ensures HexComponents("##ff0000") == Rgb(0, 0, 0)
  {
    var s := "##ff0000";
    LeadingHash(s);
    assert s[1..] == "#ff0000";
    NoDigitsAfterHash("#ff0000");
  }

  /** A text starting with '#' has no hexadecimal digits for `parseInt` to read. */
  lemma NoDigitsAfterHash(t: string)
    requires t != [] && t[0] == '#'
    ensures ParseIntHex(t) == None
  {
    NoTrim(t);
    assert AfterSign(t) == t && AfterRadix(t) == t;
    assert !IsHexDigit(t[0]);
  }

  /** Two hexadecimal digits for a byte. */
  function HexByte(n: nat): (s: string)
    requires n < 256
    ensures |s| == 2 && IsHexDigit(s[0]) && IsHexDigit(s[1])
  {
    ["0123456789abcdef"[n / 16], "0123456789abcdef"[n % 16]]
  }

  /** The six digits of '#rrggbb'. */
  function HexDigits(c: Rgb): (s: string)
    requires 0 <= c.r < 256 && 0 <= c.g < 256 && 0 <= c.b < 256
    ensures |s| == 6
  {
    HexByte(c.r) + HexByte(c.g) + HexByte(c.b)
  }

  function HexString(c: Rgb): (s: string)
    requires 0 <= c.r < 256 && 0 <= c.g < 256 && 0 <= c.b < 256
    ensures s == "#" + HexDigits(c)
  {
    "#" + HexByte(c.r) + HexByte(c.g) + HexByte(c.b)
  }

  /** The number '#rrggbb' stands for: r * 2^16 + g * 2^8 + b. */
  function Packed(c: Rgb): int {
    c.r * 0x1_0000 + c.g * 0x100 + c.b
  }

  function Pow16(n: nat): (p: nat)
    ensures p >= 1
  {
    if n == 0 then 1 else 16 * Pow16(n - 1)
  }

  lemma {:induction false} HexValueConcat(a: string, b: string)
    requires forall k :: 0 <= k < |a| ==> IsHexDigit(a[k])
    requires forall k :: 0 <= k < |b| ==> IsHexDigit(b[k])
    ensures HexValue(a + b) == HexValue(a) * Pow16(|b|) + HexValue(b)
  {
    if b != [] {
      var b' := b[..|b| - 1];
      assert (a + b)[..|a + b| - 1] == a + b';
      HexValueConcat(a, b');
      var d := HexDigitValue(b[|b| - 1]);
      assert HexValue(a + b) == HexValue(a + b') * 16 + d;
      assert HexValue(b) == HexValue(b') * 16 + d;
      Regroup(HexValue(a), Pow16(|b'|), HexValue(b'), d);
    } else {
      assert a + b == a;
    }
  }

  lemma Regroup(x: int, p: int, y: int, d: int)
    ensures (x * p + y) * 16 + d == x * (16 * p) + (y * 16 + d)
  {
  }

  lemma HexDigitOf(d: nat)
    requires d < 16
    ensures HexDigitValue("0123456789abcdef"[d]) == d
  {
  }

  lemma HexByteValue(n: nat)
    requires n < 256
    ensures HexValue(HexByte(n)) == n
  {
    var s := HexByte(n);
    HexDigitOf(n / 16);
    HexDigitOf(n % 16);
    assert s[..1] == [s[0]];
    assert HexValue([s[0]]) == n / 16 by { assert [s[0]][..0] == []; }
  }

  /** The six digits of '#rrggbb' read as r * 2^16 + g * 2^8 + b. */
  lemma PackedDigits(c: Rgb)
    requires 0 <= c.r < 256 && 0 <= c.g < 256 && 0 <= c.b < 256
    ensures forall k :: 0 <= k < |HexDigits(c)| ==> IsHexDigit(HexDigits(c)[k])
    ensures HexValue(HexDigits(c)) == Packed(c)
  {
    var rs, gs, bs := HexByte(c.r), HexByte(c.g), HexByte(c.b);
    HexByteValue(c.r);
    HexByteValue(c.g);
    HexByteValue(c.b);
    assert Pow16(2) == 256;
    HexValueConcat(rs, gs);
    assert HexValue(rs + gs) == c.r * 256 + c.g;
    HexValueConcat(rs + gs, bs);
    assert HexDigits(c) == rs + gs + bs;
  }

  /**
   * Hex round trip: every colour written as '#rrggbb' parses back to the same
   * components.
   */
  lemma HexRoundTrip(c: Rgb)
    requires 0 <= c.r < 256 && 0 <= c.g < 256 && 0 <= c.b < 256
    ensures HexComponents(HexString(c)) == c
  {
    ByteOfPacked(c);
    ParsePacked(c);
    ComponentsOfParsed(HexString(c), Packed(c));
  }

  /** A parsed value that already fits in 31 bits is not changed by ToInt32. */
  lemma ComponentsOfParsed(hex: string, x: int)
    requires ParseIntHex(RemoveFirst(hex, '#')) == Some(x) && 0 <= x < Two31
    ensures HexComponents(hex) == Rgb(ByteAt(x, 0x1_0000), ByteAt(x, 0x100), ByteAt(x, 1))
  {
    Int32OfSmall(x);
  }

  lemma Int32OfSmall(x: int)
    requires 0 <= x < Two31
    ensures ToInt32(Some(x)) == x
  {
    assert x % Two32 == x;
  }

  lemma ParsePacked(c: Rgb)
    requires 0 <= c.r < 256 && 0 <= c.g < 256 && 0 <= c.b < 256
    ensures ParseIntHex(RemoveFirst(HexString(c), '#')) == Some(Packed(c))
  {
    var s := HexString(c);
    assert s[1..] == HexDigits(c);
    PackedDigits(c);
    ParseHashDigits(s);
  }

  /** '#' and then hexadecimal digits parse to the digits' value. */
  lemma ParseHashDigits(s: string)
    requires |s| >= 2 && s[0] == '#'
    requires forall k :: 0 <= k < |s[1..]| ==> IsHexDigit(s[1..][k])
    ensures ParseIntHex(RemoveFirst(s, '#')) == Some(HexValue(s[1..]))
  {
    LeadingHash(s);
    ParseDigitsOnly(s[1..]);
  }

  lemma LeadingHash(s: string)
    requires s != [] && s[0] == '#'
    ensures RemoveFirst(s, '#') == s[1..]
  {
    assert IndexOf(s, '#') == 0;
  }

  /** A non-empty run of hexadecimal digits parses to its value. */
  lemma ParseDigitsOnly(d: string)
    requires d != [] && forall k :: 0 <= k < |d| ==> IsHexDigit(d[k])
    ensures ParseIntHex(d) == Some(HexValue(d))
  {
    assert !IsWhiteSpace(d[0]);
    NoTrim(d);
    assert SignOf(d) == 1 && AfterSign(d) == d;
    NoRadixPrefix(d);
    assert AfterRadix(d) == d;
    AllHexDigits(d);
  }

  lemma NoTrim(d: string)
    requires d != [] && !IsWhiteSpace(d[0])
    ensures TrimLeft(d) == d
  {
  }

  lemma NoRadixPrefix(d: string)
    requires |d| >= 2 ==> IsHexDigit(d[1])
    ensures !(|d| >= 2 && d[0] == '0' && (d[1] == 'x' || d[1] == 'X'))
  {
  }

  /** The bytes of a packed colour are its components, and it fits in 31 bits. */
  lemma ByteOfPacked(c: Rgb)
    requires 0 <= c.r < 256 && 0 <= c.g < 256 && 0 <= c.b < 256
    ensures ByteAt(Packed(c), 0x1_0000) == c.r && ByteAt(Packed(c), 0x100) == c.g && ByteAt(Packed(c), 1) == c.b
    ensures 0 <= Packed(c) < Two31
  {
    var x := Packed(c);
    assert x / 0x1_0000 == c.r;
    assert x / 0x100 == c.r * 0x100 + c.g;
    assert (c.r * 0x100 + c.g) % 256 == c.g;
    assert x % 256 == c.b;
  }
}
