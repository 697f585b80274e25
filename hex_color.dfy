/**
 The integer part of `Color(hex:)`: trim non-alphanumeric characters from
 both ends, scan the rest as a hexadecimal integer, and split it into
 alpha, red, green and blue channels according to the number of characters
 (3, 6 or 8), with (1, 1, 1, 0) for any other count. The final division of
 each channel by 255 into a floating-point colour is not modelled.
 */
module HexColor {

  /** Characters kept by the trim (ASCII letters and digits). */
  predicate IsAlphanumeric(c: char)
  {
    'a' <= c <= 'z' || 'A' <= c <= 'Z' || '0' <= c <= '9'
  }

  /** How many characters the trim removes from the front. */
  function LeadingJunk(s: string): (n: nat)
    ensures n <= |s|
    ensures forall k :: 0 <= k < n ==> !IsAlphanumeric(s[k])
    ensures n < |s| ==> IsAlphanumeric(s[n])
  {
    if s == [] || IsAlphanumeric(s[0]) then 0 else 1 + LeadingJunk(s[1..])
  }

  /** How many characters the trim removes from the back. */
  function TrailingJunk(s: string): (n: nat)
    ensures n <= |s|
    ensures forall k :: |s| - n <= k < |s| ==> !IsAlphanumeric(s[k])
    ensures n < |s| ==> IsAlphanumeric(s[|s| - 1 - n])
  {
    if s == [] || IsAlphanumeric(s[|s| - 1]) then 0 else 1 + TrailingJunk(s[..|s| - 1])
  }

  /** `trimmingCharacters(in: CharacterSet.alphanumerics.inverted)`. */
  function Trimmed(s: string): (t: string)
    ensures |t| <= |s|
    ensures t != [] ==> IsAlphanumeric(t[0]) && IsAlphanumeric(t[|t| - 1])
    ensures t == [] <==> forall k :: 0 <= k < |s| ==> !IsAlphanumeric(s[k])
    ensures (forall k :: 0 <= k < |s| ==> IsAlphanumeric(s[k])) ==> t == s
    ensures exists i, j ::
      && 0 <= i <= j <= |s| && t == s[i..j]
      && (forall k :: 0 <= k < i ==> !IsAlphanumeric(s[k]))
      && (forall k :: j <= k < |s| ==> !IsAlphanumeric(s[k]))
  {
    var front := LeadingJunk(s);
    var rest := s[front..];
    var back := TrailingJunk(rest);
    assert forall k :: front <= k < |s| ==> s[k] == rest[k - front];
    var j := |s| - back;
    assert rest[..|rest| - back] == s[front..j];
    rest[..|rest| - back]
  }

  /** The value of a hexadecimal digit of either case, if `c` is one. */
  function DigitValue(c: char): (d: int)
    ensures -1 <= d < 16
  {
    if '0' <= c <= '9' then c as int - '0' as int
    else if 'a' <= c <= 'f' then c as int - 'a' as int + 10
    else if 'A' <= c <= 'F' then c as int - 'A' as int + 10
    else -1
  }

  predicate IsHexDigit(c: char)
  {
    DigitValue(c) >= 0
  }

  /** How many hexadecimal digits `s` starts with. */
  function HexPrefixLength(s: string): (n: nat)
    ensures n <= |s|
    ensures forall k :: 0 <= k < n ==> IsHexDigit(s[k])
    ensures n < |s| ==> !IsHexDigit(s[n])
  {
    if s == [] || !IsHexDigit(s[0]) then 0 else 1 + HexPrefixLength(s[1..])
  }

  function Pow16(n: nat): (p: nat)
    ensures p >= 1
  {
    if n == 0 then 1 else 16 * Pow16(n - 1)
  }

  lemma {:induction false} Pow16Monotonic(m: nat, n: nat)
    requires m <= n
    ensures Pow16(m) <= Pow16(n)
    decreases n
  {
    if m < n {
      Pow16Monotonic(m, n - 1);
    }
  }

  /** The number a string of hexadecimal digits denotes, most significant first. */
  function HexValue(s: string): (v: nat)
    requires forall k :: 0 <= k < |s| ==> IsHexDigit(s[k])
    ensures v < Pow16(|s|)
  {
    if s == [] then 0
    else
      var d := DigitValue(s[|s| - 1]);
      assert IsHexDigit(s[|s| - 1]);
      HexValue(s[..|s| - 1]) * 16 + d
  }

  /** `Scanner.scanHexInt64`: an optional "0x" or "0X" prefix, then as many hexadecimal
      digits as there are; 0 when there are none. */
  function ScanHex(s: string): (v: nat)
    ensures v < Pow16(|s|)
  {
    var digits := ScannedDigits(s);
    Pow16Monotonic(|digits|, |s|);
    HexValue(digits)
  }

  /** The digits the scanner reads: after an optional "0x" or "0X", the longest run of hexadecimal digits. */
  function ScannedDigits(s: string): (digits: string)
    ensures |digits| <= |s|
    ensures forall k :: 0 <= k < |digits| ==> IsHexDigit(digits[k])
  {
    var body := if |s| >= 2 && s[0] == '0' && (s[1] == 'x' || s[1] == 'X') then s[2..] else s;
    body[..HexPrefixLength(body)]
  }

  /** The four integer channels, each meant to lie in 0..255. */
  datatype Argb = Argb(a: nat, r: nat, g: nat, b: nat)

  predicate InByteRange(c: Argb)
  {
    c.a < 256 && c.r < 256 && c.g < 256 && c.b < 256
  }

  /** The shifts and masks applied to the scanned value `v`, by character count. */
  function Channels(v: nat, count: nat): (c: Argb)
    ensures count !in {3, 6, 8} ==> c == Argb(1, 1, 1, 0)
    ensures count in {3, 6} ==> c.a == 255
    ensures count == 3 ==> c.r % 17 == 0 && c.g % 17 == 0 && c.b % 17 == 0
    ensures count in {6, 8} ==> c.b == v % 256 && c.g == v / 256 % 256
  {
    match count
    case 3 => Argb(255, (v / 0x100) * 17, (v / 0x10 % 0x10) * 17, (v % 0x10) * 17)
    case 6 => Argb(255, v / 0x1_0000, v / 0x100 % 0x100, v % 0x100)
    case 8 => Argb(v / 0x100_0000, v / 0x1_0000 % 0x100, v / 0x100 % 0x100, v % 0x100)
    case _ => Argb(1, 1, 1, 0)
  }

  /** A value of at most `count` hexadecimal digits splits into channels of at most one byte. */
  lemma ChannelsInRange(v: nat, count: nat)
    requires v < Pow16(count)
    ensures InByteRange(Channels(v, count))
  {
    if count == 3 {
      assert Pow16(3) == 0x1000;
      assert v / 0x100 < 16;
    } else if count == 6 {
      assert Pow16(6) == 0x100_0000;
      assert v / 0x1_0000 < 256;
    } else if count == 8 {
      assert Pow16(8) == 0x1_0000_0000;
      assert v / 0x100_0000 < 256;
    }
  }

  /** `Color(hex:)` up to the division by 255: the shifts and masks on the scanned value,
      by the number of characters left after trimming. */
  function Decode(hex: string): (c: Argb)
    ensures InByteRange(c)
    ensures |Trimmed(hex)| !in {3, 6, 8} ==> c == Argb(1, 1, 1, 0)
    ensures |Trimmed(hex)| in {3, 6} ==> c.a == 255
  {
    var t := Trimmed(hex);
    var v := ScanHex(t);
    ChannelsInRange(v, |t|);
    Channels(v, |t|)
  }

  /** The upper-case hexadecimal digit for a nibble. */
  function HexChar(d: nat): (c: char)
    requires d < 16
    ensures IsHexDigit(c) && IsAlphanumeric(c) && DigitValue(c) == d
  {
    if d < 10 then ('0' as int + d) as char else ('A' as int + d - 10) as char
  }

  /** Two hexadecimal digits for a byte. */
  function ByteHex(x: nat): (s: string)
    requires x < 256
    ensures |s| == 2
  {
    [HexChar(x / 16), HexChar(x % 16)]
  }

  /** "RRGGBB". */
  function Hex6(r: nat, g: nat, b: nat): (s: string)
    requires r < 256 && g < 256 && b < 256
    ensures |s| == 6
  {
    ByteHex(r) + ByteHex(g) + ByteHex(b)
  }

  /** "AARRGGBB". */
  function Hex8(c: Argb): (s: string)
    requires InByteRange(c)
    ensures |s| == 8
  {
    ByteHex(c.a) + Hex6(c.r, c.g, c.b)
  }

  /** "RGB", one digit per channel. */
  function Hex3(r: nat, g: nat, b: nat): (s: string)
    requires r < 16 && g < 16 && b < 16
    ensures |s| == 3
  {
    [HexChar(r), HexChar(g), HexChar(b)]
  }

  /** Splitting off the last digit of a digit string. */
  lemma HexValueSnoc(s: string, c: char)
    requires forall k :: 0 <= k < |s| ==> IsHexDigit(s[k])
    requires IsHexDigit(c)
    ensures HexValue(s + [c]) == HexValue(s) * 16 + DigitValue(c)
  {
    assert (s + [c])[..|s|] == s;
  }

  /** A string made only of hexadecimal digits is kept whole by the trim and scanned whole. */
  lemma DecodeDigitString(s: string)
    requires forall k :: 0 <= k < |s| ==> IsHexDigit(s[k])
    ensures Decode(s) == Channels(HexValue(s), |s|)
  {
    assert forall k :: 0 <= k < |s| ==> IsAlphanumeric(s[k]);
    assert Trimmed(s) == s;
    assert ScannedDigits(s) == s by {
      if |s| >= 2 {
        assert IsHexDigit(s[1]);
        assert DigitValue('x') == -1 && DigitValue('X') == -1;
        assert s[1] != 'x' && s[1] != 'X';
      }
      var n := HexPrefixLength(s);
      assert n == |s|;
      assert s[..n] == s;
    }
  }

  /** The value of the digits of a few bytes, written out. */
  lemma {:induction false} ByteHexValue(prefix: string, x: nat)
    requires x < 256
    requires forall k :: 0 <= k < |prefix| ==> IsHexDigit(prefix[k])
    ensures forall k :: 0 <= k < |prefix + ByteHex(x)| ==> IsHexDigit((prefix + ByteHex(x))[k])
    ensures HexValue(prefix + ByteHex(x)) == HexValue(prefix) * 256 + x
  {
    var h := HexChar(x / 16);
    var l := HexChar(x % 16);
    assert prefix + ByteHex(x) == (prefix + [h]) + [l];
    HexValueSnoc(prefix, h);
    HexValueSnoc(prefix + [h], l);
  }

  /** Byte-wise division and remainder of a value built from four bytes. */
  lemma SplitBytes(v: nat, a: nat, r: nat, g: nat, b: nat)
    requires a < 256 && r < 256 && g < 256 && b < 256
    requires v == ((a * 256 + r) * 256 + g) * 256 + b
    ensures v / 0x100_0000 == a && v / 0x1_0000 % 0x100 == r && v / 0x100 % 0x100 == g && v % 0x100 == b
  {
  }

  /** Eight digits decode to the alpha, red, green and blue bytes they spell. */
  lemma DecodeHex8(c: Argb)
    requires InByteRange(c)
    ensures Decode(Hex8(c)) == c
  {
    var s1 := ByteHex(c.a);
    var s2 := s1 + ByteHex(c.r);
    var s3 := s2 + ByteHex(c.g);
    var s4 := s3 + ByteHex(c.b);
    assert [] + s1 == s1;
    ByteHexValue([], c.a);
    ByteHexValue(s1, c.r);
    ByteHexValue(s2, c.g);
    ByteHexValue(s3, c.b);
    assert Hex8(c) == s4;
    DecodeDigitString(s4);
    SplitBytes(HexValue(s4), c.a, c.r, c.g, c.b);
  }

  /** Six digits decode to an opaque colour with the red, green and blue bytes they spell. */
  lemma DecodeHex6(r: nat, g: nat, b: nat)
    requires r < 256 && g < 256 && b < 256
    ensures Decode(Hex6(r, g, b)) == Argb(255, r, g, b)
  {
    var s1 := ByteHex(r);
    var s2 := s1 + ByteHex(g);
    var s3 := s2 + ByteHex(b);
    assert [] + s1 == s1;
    ByteHexValue([], r);
    ByteHexValue(s1, g);
    ByteHexValue(s2, b);
    assert Hex6(r, g, b) == s3;
    DecodeDigitString(s3);
    SplitBytes(HexValue(s3), 0, r, g, b);
  }

  /** Nibble-wise division and remainder of a value built from three nibbles. */
  lemma SplitNibbles(v: nat, r: nat, g: nat, b: nat)
    requires r < 16 && g < 16 && b < 16
    requires v == (r * 16 + g) * 16 + b
    ensures Channels(v, 3) == Argb(255, r * 17, g * 17, b * 17)
  {
  }

  /** Three digits decode to an opaque colour with each nibble repeated (times 17). */
  lemma DecodeHex3(r: nat, g: nat, b: nat)
    requires r < 16 && g < 16 && b < 16
    ensures Decode(Hex3(r, g, b)) == Argb(255, r * 17, g * 17, b * 17)
  {
    var s1 := [HexChar(r)];
    var s2 := s1 + [HexChar(g)];
    var s3 := s2 + [HexChar(b)];
    assert [] + s1 == s1;
    HexValueSnoc([], HexChar(r));
    HexValueSnoc(s1, HexChar(g));
    HexValueSnoc(s2, HexChar(b));
    assert Hex3(r, g, b) == s3;
    DecodeDigitString(s3);
    SplitNibbles(HexValue(s3), r, g, b);
  }

  /** The login screen's background colour "A8DADC". */
  lemma LoginBackground()
    ensures Decode("A8DADC") == Argb(255, 168, 218, 220)
  {
    assert Hex6(168, 218, 220) == "A8DADC";
    DecodeHex6(168, 218, 220);
  }
}
