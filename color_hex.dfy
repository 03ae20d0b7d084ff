/**
 * The colour pickers' codec (`rgbaToHex`, `hexToRgba`): an RGBA colour to the `#rrggbb` string an
 * HTML colour input shows, and back.
 *
 * A channel is a byte: the program's `Math.round(c * 255)` and `/ 255` scalings between [0, 1]
 * and 0..255 are not part of this model. `parseInt(_, 16)` skips a leading `0x` or `0X` and
 * then reads the longest prefix of hexadecimal digits, in either case; NaN (here `None`) when there
 * is none.
 */
module ColorHex {
  import opened Wrappers

  newtype byte = x: int | 0 <= x < 256

  /** A colour: three byte channels and the alpha the program keeps beside them. */
  datatype Rgba = Rgba(r: byte, g: byte, b: byte, alpha: real)

  /** The digit `Number.prototype.toString(16)` writes for `v`: lower case. */
  function HexDigit(v: nat): (ch: char)
    requires v < 16
  {
    if v < 10 then ('0' as int + v) as char else ('a' as int + v - 10) as char
  }

  predicate IsLowerHexDigit(ch: char) { '0' <= ch <= '9' || 'a' <= ch <= 'f' }

  /** The value of a hexadecimal digit in either case, as `parseInt` reads it. */
  function DigitValue(ch: char): Option<nat> {
    if '0' <= ch <= '9' then Some(ch as int - '0' as int)
    else if 'a' <= ch <= 'f' then Some(ch as int - 'a' as int + 10)
    else if 'A' <= ch <= 'F' then Some(ch as int - 'A' as int + 10)
    else None
  }

  /** `n.toString(16)`: base-16 digits, most significant first, no leading zeros. */
  function ToBase16(n: nat): string
    decreases n
  {
    if n < 16 then [HexDigit(n)] else ToBase16(n / 16) + [HexDigit(n % 16)]
  }

  /** `s.padStart(width, fill)`. */
  function PadStart(s: string, width: nat, fill: char): string {
    if |s| >= width then s else seq(width - |s|, _ => fill) + s
  }

  /** `Math.round(c * 255).toString(16).padStart(2, '0')` for a channel already in bytes. */
  function Channel(v: byte): string {
    PadStart(ToBase16(v as nat), 2, '0')
  }

  /** `rgbaToHex`: `#`, then two lower-case digits per channel, red, green, blue; alpha is dropped. */
  function RgbaToHex(c: Rgba): (s: string)
    ensures |s| == 7 && s[0] == '#'
    ensures forall i :: 1 <= i < 7 ==> IsLowerHexDigit(s[i])
    ensures s[1..3] == [HexDigit(c.r as nat / 16), HexDigit(c.r as nat % 16)]
    ensures s[3..5] == [HexDigit(c.g as nat / 16), HexDigit(c.g as nat % 16)]
    ensures s[5..7] == [HexDigit(c.b as nat / 16), HexDigit(c.b as nat % 16)]
  {
    ChannelDigits(c.r);
    ChannelDigits(c.g);
    ChannelDigits(c.b);
    "#" + Channel(c.r) + Channel(c.g) + Channel(c.b)
  }

  /** A channel is written as exactly two digits: the high and the low nibble. */
  lemma ChannelDigits(v: byte)
    ensures Channel(v) == [HexDigit(v as nat / 16), HexDigit(v as nat % 16)]
    ensures IsLowerHexDigit(Channel(v)[0]) && IsLowerHexDigit(Channel(v)[1])
  {
    var n := v as nat;
    if n >= 16 {
      assert ToBase16(n) == ToBase16(n / 16) + [HexDigit(n % 16)];
    }
  }

  /** `s.slice(lo, hi)` for 0 <= lo <= hi: both ends clamp to the string's length. */
  function Slice(s: string, lo: nat, hi: nat): (t: string)
    requires lo <= hi
    ensures |t| <= hi - lo
    ensures hi <= |s| ==> t == s[lo..hi]
    ensures lo >= |s| ==> t == []
    ensures lo < hi && lo < |s| ==> t != [] && t[0] == s[lo]
  {
    var end := if hi <= |s| then hi else |s|;
    var start := if lo <= end then lo else end;
    s[start..end]
  }

  /** The number of leading hexadecimal digits of `s`. */
  function DigitPrefix(s: string): (k: nat)
    ensures k <= |s|
    ensures forall i :: 0 <= i < k ==> DigitValue(s[i]).Some?
    ensures k < |s| ==> DigitValue(s[k]).None?
    decreases |s|
  {
    if s == [] || DigitValue(s[0]).None? then 0 else 1 + DigitPrefix(s[1..])
  }

  /** The value of a string of hexadecimal digits, most significant first. */
  function DigitsValue(ds: string): nat
    requires forall i :: 0 <= i < |ds| ==> DigitValue(ds[i]).Some?
    decreases |ds|
  {
    if ds == [] then 0 else DigitsValue(ds[..|ds| - 1]) * 16 + DigitValue(ds[|ds| - 1]).value
  }

  /** Whether `s` opens with the `0x` or `0X` that `parseInt` skips when the radix is 16. */
  predicate HasHexPrefix(s: string) { |s| >= 2 && s[0] == '0' && (s[1] == 'x' || s[1] == 'X') }

  /** `parseInt(s, 16)`: past a leading `0x` or `0X`, the value of the leading digits; NaN (`None`)
      when no digit follows. */
  function ParseHex(s: string): Option<nat> {
    var body := if HasHexPrefix(s) then s[2..] else s;
    var k := DigitPrefix(body);
    if k == 0 then None else Some(DigitsValue(body[..k]))
  }

  /** Whether the two characters of `hex` from `lo` on read as a number: the first is a hexadecimal
      digit and the pair is not `0x` or `0X`, which `parseInt` would skip, leaving nothing. */
  predicate StartsChannel(hex: string, lo: nat) {
    lo < |hex| && DigitValue(hex[lo]).Some? &&
    !(lo + 1 < |hex| && hex[lo] == '0' && (hex[lo + 1] == 'x' || hex[lo + 1] == 'X'))
  }

  /** A channel of `hexToRgba`: the slice `hex.slice(lo, lo + 2)` read in base 16. Two digits are
      at most 255, so a parsed channel is always a byte. */
  function ParseChannel(hex: string, lo: nat): (v: Option<byte>)
    ensures v.Some? <==> StartsChannel(hex, lo)
  {
    assert lo + 1 < |hex| ==> Slice(hex, lo, lo + 2) == [hex[lo], hex[lo + 1]];
    ParseTwoDigitsIsByte(Slice(hex, lo, lo + 2));
    var parsed := ParseHex(Slice(hex, lo, lo + 2));
    if parsed.Some? && parsed.value < 256 then Some(parsed.value as byte) else None
  }

  /** `hexToRgba`: channels from characters 1-2, 3-4 and 5-6, alpha 1. `None` stands for the colour
      with a NaN channel the program builds when a slice reads as no number. */
  function HexToRgba(hex: string): (c: Option<Rgba>)
    ensures c.Some? <==> StartsChannel(hex, 1) && StartsChannel(hex, 3) && StartsChannel(hex, 5)
    ensures c.Some? ==> c.value.alpha == 1.0
  {
    var r, g, b := ParseChannel(hex, 1), ParseChannel(hex, 3), ParseChannel(hex, 5);
    if r.Some? && g.Some? && b.Some? then Some(Rgba(r.value, g.value, b.value, 1.0)) else None
  }

  /** Every digit string a slice of two characters can hold reads as a byte. */
  lemma ParseTwoDigitsIsByte(s: string)
    requires |s| <= 2
    ensures ParseHex(s).Some? ==> ParseHex(s).value < 256
  {
    var k := DigitPrefix(s);
    if HasHexPrefix(s) {
      assert s[2..] == [];
    } else if k == 1 {
      assert DigitsValue(s[..1]) == DigitsValue(s[..1][..0]) * 16 + DigitValue(s[0]).value;
    } else if k == 2 {
      assert s[..2][..1] == s[..1];
      assert DigitsValue(s[..1]) == DigitsValue(s[..1][..0]) * 16 + DigitValue(s[0]).value;
    }
  }

  /** A digit `toString(16)` writes reads back as the value it was written for. */
  lemma DigitValueOfHexDigit(v: nat)
    requires v < 16
    ensures DigitValue(HexDigit(v)) == Some(v)
  {
  }

  /** A lower-case digit is written back as itself from the value it reads as. */
  lemma HexDigitOfDigitValue(ch: char)
    requires IsLowerHexDigit(ch)
    ensures DigitValue(ch).Some? && DigitValue(ch).value < 16 && HexDigit(DigitValue(ch).value) == ch
  {
  }

  /** Two lower-case digits `[hi, lo]` read as `16 * hi + lo`. */
  lemma ParseTwoDigits(s: string, hi: nat, lo: nat)
    requires |s| == 2 && hi < 16 && lo < 16 && s == [HexDigit(hi), HexDigit(lo)]
    ensures ParseHex(s) == Some(16 * hi + lo)
  {
    DigitValueOfHexDigit(hi);
    DigitValueOfHexDigit(lo);
    assert !HasHexPrefix(s);
    assert DigitPrefix(s[1..]) == 1 by {
      assert s[1..][1..] == [];
    }
    assert s[..2] == s && s[..2][..1] == [HexDigit(hi)];
    assert DigitsValue([HexDigit(hi)]) == DigitsValue([]) * 16 + hi;
  }

  /** Inside the string, a channel reads the two characters from `lo` on. */
  lemma ParseChannelInside(hex: string, lo: nat, x: string)
    requires lo + 2 <= |hex| && x == hex[lo..lo + 2]
    requires ParseHex(x).Some? && ParseHex(x).value < 256
    ensures ParseChannel(hex, lo) == Some(ParseHex(x).value as byte)
  {
    assert Slice(hex, lo, lo + 2) == x;
  }

  /** Reading back what `rgbaToHex` wrote gives the same three bytes with alpha 1: the codec
      round-trips on every colour whose alpha is 1. */
  lemma HexRoundTrip(c: Rgba)
    ensures HexToRgba(RgbaToHex(c)) == Some(c.(alpha := 1.0))
  {
    var s := RgbaToHex(c);
    ParseTwoDigits(s[1..3], c.r as nat / 16, c.r as nat % 16);
    ParseTwoDigits(s[3..5], c.g as nat / 16, c.g as nat % 16);
    ParseTwoDigits(s[5..7], c.b as nat / 16, c.b as nat % 16);
    ParseChannelInside(s, 1, s[1..3]);
    ParseChannelInside(s, 3, s[3..5]);
    ParseChannelInside(s, 5, s[5..7]);
  }

  /** Two lower-case digits read as a byte that `rgbaToHex` writes back as the same two digits. */
  lemma ChannelRoundTrip(x: string)
    requires |x| == 2 && IsLowerHexDigit(x[0]) && IsLowerHexDigit(x[1])
    ensures ParseHex(x).Some? && ParseHex(x).value < 256
    ensures [HexDigit(ParseHex(x).value / 16), HexDigit(ParseHex(x).value % 16)] == x
  {
    HexDigitOfDigitValue(x[0]);
    HexDigitOfDigitValue(x[1]);
    var hi, lo := DigitValue(x[0]).value, DigitValue(x[1]).value;
    assert x == [HexDigit(hi), HexDigit(lo)];
    ParseTwoDigits(x, hi, lo);
    assert (16 * hi + lo) / 16 == hi && (16 * hi + lo) % 16 == lo;
  }

  /** Two `#rrggbb` strings that agree on each channel's two digits are the same string. */
  lemma SameChannels(s: string, t: string)
    requires |s| == 7 && |t| == 7 && s[0] == t[0]
    requires s[1..3] == t[1..3] && s[3..5] == t[3..5] && s[5..7] == t[5..7]
    ensures s == t
  {
    forall i | 1 <= i < 7
      ensures s[i] == t[i]
    {
      if i < 3 {
        assert s[i] == s[1..3][i - 1];
      } else if i < 5 {
        assert s[i] == s[3..5][i - 3];
      } else {
        assert s[i] == s[5..7][i - 5];
      }
    }
  }

  /** The other direction: a `#rrggbb` string in lower case, as a colour input reports its value,
      parses to a colour that `rgbaToHex` writes back as the same string. */
  lemma CanonicalHexRoundTrip(s: string)
    requires |s| == 7 && s[0] == '#' && forall i :: 1 <= i < 7 ==> IsLowerHexDigit(s[i])
    ensures HexToRgba(s).Some? && RgbaToHex(HexToRgba(s).value) == s
  {
    assert s[1..3] == [s[1], s[2]] && s[3..5] == [s[3], s[4]] && s[5..7] == [s[5], s[6]];
    ChannelRoundTrip(s[1..3]);
    ChannelRoundTrip(s[3..5]);
    ChannelRoundTrip(s[5..7]);
    ParseChannelInside(s, 1, s[1..3]);
    ParseChannelInside(s, 3, s[3..5]);
    ParseChannelInside(s, 5, s[5..7]);
    SameChannels(s, RgbaToHex(HexToRgba(s).value));
  }

  /** `parseInt` skips a `0x` prefix, so a channel written `0x` reads as NaN, while one written `0a`
      reads as 10. */
  lemma HexPrefixChannelIsNaN()
    ensures HexToRgba("#0x0000") == None
    ensures HexToRgba("#0a0000") == Some(Rgba(10, 0, 0, 1.0))
  {
    assert !StartsChannel("#0x0000", 1);
    var s := "#0a0000";
    assert s[1..3] == ['0', 'a'] == [HexDigit(0), HexDigit(10)] && s[3..5] == [HexDigit(0), HexDigit(0)];
    assert s[5..7] == s[3..5];
    ParseTwoDigits(s[1..3], 0, 10);
    ParseTwoDigits(s[3..5], 0, 0);
    ParseChannelInside(s, 1, s[1..3]);
    ParseChannelInside(s, 3, s[3..5]);
    ParseChannelInside(s, 5, s[5..7]);
  }
}
