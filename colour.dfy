/**
 * `hex_to_rgb_percent`, the colour converter of both editions: strip the
 * leading '#' characters, read the three two-character fields with Python's
 * `int(field, 16)` and divide each by 255. A field Python cannot read raises
 * `ValueError`; here that is `None`.
 */
module Colour {
  import opened Geometry

  predicate IsHexDigit(c: char) {
    '0' <= c <= '9' || 'a' <= c <= 'f' || 'A' <= c <= 'F'
  }

  function HexDigitValue(c: char): (v: nat)
    requires IsHexDigit(c)
    ensures v < 16
  {
    if '0' <= c <= '9' then (c - '0') as nat
    else if 'a' <= c <= 'f' then (c - 'a') as nat + 10
    else (c - 'A') as nat + 10
  }

  /** The upper-case digit for a value below 16. */
  function HexDigitChar(v: nat): (c: char)
    requires v < 16
    ensures IsHexDigit(c) && HexDigitValue(c) == v
  {
    if v < 10 then ('0' as int + v) as char else ('A' as int + v - 10) as char
  }

  function ToUpper(c: char): char {
    if 'a' <= c <= 'z' then (c as int - 32) as char else c
  }

  /** The whitespace `int()` ignores around its argument (ASCII part). */
  predicate IsSpace(c: char) {
    c == ' ' || c == '\t' || c == '\n' || c == '\r' || c == '\U{000B}' || c == '\U{000C}'
  }

  predicate AllHexDigits(s: string) {
    forall i :: 0 <= i < |s| ==> IsHexDigit(s[i])
  }

  /** The value of a string of hex digits, most significant first. */
  function HexValue(s: string): (v: nat)
    requires AllHexDigits(s)
  {
    if s == [] then 0 else 16 * HexValue(s[..|s| - 1]) + HexDigitValue(s[|s| - 1])
  }

  function StripSpace(s: string): (t: string)
    ensures |t| <= |s|
  {
    if |s| > 0 && IsSpace(s[0]) then StripSpace(s[1..])
    else if |s| > 0 && IsSpace(s[|s| - 1]) then StripSpace(s[..|s| - 1])
    else s
  }

  /**
   * Python's `int(s, 16)` for a string of at most two characters (the only
   * strings the converter passes it): surrounding whitespace, an optional
   * sign, then at least one hex digit.
   */
  function ParseHexField(s: string): (r: Option<int>)
    requires |s| <= 2
    ensures r.Some? ==> -15 <= r.value <= 255
  {
    var t := StripSpace(s);
    if t == [] then None
    else
      var negative := t[0] == '-';
      var digits := if t[0] == '+' || t[0] == '-' then t[1..] else t;
      if digits == [] || !AllHexDigits(digits) then None
      else
        ShortHexValue(digits);
        Some(if negative then -(HexValue(digits) as int) else HexValue(digits))
  }

  /** One hex digit is worth less than 16, two less than 256. */
  lemma ShortHexValue(s: string)
    requires |s| <= 2 && AllHexDigits(s)
    ensures HexValue(s) < 256
    ensures |s| <= 1 ==> HexValue(s) < 16
  {
    if |s| == 2 {
      assert s[..1][..0] == [];
    }
  }

  /** `str.lstrip('#')`. */
  function LStripHash(s: string): (t: string)
    ensures |t| <= |s|
  {
    if |s| > 0 && s[0] == '#' then LStripHash(s[1..]) else s
  }

  /** Python's clamping slice `s[i:j]` for 0 <= i <= j. */
  function Slice(s: string, i: nat, j: nat): (t: string)
    requires i <= j
    ensures |t| <= j - i
  {
    var hi := if j <= |s| then j else |s|;
    var lo := if i <= hi then i else hi;
    s[lo..hi]
  }

  /**
   * The channels `hex_to_rgb_percent` can produce: a field is at most two hex
   * digits, or a sign and one digit, so a channel lies in [-15/255, 1].
   */
  predicate InChannelRange(c: Rgb) {
    -15.0 / 255.0 <= c.r <= 1.0 && -15.0 / 255.0 <= c.g <= 1.0 && -15.0 / 255.0 <= c.b <= 1.0
  }

  /** `hex_to_rgb_percent(hex_color)`. */
  function HexToRgbPercent(hexColour: string): (r: Option<Rgb>)
    ensures r.Some? ==> InChannelRange(r.value)
  {
    var h := LStripHash(hexColour);
    var red := ParseHexField(Slice(h, 0, 2));
    var green := ParseHexField(Slice(h, 2, 4));
    var blue := ParseHexField(Slice(h, 4, 6));
    if red.Some? && green.Some? && blue.Some? then
      Some(Rgb(red.value as real / 255.0, green.value as real / 255.0, blue.value as real / 255.0))
    else None
  }

  /** The colour whose three channels are the given bytes over 255. */
  function ByteColour(red: nat, green: nat, blue: nat): Rgb {
    Rgb(red as real / 255.0, green as real / 255.0, blue as real / 255.0)
  }

  predicate InUnitRange(c: Rgb) {
    0.0 <= c.r <= 1.0 && 0.0 <= c.g <= 1.0 && 0.0 <= c.b <= 1.0
  }

  /** Two upper-case hex digits for a byte. */
  function HexPair(v: nat): (s: string)
    requires v < 256
    ensures |s| == 2 && AllHexDigits(s) && HexValue(s) == v
  {
    var s := [HexDigitChar(v / 16), HexDigitChar(v % 16)];
    PairValue(s);
    s
  }

  /** The byte a unit-range channel stands for. */
  function ChannelByte(x: real): (v: nat)
    requires 0.0 <= x <= 1.0
    ensures v < 256
  {
    (x * 255.0).Floor
  }

  /** The symmetric encoder: a unit-range colour as `#RRGGBB`, upper case. */
  function RgbToHex(c: Rgb): (s: string)
    requires InUnitRange(c)
    ensures |s| == 7 && s[0] == '#'
  {
    "#" + HexPair(ChannelByte(c.r)) + HexPair(ChannelByte(c.g)) + HexPair(ChannelByte(c.b))
  }

  lemma PairValue(p: string)
    requires |p| == 2 && AllHexDigits(p)
    ensures HexValue(p) == 16 * HexDigitValue(p[0]) + HexDigitValue(p[1]) < 256
  {
    var first := p[..1];
    assert first[..0] == [] && first[0] == p[0];
    assert HexValue(first) == HexDigitValue(p[0]);
    assert p[..|p| - 1] == first;
  }

  lemma PairParses(s: string)
    requires |s| == 2 && AllHexDigits(s)
    ensures StripSpace(s) == s
    ensures ParseHexField(s) == Some(HexValue(s) as int)
    ensures HexValue(s) == 16 * HexDigitValue(s[0]) + HexDigitValue(s[1]) < 256
  {
    PairValue(s);
  }

  /**
   * A '#' followed by six hex digits of either case: each channel is the value
   * of its digit pair over 255, so it lies in [0,1].
   */
  lemma SixDigitsParse(s: string)
    requires |s| == 7 && s[0] == '#' && AllHexDigits(s[1..])
    ensures var r := HexToRgbPercent(s);
      && r == Some(ByteColour(HexValue(s[1..3]), HexValue(s[3..5]), HexValue(s[5..7])))
      && InUnitRange(r.value)
  {
    var h := s[1..];
    assert LStripHash(h) == h;
    assert LStripHash(s) == h;
    assert Slice(h, 0, 2) == s[1..3];
    assert Slice(h, 2, 4) == s[3..5];
    assert Slice(h, 4, 6) == s[5..7];
    PairParses(s[1..3]);
    PairParses(s[3..5]);
    PairParses(s[5..7]);
  }

  /** Decoding what the encoder wrote gives the colour back: bytes survive the round trip. */
  lemma EncodeThenDecode(red: nat, green: nat, blue: nat)
    requires red < 256 && green < 256 && blue < 256
    ensures InUnitRange(ByteColour(red, green, blue))
    ensures HexToRgbPercent(RgbToHex(ByteColour(red, green, blue))) == Some(ByteColour(red, green, blue))
  {
    var c := ByteColour(red, green, blue);
    ChannelOfByte(red);
    ChannelOfByte(green);
    ChannelOfByte(blue);
    var s := RgbToHex(c);
    assert s[1..3] == HexPair(red) && s[3..5] == HexPair(green) && s[5..7] == HexPair(blue);
    SixDigitsParse(s);
  }

  lemma ChannelOfByte(v: nat)
    requires v < 256
    ensures 0.0 <= v as real / 255.0 <= 1.0
    ensures ChannelByte(v as real / 255.0) == v
  {
    assert (v as real / 255.0) * 255.0 == v as real;
  }

  /** Encoding what the decoder read gives back the input, in upper case. */
  lemma DecodeThenEncode(s: string)
    requires |s| == 7 && s[0] == '#' && AllHexDigits(s[1..])
    ensures HexToRgbPercent(s).Some? && InUnitRange(HexToRgbPercent(s).value)
    ensures RgbToHex(HexToRgbPercent(s).value)
      == ['#', ToUpper(s[1]), ToUpper(s[2]), ToUpper(s[3]), ToUpper(s[4]), ToUpper(s[5]), ToUpper(s[6])]
  {
    SixDigitsParse(s);
    EncodePairs(s[1..3], s[3..5], s[5..7]);
  }

  lemma EncodePairs(red: string, green: string, blue: string)
    requires |red| == 2 && AllHexDigits(red)
    requires |green| == 2 && AllHexDigits(green)
    requires |blue| == 2 && AllHexDigits(blue)
    ensures HexValue(red) < 256 && HexValue(green) < 256 && HexValue(blue) < 256
    ensures InUnitRange(ByteColour(HexValue(red), HexValue(green), HexValue(blue)))
    ensures RgbToHex(ByteColour(HexValue(red), HexValue(green), HexValue(blue)))
      == ['#', ToUpper(red[0]), ToUpper(red[1]), ToUpper(green[0]), ToUpper(green[1]), ToUpper(blue[0]), ToUpper(blue[1])]
  {
    PairEncodesUpper(red);
    PairEncodesUpper(green);
    PairEncodesUpper(blue);
    var r, g, b := HexValue(red), HexValue(green), HexValue(blue);
    ChannelOfByte(r);
    ChannelOfByte(g);
    ChannelOfByte(b);
    var c := ByteColour(r, g, b);
    assert ChannelByte(c.r) == r && ChannelByte(c.g) == g && ChannelByte(c.b) == b;
    assert RgbToHex(c) == "#" + HexPair(r) + HexPair(g) + HexPair(b);
  }

  lemma PairEncodesUpper(p: string)
    requires |p| == 2 && AllHexDigits(p)
    ensures HexValue(p) < 256
    ensures HexPair(HexValue(p)) == [ToUpper(p[0]), ToUpper(p[1])]
  {
    PairParses(p);
    var v := HexValue(p);
    assert v / 16 == HexDigitValue(p[0]) && v % 16 == HexDigitValue(p[1]);
    DigitEncodesUpper(p[0]);
    DigitEncodesUpper(p[1]);
  }

  lemma DigitEncodesUpper(c: char)
    requires IsHexDigit(c)
    ensures HexDigitChar(HexDigitValue(c)) == ToUpper(c)
  {
  }

  /** The colour the UI starts the pattern with: `#CECECE` is 206/255 per channel. */
  lemma DefaultLineColour()
    ensures HexToRgbPercent("#CECECE") == Some(Rgb(206.0 / 255.0, 206.0 / 255.0, 206.0 / 255.0))
  {
    var h := "CECECE";
    assert LStripHash("#CECECE") == h by {
      assert "#CECECE"[1..] == h;
    }
    assert Slice(h, 0, 2) == "CE" && Slice(h, 2, 4) == "CE" && Slice(h, 4, 6) == "CE";
    PairParses("CE");
    assert HexDigitValue('C') == 12 && HexDigitValue('E') == 14;
  }

  /** With four or fewer characters after the '#'s the third field is empty and `int('', 16)` fails. */
  lemma TooShortFails(s: string)
    requires |LStripHash(s)| <= 4
    ensures HexToRgbPercent(s) == None
  {
    assert Slice(LStripHash(s), 4, 6) == [];
  }

  /** A character among the first six that is neither a hex digit, a sign nor whitespace makes its field fail. */
  lemma StrayCharacterFails(s: string, k: nat)
    requires k < 6 && k < |LStripHash(s)|
    requires var c := LStripHash(s)[k]; !IsHexDigit(c) && c != '+' && c != '-' && !IsSpace(c)
    ensures HexToRgbPercent(s) == None
  {
    var h := LStripHash(s);
    var b := if k < 2 then 0 else if k < 4 then 2 else 4;
    var f := Slice(h, b, b + 2);
    assert f[k - b] == h[k];
    FieldWithStrayFails(f, k - b);
  }

  lemma FieldWithStrayFails(f: string, k: nat)
    requires |f| <= 2 && k < |f|
    requires !IsHexDigit(f[k]) && f[k] != '+' && f[k] != '-' && !IsSpace(f[k])
    ensures ParseHexField(f) == None
  {
    var t := StripSpace(f);
    StripKeeps(f, k);
  }

  /** Stripping whitespace keeps every non-space character of a short field. */
  lemma StripKeeps(f: string, k: nat)
    requires |f| <= 2 && k < |f| && !IsSpace(f[k])
    ensures f[k] in StripSpace(f)
  {
    if |f| == 2 {
      if IsSpace(f[0]) {
        assert StripSpace(f) == StripSpace(f[1..]);
        assert f[1..] == [f[1]];
      } else if IsSpace(f[1]) {
        assert StripSpace(f) == StripSpace(f[..1]);
        assert f[..1] == [f[0]];
      }
    }
  }
}
