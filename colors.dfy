/**
 * The colour helpers of the stylesheet generator: `hex_to_rgb` and
 * `rgb_to_hex`, the `#rrggbb` notation of section 5.2 of CSS Color Module
 * Level 4, and the key structure of `generate_color_shades`.
 *
 * `hex_to_rgb` strips every leading `#` and reads characters [0:2], [2:4]
 * and [4:6] with `int(..., 16)`, so it inherits what Python's `int` accepts
 * (a sign, surrounding whitespace) and rejects (an empty slice).
 */
module Colors {
  import opened Wrappers
  import opened Text
  import PyInt

  datatype Rgb = Rgb(r: int, g: int, b: int)

  /** `s.lstrip('#')`. */
  function LStripHash(s: string): (r: string)
    ensures |r| <= |s|
    ensures r != [] ==> r[0] != '#'
  {
    if s != [] && s[0] == '#' then LStripHash(s[1..]) else s
  }

  /** `lstrip('#')` removes `#`s only, and only from the front. */
  lemma {:induction false} LStripHashSuffix(s: string)
    ensures var r := LStripHash(s);
      && r == s[|s| - |r|..]
      && forall i :: 0 <= i < |s| - |r| ==> s[i] == '#'
    decreases |s|
  {
    if s != [] && s[0] == '#' {
      LStripHashSuffix(s[1..]);
    }
  }

  /** `s[i:i+2]`, with Python's clamping of slice bounds. */
  function Slice2(s: string, i: nat): (r: string)
    ensures |r| <= 2
    ensures i + 2 <= |s| ==> r == s[i..i + 2]
  {
    if i >= |s| then "" else if i + 2 >= |s| then s[i..] else s[i..i + 2]
  }

  /** `int(h[i:i+2], 16)`, or None where it raises `ValueError`. */
  function Component(h: string, i: nat): Option<int>
  {
    PyInt.ParseInt(Slice2(h, i), 16)
  }

  /**
   * The generator `int(h[i:i+2], 16) for i in (0, 2, 4)`, from offset
   * `from` on, gathered into a tuple.
   */
  function ReadComponents(h: string, from: nat): (r: Option<seq<int>>)
    ensures r.Some? && from == 0 ==> |r.value| == 3
    decreases 6 - from
  {
    if from >= 6 then Some([])
    else
      var first := Component(h, from);
      var rest := ReadComponents(h, from + 2);
      if first.Some? && rest.Some? then Some([first.value] + rest.value) else None
  }

  /** `hex_to_rgb`: None where one of the three `int` conversions raises. */
  function HexToRgb(color: string): (c: Option<Rgb>)
  {
    var parts := ReadComponents(LStripHash(color), 0);
    if parts.Some? then Some(Rgb(parts.value[0], parts.value[1], parts.value[2])) else None
  }

  /** The tuple of the three components: None where one of them raises. */
  lemma ReadThree(h: string)
    ensures ReadComponents(h, 0) ==
      if Component(h, 0).Some? && Component(h, 2).Some? && Component(h, 4).Some? then
        Some([Component(h, 0).value, Component(h, 2).value, Component(h, 4).value])
      else None
  {
    var c0, c2, c4 := Component(h, 0), Component(h, 2), Component(h, 4);
    var last := ReadComponents(h, 6);
    assert last == Some([]);
    var third := ReadComponents(h, 4);
    if c4.Some? {
      assert [c4.value] + last.value == [c4.value];
      assert third == Some([c4.value]);
    }
    var second := ReadComponents(h, 2);
    if c2.Some? && c4.Some? {
      assert [c2.value] + third.value == [c2.value, c4.value];
      assert second == Some([c2.value, c4.value]);
    }
    if c0.Some? && c2.Some? && c4.Some? {
      assert [c0.value] + second.value == [c0.value, c2.value, c4.value];
    }
  }

  /** `hex_to_rgb` reads the three two-character slices after the `#`s, and fails if any of them fails. */
  lemma HexToRgbReads(color: string)
    ensures var h := LStripHash(color);
      HexToRgb(color) ==
        if Component(h, 0).Some? && Component(h, 2).Some? && Component(h, 4).Some? then
          Some(Rgb(Component(h, 0).value, Component(h, 2).value, Component(h, 4).value))
        else None
  {
    ReadThree(LStripHash(color));
  }

  /** `max(0, min(255, x))`. */
  function Clamp(x: int): (c: int)
    ensures 0 <= c <= 255
    ensures 0 <= x <= 255 ==> c == x
    ensures x < 0 ==> c == 0
    ensures x > 255 ==> c == 255
  {
    if x < 0 then 0 else if x > 255 then 255 else x
  }

  /** The characters `'{:02x}'` writes. */
  predicate IsLowerHex(c: char)
  {
    '0' <= c <= '9' || 'a' <= c <= 'f'
  }

  /** The lower-case hexadecimal digit worth `d`. */
  function HexChar(d: nat): (c: char)
    requires d < 16
    ensures IsLowerHex(c)
  {
    if d < 10 then ('0' as int + d) as char else ('a' as int + d - 10) as char
  }

  /** `int` reads each digit `HexChar` writes as the value it was written for. */
  lemma HexCharValue(d: nat)
    requires d < 16
    ensures PyInt.DigitValue(HexChar(d), 16) == Some(d)
  {
  }

  /** `'{:02x}'.format(n)`. */
  function Hex2(n: int): (r: string)
    requires 0 <= n < 256
    ensures |r| == 2 && IsLowerHex(r[0]) && IsLowerHex(r[1])
  {
    [HexChar(n / 16), HexChar(n % 16)]
  }

  /** `'{:02x}'` applied to each component, clamped, one after the other. */
  function HexComponents(cs: seq<int>): (r: string)
    ensures |r| == 2 * |cs|
    decreases |cs|
  {
    if cs == [] then "" else Hex2(Clamp(cs[0])) + HexComponents(cs[1..])
  }

  /** `rgb_to_hex`: each component clamped into 0..255 first. */
  function RgbToHex(c: Rgb): (r: string)
    ensures |r| == 7 && r[0] == '#'
  {
    "#" + HexComponents([c.r, c.g, c.b])
  }

  /** What `rgb_to_hex` writes: `#` and six lower-case hex digits, two per clamped component. */
  lemma RgbToHexFormat(c: Rgb)
    ensures var r := RgbToHex(c);
      && (forall i :: 1 <= i < 7 ==> IsLowerHex(r[i]))
      && r[1..3] == Hex2(Clamp(c.r)) && r[3..5] == Hex2(Clamp(c.g)) && r[5..7] == Hex2(Clamp(c.b))
  {
    var x, y, z := Hex2(Clamp(c.r)), Hex2(Clamp(c.g)), Hex2(Clamp(c.b));
    var cs := [c.r, c.g, c.b];
    assert cs[1..] == [c.g, c.b] && cs[1..][1..] == [c.b] && cs[1..][1..][1..] == [];
    assert HexComponents([c.b]) == z + "" == z;
    assert HexComponents([c.g, c.b]) == y + z;
    assert HexComponents(cs) == x + (y + z);
    var r := RgbToHex(c);
    assert r == "#" + x + y + z;
    assert r[1..3] == x && r[3..5] == y && r[5..7] == z;
  }

  predicate InRange(c: Rgb)
  {
    0 <= c.r <= 255 && 0 <= c.g <= 255 && 0 <= c.b <= 255
  }

  /** `int(c1 + c2, 16)` for two hexadecimal digits. */
  lemma ParsePair(a: char, b: char)
    requires PyInt.IsDigit(a, 16) && PyInt.IsDigit(b, 16)
    ensures PyInt.ParseInt([a, b], 16) == Some(PyInt.DigitValue(a, 16).value * 16 + PyInt.DigitValue(b, 16).value)
  {
    var s := [a, b];
    assert PyInt.ValidDigits(s, 16);
    PyInt.ParsePlainDigits(s, 16);
    assert s[..1] == [a] && [a][..0] == [];
    assert PyInt.DigitsValue([a], 16) == PyInt.DigitValue(a, 16).value;
    assert PyInt.DigitsValue(s, 16) == PyInt.DigitsValue([a], 16) * 16 + PyInt.DigitValue(b, 16).value;
  }

  /** `int('{:02x}'.format(n), 16) == n`. */
  lemma Hex2Parses(n: int)
    requires 0 <= n < 256
    ensures PyInt.ParseInt(Hex2(n), 16) == Some(n)
  {
    var hi, lo := n / 16, n % 16;
    assert n == hi * 16 + lo;
    assert Hex2(n) == [HexChar(hi), HexChar(lo)];
    HexCharValue(hi);
    HexCharValue(lo);
    ParsePair(HexChar(hi), HexChar(lo));
  }

  /** Two texts that agree on the three slices read the same colour. */
  lemma SameSlicesSameColour(h: string, t: string)
    requires Slice2(h, 0) == Slice2(t, 0) && Slice2(h, 2) == Slice2(t, 2) && Slice2(h, 4) == Slice2(t, 4)
    ensures ReadComponents(h, 0) == ReadComponents(t, 0)
  {
    ReadThree(h);
    ReadThree(t);
  }

  /** A `#` in front of text that does not start with one is all `lstrip('#')` removes. */
  lemma StripOneHash(h: string)
    requires h == [] || h[0] != '#'
    ensures LStripHash("#" + h) == h
  {
    assert ("#" + h)[1..] == h;
  }

  /** The three slices `hex_to_rgb` reads from what `rgb_to_hex` wrote. */
  lemma WrittenSlices(c: Rgb)
    ensures var h := LStripHash(RgbToHex(c));
      Slice2(h, 0) == Hex2(Clamp(c.r)) && Slice2(h, 2) == Hex2(Clamp(c.g)) && Slice2(h, 4) == Hex2(Clamp(c.b))
  {
    var s := RgbToHex(c);
    RgbToHexFormat(c);
    var h := s[1..];
    assert s == "#" + h;
    assert IsLowerHex(h[0]);
    StripOneHash(h);
    assert h[0..2] == s[1..3] && h[2..4] == s[3..5] && h[4..6] == s[5..7];
  }

  /** Reading a colour written by `rgb_to_hex` gives back every in-range colour. */
  lemma RgbRoundTrip(c: Rgb)
    requires InRange(c)
    ensures HexToRgb(RgbToHex(c)) == Some(c)
  {
    var h := LStripHash(RgbToHex(c));
    WrittenSlices(c);
    Hex2Parses(c.r);
    Hex2Parses(c.g);
    Hex2Parses(c.b);
    ReadThree(h);
  }

  predicate IsHexColour(h: string)
  {
    |h| == 6 && forall i :: 0 <= i < 6 ==> PyInt.IsDigit(h[i], 16)
  }

  lemma LowerHexDigit(c: char)
    requires PyInt.IsDigit(c, 16)
    ensures HexChar(PyInt.DigitValue(c, 16).value) == LowerChar(c)
  {
  }

  /** The number two hexadecimal digits spell. */
  function PairValue(a: char, b: char): (n: int)
    requires PyInt.IsDigit(a, 16) && PyInt.IsDigit(b, 16)
    ensures 0 <= n < 256
  {
    PyInt.DigitValue(a, 16).value * 16 + PyInt.DigitValue(b, 16).value
  }

  lemma PairWritesBack(a: char, b: char)
    requires PyInt.IsDigit(a, 16) && PyInt.IsDigit(b, 16)
    ensures Hex2(PairValue(a, b)) == [LowerChar(a), LowerChar(b)]
  {
    var n := PairValue(a, b);
    assert n / 16 == PyInt.DigitValue(a, 16).value && n % 16 == PyInt.DigitValue(b, 16).value;
    LowerHexDigit(a);
    LowerHexDigit(b);
  }

  /** Two hexadecimal digits at offset `i` read as the number they spell. */
  lemma PairComponent(h: string, i: nat)
    requires i + 2 <= |h| && PyInt.IsDigit(h[i], 16) && PyInt.IsDigit(h[i + 1], 16)
    ensures Component(h, i) == Some(PairValue(h[i], h[i + 1]))
  {
    assert Slice2(h, i) == [h[i], h[i + 1]];
    ParsePair(h[i], h[i + 1]);
  }

  /** `#` and six hexadecimal digits read as the three numbers the digit pairs spell. */
  lemma HexColourReads(h: string)
    requires IsHexColour(h)
    ensures HexToRgb("#" + h) == Some(Rgb(PairValue(h[0], h[1]), PairValue(h[2], h[3]), PairValue(h[4], h[5])))
  {
    assert PyInt.IsDigit(h[0], 16) && PyInt.IsDigit(h[1], 16) && PyInt.IsDigit(h[2], 16);
    assert PyInt.IsDigit(h[3], 16) && PyInt.IsDigit(h[4], 16) && PyInt.IsDigit(h[5], 16);
    StripOneHash(h);
    PairComponent(h, 0);
    PairComponent(h, 2);
    PairComponent(h, 4);
    ReadThree(h);
  }

  /** Writing the three pair values gives `#` and the six digits in lower case. */
  lemma HexColourWrites(h: string)
    requires IsHexColour(h)
    ensures RgbToHex(Rgb(PairValue(h[0], h[1]), PairValue(h[2], h[3]), PairValue(h[4], h[5]))) == "#" + Lower(h)
  {
    assert PyInt.IsDigit(h[0], 16) && PyInt.IsDigit(h[1], 16) && PyInt.IsDigit(h[2], 16);
    assert PyInt.IsDigit(h[3], 16) && PyInt.IsDigit(h[4], 16) && PyInt.IsDigit(h[5], 16);
    var c := Rgb(PairValue(h[0], h[1]), PairValue(h[2], h[3]), PairValue(h[4], h[5]));
    PairWritesBack(h[0], h[1]);
    PairWritesBack(h[2], h[3]);
    PairWritesBack(h[4], h[5]);
    RgbToHexFormat(c);
    var r := RgbToHex(c);
    assert r == "#" + r[1..3] + r[3..5] + r[5..7];
    assert r == "#" + [LowerChar(h[0]), LowerChar(h[1])] + [LowerChar(h[2]), LowerChar(h[3])]
                    + [LowerChar(h[4]), LowerChar(h[5])];
  }

  /**
   * Writing back a colour read from `#` and six hexadecimal digits gives
   * the same colour with its digits in lower case.
   */
  lemma HexRoundTrip(h: string)
    requires IsHexColour(h)
    ensures HexToRgb("#" + h).Some?
    ensures RgbToHex(HexToRgb("#" + h).value) == "#" + Lower(h)
  {
    HexColourReads(h);
    HexColourWrites(h);
  }

  /** The value of at most two digits. */
  lemma ShortDigitsBound(s: string)
    requires |s| <= 2
    ensures PyInt.DigitsValue(s, 16) <= (if |s| <= 1 then 15 else 255)
  {
    if s != [] {
      var init := s[..|s| - 1];
      if init != [] {
        assert init[..|init| - 1] == [];
      }
    }
  }

  /**
   * What `int(t, 16)` can give for a slice of at most two characters: a
   * sign leaves room for one digit only, so the value lies in -15..255, and
   * without a minus sign in the slice it is not negative.
   */
  lemma ShortParseRange(t: string)
    requires |t| <= 2
    requires PyInt.ParseInt(t, 16).Some?
    ensures -15 <= PyInt.ParseInt(t, 16).value <= 255
    ensures '-' !in t ==> PyInt.ParseInt(t, 16).value >= 0
  {
    ShortDigitsBound(PyInt.DigitsPart(t, 16));
    if PyInt.Negative(t) {
      PyInt.NegativeHasMinus(t);
    }
  }

  /** A slice of the text after the `#`s holds only characters of the original text. */
  lemma SliceHasNoMinus(color: string, i: nat)
    requires '-' !in color
    ensures '-' !in Slice2(LStripHash(color), i)
  {
    var h := LStripHash(color);
    LStripHashSuffix(color);
    var t := Slice2(h, i);
    forall k | 0 <= k < |t| ensures t[k] != '-' {
      assert t[k] == h[i + k] == color[|color| - |h| + i + k];
    }
  }

  /**
   * Every component `hex_to_rgb` returns lies in -15..255 (`int` accepts a
   * sign, so `#-f0000` reads as red -15), and in 0..255 when the text holds
   * no minus sign.
   */
  lemma HexToRgbRange(color: string)
    requires HexToRgb(color).Some?
    ensures var c := HexToRgb(color).value;
      -15 <= c.r <= 255 && -15 <= c.g <= 255 && -15 <= c.b <= 255
    ensures '-' !in color ==> InRange(HexToRgb(color).value)
  {
    var h := LStripHash(color);
    ReadThree(h);
    ShortParseRange(Slice2(h, 0));
    ShortParseRange(Slice2(h, 2));
    ShortParseRange(Slice2(h, 4));
    if '-' !in color {
      SliceHasNoMinus(color, 0);
      SliceHasNoMinus(color, 2);
      SliceHasNoMinus(color, 4);
    }
  }

  /** Only the first six characters after the `#`s are read; anything after them is ignored. */
  lemma HexToRgbIgnoresTail(color: string, tail: string)
    requires |LStripHash(color)| >= 6
    ensures HexToRgb(color + tail) == HexToRgb(color)
  {
    var h := LStripHash(color);
    StripHashAppend(color, tail);
    SliceOfLonger(h, tail, 0);
    SliceOfLonger(h, tail, 2);
    SliceOfLonger(h, tail, 4);
    SameSlicesSameColour(h, h + tail);
  }

  lemma SliceOfLonger(h: string, tail: string, i: nat)
    requires i + 2 <= |h|
    ensures Slice2(h + tail, i) == Slice2(h, i)
  {
    assert (h + tail)[i..i + 2] == h[i..i + 2];
  }

  lemma {:induction false} StripHashAppend(s: string, tail: string)
    requires LStripHash(s) != []
    ensures LStripHash(s + tail) == LStripHash(s) + tail
  {
    if s[0] == '#' {
      assert (s + tail)[1..] == s[1..] + tail;
      StripHashAppend(s[1..], tail);
    }
  }

  /** Shade number `100 * i`. */
  function Shade(i: int): int
  {
    100 * i
  }

  /** The shade numbers `100 * j` for `1 <= j < n`. */
  function ShadesBelow(n: int): (r: set<int>)
    ensures forall j :: 1 <= j < n ==> Shade(j) in r
    ensures forall k :: k in r ==> k < Shade(n)
    decreases n
  {
    if n <= 1 then {} else ShadesBelow(n - 1) + {Shade(n - 1)}
  }

  lemma ShadesBelowStep(n: int)
    requires n >= 1
    ensures ShadesBelow(n + 1) == ShadesBelow(n) + {Shade(n)}
  {
  }

  /** The shade numbers of a palette are 100, 200, ..., 900. */
  lemma PaletteShades()
    ensures ShadesBelow(10) == {100, 200, 300, 400, 500, 600, 700, 800, 900}
  {
  }

  /**
   * The first loop of `generate_color_shades`: shades 100 to 400, the
   * colour `lighter(rgb, i)` written as hex under `100 * i`.
   */
  method LighterShades(rgb: Rgb, lighter: (Rgb, int) -> Rgb) returns (shades: map<int, string>)
    ensures shades.Keys == ShadesBelow(5)
    ensures forall i :: 1 <= i < 5 ==> shades[Shade(i)] == RgbToHex(lighter(rgb, i))
  {
    shades := map[];
    for i := 1 to 5
      invariant shades.Keys == ShadesBelow(i)
      invariant forall j :: 1 <= j < i ==> shades[Shade(j)] == RgbToHex(lighter(rgb, j))
    {
      shades := shades[Shade(i) := RgbToHex(lighter(rgb, i))];
    }
  }

  /**
   * The second loop: shades 600 to 900, the colour `darker(rgb, i)` under
   * `500 + 100 * i`, with the entries already present kept.
   */
  method AddDarkerShades(start: map<int, string>, rgb: Rgb, darker: (Rgb, int) -> Rgb) returns (shades: map<int, string>)
    requires start.Keys == ShadesBelow(6)
    ensures shades.Keys == ShadesBelow(10)
    ensures forall k :: k in start ==> shades[k] == start[k]
    ensures forall i :: 1 <= i < 5 ==> shades[Shade(5 + i)] == RgbToHex(darker(rgb, i))
  {
    shades := start;
    for i := 1 to 5
      invariant shades.Keys == ShadesBelow(5 + i)
      invariant forall k :: k in start ==> shades[k] == start[k]
      invariant forall j :: 1 <= j < i ==> shades[Shade(5 + j)] == RgbToHex(darker(rgb, j))
    {
      assert 500 + Shade(i) == Shade(5 + i) && Shade(5 + i) !in start;
      shades := shades[500 + Shade(i) := RgbToHex(darker(rgb, i))];
    }
  }

  /**
   * The palette `generate_color_shades` builds around a base colour already
   * read as `rgb`: the four lighter shades, the base text itself under 500,
   * then the four darker shades.
   */
  method Palette(base: string, rgb: Rgb, lighter: (Rgb, int) -> Rgb, darker: (Rgb, int) -> Rgb)
    returns (shades: map<int, string>)
    ensures shades.Keys == ShadesBelow(10)
    ensures shades[500] == base
    ensures forall i :: 1 <= i < 5 ==>
      && shades[Shade(i)] == RgbToHex(lighter(rgb, i))
      && shades[Shade(5 + i)] == RgbToHex(darker(rgb, i))
  {
    shades := LighterShades(rgb, lighter);
    ShadesBelowStep(5);
    shades := shades[500 := base];
    shades := AddDarkerShades(shades, rgb, darker);
  }

  /**
   * Where `rgb_to_hsl` raises. `colorsys.rgb_to_hls` divides by the sum of
   * the largest and smallest component when the lightness is at most one
   * half and the two differ; that sum is zero exactly when the integer
   * components it came from add up to zero. (The other divisor, two minus
   * that sum, needs both to be 255, and then they are equal.)
   */
  predicate HlsDividesByZero(c: Rgb)
  {
    var hi := Max3(c.r, c.g, c.b);
    var lo := Min3(c.r, c.g, c.b);
    hi + lo == 0 && hi != lo
  }

  function Max3(a: int, b: int, c: int): (m: int)
    ensures (m == a || m == b || m == c) && a <= m && b <= m && c <= m
  {
    if a >= b && a >= c then a else if b >= c then b else c
  }

  function Min3(a: int, b: int, c: int): (m: int)
    ensures (m == a || m == b || m == c) && m <= a && m <= b && m <= c
  {
    if a <= b && a <= c then a else if b <= c then b else c
  }

  /** A colour with components in 0..255 never makes `rgb_to_hls` divide by zero. */
  lemma InRangeConverts(c: Rgb)
    requires InRange(c)
    ensures !HlsDividesByZero(c)
  {
  }

  /**
   * `hex_to_rgb` accepts a signed slice: `#-10100` reads as (-1, 1, 0),
   * whose largest and smallest components cancel, so the conversion to HSL
   * raises and no palette is built.
   */
  lemma SignedBaseDividesByZero()
    ensures HexToRgb("#-10100") == Some(Rgb(-1, 1, 0))
    ensures HlsDividesByZero(Rgb(-1, 1, 0))
  {
    var h := "-10100";
    StripOneHash(h);
    assert "#" + h == "#-10100";
    HexToRgbReads("#-10100");
    SignedSlices();
  }

  /** The three slices of `-10100` read as -1, 1 and 0. */
  lemma SignedSlices()
    ensures Component("-10100", 0) == Some(-1)
    ensures Component("-10100", 2) == Some(1)
    ensures Component("-10100", 4) == Some(0)
  {
    assert Slice2("-10100", 0) == "-1";
    assert Slice2("-10100", 2) == "01";
    assert Slice2("-10100", 4) == "00";
  }

  /**
   * `generate_color_shades` with its floating-point HSL arithmetic given as
   * two parameters: `lighter(rgb, i)` and `darker(rgb, i)` stand for the
   * colour the source computes for shade `100 * i` and `500 + 100 * i`.
   * The result has exactly the keys 100, 200, ..., 900 and keeps the base
   * text, unchanged, under 500; it is None where reading the base raises
   * or where its conversion to HSL divides by zero.
   */
  method GenerateColorShades(base: string, lighter: (Rgb, int) -> Rgb, darker: (Rgb, int) -> Rgb)
    returns (shades: Option<map<int, string>>)
    ensures shades.None? <==> HexToRgb(base).None? || HlsDividesByZero(HexToRgb(base).value)
    ensures shades.Some? ==> shades.value.Keys == ShadesBelow(10)
    ensures shades.Some? ==> shades.value[500] == base
    ensures shades.Some? ==> forall i :: 1 <= i < 5 ==>
      && shades.value[Shade(i)] == RgbToHex(lighter(HexToRgb(base).value, i))
      && shades.value[Shade(5 + i)] == RgbToHex(darker(HexToRgb(base).value, i))
  {
    var parsed := HexToRgb(base);
    if parsed.None? || HlsDividesByZero(parsed.value) {
      return None;
    }
    var palette := Palette(base, parsed.value, lighter, darker);
    shades := Some(palette);
  }
}
