/** The colour-space conversions of pypalette/conversions.py: the hexadecimal
    spelling of an RGB triple and back, the input-range guards every
    conversion starts with, and the black-input fallback of RGB to CMYK.
    Floating-point conversion formulas other than RGB to CMYK are not part
    of this model; their guards are. */
module Conversions {
  import opened Colors

  const RgbRangeMsg: string := "One or more RGB values are outside [0, 255]"
  const CmykRangeMsg: string := "One or more CMYK values are outside [0, 1]"
  const HueRangeMsg: string := "The given H value is outside [0, 360)"
  const SlRangeMsg: string := "The given S and/or L values are outside [0, 1]"
  const SvRangeMsg: string := "The given S and/or V values are outside [0, 1]"

  /** A CMYK quadruplet. */
  datatype Cmyk = Cmyk(c: real, m: real, y: real, k: real)

  // ---------------------------------------------------------------------
  // Range guards
  // ---------------------------------------------------------------------

  /** The validation loop `for value in values: if not lo <= value <= hi:
      raise ValueError(msg)`: it raises exactly when some value is out of
      range. */
  function CheckAll(values: seq<real>, lo: real, hi: real, msg: string): (o: Outcome)
    ensures o.Fail? <==> exists i :: 0 <= i < |values| && !(lo <= values[i] <= hi)
    ensures o.Fail? ==> o.error == ValueError(msg)
  {
    if values == [] then Pass
    else if !(lo <= values[0] <= hi) then Fail(ValueError(msg))
    else
      var rest := CheckAll(values[1..], lo, hi, msg);
      assert rest.Fail? ==> exists i :: 0 <= i < |values| && !(lo <= values[i] <= hi) by {
        if rest.Fail? {
          var i :| 0 <= i < |values[1..]| && !(lo <= values[1..][i] <= hi);
          assert values[i + 1] == values[1..][i];
        }
      }
      assert (exists i :: 0 <= i < |values| && !(lo <= values[i] <= hi)) ==> rest.Fail? by {
        if i :| 0 <= i < |values| && !(lo <= values[i] <= hi) {
          assert i != 0;
          assert values[1..][i - 1] == values[i];
        }
      }
      rest
  }

  /** The guard of rgb2hex, rgb2cmyk, rgb2hsl and rgb2hsv: ValueError exactly
      when some channel lies outside [0, 255]. */
  function CheckRgb(rgb: Rgb): (o: Outcome)
    ensures o.Fail? <==> !IsByteRgb(rgb)
    ensures o.Fail? ==> o.error == ValueError(RgbRangeMsg)
  {
    var o := CheckAll([rgb.r as real, rgb.g as real, rgb.b as real], 0.0, 255.0, RgbRangeMsg);
    assert !IsByteRgb(rgb) ==> o.Fail? by {
      var vs := [rgb.r as real, rgb.g as real, rgb.b as real];
      if !InByte(rgb.r) { assert !(0.0 <= vs[0] <= 255.0); }
      else if !InByte(rgb.g) { assert !(0.0 <= vs[1] <= 255.0); }
      else if !InByte(rgb.b) { assert !(0.0 <= vs[2] <= 255.0); }
    }
    o
  }

  /** The guard of cmyk2rgb: ValueError exactly when some of the four
      components lies outside [0, 1]. */
  function Cmyk2RgbCheck(cmyk: Cmyk): (o: Outcome)
    ensures o.Fail? <==> !(0.0 <= cmyk.c <= 1.0 && 0.0 <= cmyk.m <= 1.0
                           && 0.0 <= cmyk.y <= 1.0 && 0.0 <= cmyk.k <= 1.0)
    ensures o.Fail? ==> o.error == ValueError(CmykRangeMsg)
  {
    var vs := [cmyk.c, cmyk.m, cmyk.y, cmyk.k];
    var o := CheckAll(vs, 0.0, 1.0, CmykRangeMsg);
    assert !(0.0 <= vs[0] <= 1.0 && 0.0 <= vs[1] <= 1.0 && 0.0 <= vs[2] <= 1.0 && 0.0 <= vs[3] <= 1.0)
      ==> o.Fail?;
    o
  }

  /** The common shape of the hsl2rgb and hsv2rgb guards: the hue is checked
      first, as h / 60 in [0, 6), then the two unit-interval components. */
  function CheckHueAnd(hue: real, x: real, y: real, msg: string): (o: Outcome)
    ensures o == Pass <==> 0.0 <= hue < 360.0 && 0.0 <= x <= 1.0 && 0.0 <= y <= 1.0
    ensures !(0.0 <= hue < 360.0) ==> o == Fail(ValueError(HueRangeMsg))
    ensures 0.0 <= hue < 360.0 && !(0.0 <= x <= 1.0 && 0.0 <= y <= 1.0) ==> o == Fail(ValueError(msg))
  {
    var h := hue / 60.0;
    if !(0.0 <= h < 6.0) then Fail(ValueError(HueRangeMsg))
    else if !(0.0 <= x <= 1.0) || !(0.0 <= y <= 1.0) then Fail(ValueError(msg))
    else Pass
  }

  /** The guard of hsl2rgb. */
  function Hsl2RgbCheck(h: real, s: real, l: real): (o: Outcome)
    ensures o == Pass <==> 0.0 <= h < 360.0 && 0.0 <= s <= 1.0 && 0.0 <= l <= 1.0
    ensures !(0.0 <= h < 360.0) ==> o == Fail(ValueError(HueRangeMsg))
    ensures 0.0 <= h < 360.0 && !(0.0 <= s <= 1.0 && 0.0 <= l <= 1.0) ==> o == Fail(ValueError(SlRangeMsg))
  {
    CheckHueAnd(h, s, l, SlRangeMsg)
  }

  /** The guard of hsv2rgb. */
  function Hsv2RgbCheck(h: real, s: real, v: real): (o: Outcome)
    ensures o == Pass <==> 0.0 <= h < 360.0 && 0.0 <= s <= 1.0 && 0.0 <= v <= 1.0
    ensures !(0.0 <= h < 360.0) ==> o == Fail(ValueError(HueRangeMsg))
    ensures 0.0 <= h < 360.0 && !(0.0 <= s <= 1.0 && 0.0 <= v <= 1.0) ==> o == Fail(ValueError(SvRangeMsg))
  {
    CheckHueAnd(h, s, v, SvRangeMsg)
  }

  // ---------------------------------------------------------------------
  // RGB to CMYK
  // ---------------------------------------------------------------------

  function Max3(a: real, b: real, c: real): (m: real)
    ensures m >= a && m >= b && m >= c
    ensures m == a || m == b || m == c
  {
    if a >= b && a >= c then a else if b >= c then b else c
  }

  /** rgb2cmyk in exact arithmetic, before the final rounding: the range
      guard, then k = 1 - max and the three chromatic components, with the
      division by 1 - k = 0 of a black input replaced by (0, 0, 0, 1). */
  function Rgb2Cmyk(rgb: Rgb): (res: Result<Cmyk>)
    ensures res.Err? <==> !IsByteRgb(rgb)
    ensures res.Err? ==> res.error == ValueError(RgbRangeMsg)
    ensures res.Ok? ==> (res.value.k == 1.0 <==> rgb == Rgb(0, 0, 0))
    ensures res.Ok? ==> res.value.k == 1.0 - Max3(rgb.r as real, rgb.g as real, rgb.b as real) / 255.0
  {
    match CheckRgb(rgb)
    case Fail(e) => Err(e)
    case Pass =>
      var r, g, b := rgb.r as real / 255.0, rgb.g as real / 255.0, rgb.b as real / 255.0;
      var k := 1.0 - Max3(r, g, b);
      if 1.0 - k == 0.0 then
        // ZeroDivisionError caught: the fallback for black
        Ok(Cmyk(0.0, 0.0, 0.0, 1.0))
      else
        Ok(Cmyk((1.0 - r - k) / (1.0 - k), (1.0 - g - k) / (1.0 - k), (1.0 - b - k) / (1.0 - k), k))
  }

  /** Black is converted through the fallback branch. */
  lemma Rgb2CmykBlack()
    ensures Rgb2Cmyk(Rgb(0, 0, 0)) == Ok(Cmyk(0.0, 0.0, 0.0, 1.0))
  {
  }

  /** For every in-range input all four CMYK components lie in [0, 1]. */
  lemma Rgb2CmykUnitRange(rgb: Rgb)
    requires IsByteRgb(rgb)
    ensures Rgb2Cmyk(rgb).Ok?
    ensures var q := Rgb2Cmyk(rgb).value;
            0.0 <= q.c <= 1.0 && 0.0 <= q.m <= 1.0 && 0.0 <= q.y <= 1.0 && 0.0 <= q.k <= 1.0
  {
    var r, g, b := rgb.r as real / 255.0, rgb.g as real / 255.0, rgb.b as real / 255.0;
    var mx := Max3(r, g, b);
    if mx != 0.0 {
      var k := 1.0 - mx;
      assert 1.0 - k == mx;
      UnitQuotient(mx - r, mx);
      UnitQuotient(mx - g, mx);
      UnitQuotient(mx - b, mx);
      assert 1.0 - r - k == mx - r;
      assert 1.0 - g - k == mx - g;
      assert 1.0 - b - k == mx - b;
    }
  }

  lemma UnitQuotient(a: real, b: real)
    requires 0.0 <= a <= b && b > 0.0
    ensures 0.0 <= a / b <= 1.0
  {
  }

  // ---------------------------------------------------------------------
  // Hexadecimal spelling
  // ---------------------------------------------------------------------

  /** The lowercase hexadecimal digit of a value below 16. */
  function HexDigit(d: nat): char
    requires d < 16
  {
    if d < 10 then ('0' as int + d) as char else ('a' as int + d - 10) as char
  }

  /** The digits of `hex(n)` for n >= 0: lowercase, no leading zeros. */
  function HexDigits(n: nat): (s: string)
    ensures |s| >= 1
  {
    if n < 16 then [HexDigit(n)] else HexDigits(n / 16) + [HexDigit(n % 16)]
  }

  /** Python's `hex(n)`: "0x" and the digits, with a leading '-' for a
      negative n. */
  function PyHex(n: int): (s: string)
    ensures |s| >= 3
  {
    if n < 0 then "-0x" + HexDigits(-n) else "0x" + HexDigits(n)
  }

  function Zeros(n: nat): (s: string)
    ensures |s| == n && forall i :: 0 <= i < n ==> s[i] == '0'
  {
    seq(n, _ => '0')
  }

  /** Python's `s.zfill(width)`: zeros are inserted on the left, after a
      leading sign, up to `width` characters. */
  function ZFill(s: string, width: nat): (t: string)
    ensures |s| >= width ==> t == s
    ensures |s| < width ==> |t| == width
  {
    if |s| >= width then s
    else if |s| > 0 && (s[0] == '+' || s[0] == '-') then [s[0]] + Zeros(width - |s|) + s[1..]
    else Zeros(width - |s|) + s
  }

  /** The two-digit lowercase hexadecimal spelling of a byte, high digit
      first: the reference the conversions are proved against. */
  function HexPair(v: int): (s: string)
    requires InByte(v)
  {
    [HexDigit(v / 16), HexDigit(v % 16)]
  }

  /** `hex(v)[2:].zfill(2)` spells every byte as its two-digit pair. */
  lemma ZFilledHexIsPair(v: int)
    requires InByte(v)
    ensures ZFill(PyHex(v)[2..], 2) == HexPair(v)
  {
    if v < 16 {
      assert PyHex(v)[2..] == [HexDigit(v)];
      assert HexDigit(0) == '0';
    } else {
      assert HexDigits(v) == HexDigits(v / 16) + [HexDigit(v % 16)];
      assert HexDigits(v / 16) == [HexDigit(v / 16)];
      assert PyHex(v)[2..] == HexDigits(v);
    }
  }

  /** rgb2hex: the range guard, then '#' and two lowercase hexadecimal digits
      per channel. */
  function Rgb2Hex(rgb: Rgb): (res: Result<string>)
    ensures res.Err? <==> !IsByteRgb(rgb)
    ensures res.Err? ==> res.error == ValueError(RgbRangeMsg)
    ensures res.Ok? ==> res.value == "#" + HexPair(rgb.r) + HexPair(rgb.g) + HexPair(rgb.b)
    ensures res.Ok? ==> |res.value| == 7
  {
    match CheckRgb(rgb)
    case Fail(e) => Err(e)
    case Pass =>
      ZFilledHexIsPair(rgb.r);
      ZFilledHexIsPair(rgb.g);
      ZFilledHexIsPair(rgb.b);
      Ok("#" + ZFill(PyHex(rgb.r)[2..], 2) + ZFill(PyHex(rgb.g)[2..], 2) + ZFill(PyHex(rgb.b)[2..], 2))
  }

  /** The test vectors of rgb2hex. */
  lemma Rgb2HexGrey()
    ensures Rgb2Hex(Rgb(128, 128, 128)) == Ok("#808080")
  {
    assert HexPair(128) == "80";
    assert "#" + "80" + "80" + "80" == "#808080";
  }

  lemma Rgb2HexGreen()
    ensures Rgb2Hex(Rgb(89, 216, 114)) == Ok("#59d872")
  {
    assert HexPair(89) == "59";
    assert HexPair(216) == "d8";
    assert HexPair(114) == "72";
    assert "#" + "59" + "d8" + "72" == "#59d872";
  }

  lemma Rgb2HexRejects()
    ensures Rgb2Hex(Rgb(-1, 250, 50)) == Err(ValueError(RgbRangeMsg))
    ensures Rgb2Hex(Rgb(255, 256, 0)) == Err(ValueError(RgbRangeMsg))
  {
  }

  // ---------------------------------------------------------------------
  // Parsing hexadecimal
  // ---------------------------------------------------------------------

  /** Python's slice `s[i:j]` for 0 <= i <= j: bounds past the end are
      clamped to the length. */
  function Slice(s: string, i: nat, j: nat): (t: string)
    requires i <= j
    ensures |t| <= j - i
  {
    var a := if i < |s| then i else |s|;
    var b := if j < |s| then j else |s|;
    s[a..b]
  }

  /** The whitespace `int` skips around an ASCII literal: the space and
      `\t\n\v\f\r`. The separators 0x1C-0x1F, which `str.isspace` accepts,
      are not skipped. */
  predicate IsSpace(c: char) {
    c == ' ' || 9 <= c as int <= 13
  }

  function StripLeft(s: string): (t: string)
    ensures |t| <= |s|
  {
    if |s| > 0 && IsSpace(s[0]) then StripLeft(s[1..]) else s
  }

  function StripRight(s: string): (t: string)
    ensures |t| <= |s|
  {
    if |s| > 0 && IsSpace(s[|s| - 1]) then StripRight(s[..|s| - 1]) else s
  }

  /** The value of one hexadecimal digit, in either case. */
  function HexValue(c: char): (v: Option<nat>)
    ensures v.Some? ==> v.value < 16
  {
    if '0' <= c <= '9' then Some(c as int - '0' as int)
    else if 'a' <= c <= 'f' then Some(c as int - 'a' as int + 10)
    else if 'A' <= c <= 'F' then Some(c as int - 'A' as int + 10)
    else None
  }

  /** A non-empty run of hexadecimal digits, read most significant first. */
  function ParseDigits(s: string): (v: Option<nat>)
  {
    if |s| == 0 then None
    else if |s| == 1 then HexValue(s[0])
    else
      match (ParseDigits(s[..|s| - 1]), HexValue(s[|s| - 1]))
      case (Some(hi), Some(lo)) => Some(hi * 16 + lo)
      case _ => None
  }

  /** One character as `repr` of a string spells it between the quote
      `q`: the quote itself and the backslash are escaped, tab, newline and
      carriage return by name, other ASCII control characters as `\xhh`. */
  function ReprChar(c: char, q: char): (t: string)
    ensures 1 <= |t| <= 4
  {
    if c == q || c == '\\' then ['\\', c]
    else if c == '\t' then "\\t"
    else if c == '\n' then "\\n"
    else if c == '\r' then "\\r"
    else if c as int < 32 || c as int == 127 then
      "\\x" + [HexDigit(c as int / 16), HexDigit(c as int % 16)]
    else [c]
  }

  function ReprBody(s: string, q: char): string {
    if s == [] then [] else ReprChar(s[0], q) + ReprBody(s[1..], q)
  }

  /** `repr` of a string: single quotes, unless the string holds a single
      quote and no double quote. */
  function Repr(s: string): (t: string)
    ensures |t| >= 2 && t[0] == t[|t| - 1] && t[0] in "'\""
  {
    var q := if '\'' in s && '"' !in s then '"' else '\'';
    [q] + ReprBody(s, q) + [q]
  }

  /** The message of the ValueError raised by `int(s, 16)`, which quotes the
      literal with `%.200R`; a slice of hex2rgb is far below 200 characters. */
  function InvalidLiteral(s: string): string {
    "invalid literal for int() with base 16: " + Repr(s)
  }

  /** `int(s, 16)` on the slices of at most two characters that hex2rgb
      reads: surrounding whitespace, an optional sign, then at least one
      hexadecimal digit. Longer strings may also carry a `0x` prefix in
      Python, which this function does not accept; a two-character slice
      has no room for the prefix and a digit, and "0x" alone is rejected by
      both. */
  function ParseInt16(s: string): (res: Result<int>)
  {
    var t := StripRight(StripLeft(s));
    var signed := |t| > 0 && (t[0] == '+' || t[0] == '-');
    var digits := if signed then t[1..] else t;
    match ParseDigits(digits)
    case None => Err(ValueError(InvalidLiteral(s)))
    case Some(v) => Ok(if signed && t[0] == '-' then -(v as int) else v)
  }

  /** `int` skips a tab around a literal. */
  lemma ParseInt16SkipsTab()
    ensures ParseInt16("\t1") == Ok(1)
  {
    assert StripLeft("\t1") == "1";
    assert StripRight("1") == "1";
  }

  /** `int` does not skip the separator 0x1C, although `str.isspace`
      accepts it; the message spells it as `repr` does. */
  lemma ParseInt16Separator()
    ensures ParseInt16([28 as char, '1']) ==
              Err(ValueError("invalid literal for int() with base 16: '\\x1c1'"))
  {
    var sep := [28 as char, '1'];
    assert StripLeft(sep) == sep;
    assert StripRight(sep) == sep;
    assert ParseDigits(sep) == None by {
      assert sep[..1] == [28 as char];
    }
    assert ReprBody(sep, '\'') == "\\x1c1" by {
      assert HexDigit(1) == '1' && HexDigit(12) == 'c';
      assert ReprChar(28 as char, '\'') == "\\x1c";
      assert ReprBody(sep[1..], '\'') == "1";
    }
    assert '\'' !in sep;
    assert Repr(sep) == "'\\x1c1'";
    assert InvalidLiteral(sep) == "invalid literal for int() with base 16: '\\x1c1'";
  }

  /** A literal holding a single quote is quoted with double quotes. */
  lemma ParseInt16Quote()
    ensures ParseInt16("'1") ==
              Err(ValueError("invalid literal for int() with base 16: \"'1\""))
  {
    assert ParseDigits("'1") == None by {
      assert "'1"[..1] == "'";
    }
    assert ReprBody("'1", '"') == "'1" by {
      assert "'1"[1..] == "1";
    }
    assert '\'' in "'1" && '"' !in "'1";
    assert Repr("'1") == "\"'1\"";
    assert InvalidLiteral("'1") == "invalid literal for int() with base 16: \"'1\"";
  }

  /** At most two characters hold at most two digits: `int` of a two-character
      slice lies in [-15, 255]. */
  lemma ParseInt16Short(s: string)
    requires |s| <= 2
    ensures ParseInt16(s).Ok? ==> -15 <= ParseInt16(s).value <= 255
  {
    var t := StripRight(StripLeft(s));
    var signed := |t| > 0 && (t[0] == '+' || t[0] == '-');
    var digits := if signed then t[1..] else t;
    if ParseDigits(digits).Some? {
      if |digits| == 2 {
        assert !signed;
        assert ParseDigits(digits[..1]).Some? && ParseDigits(digits[..1]).value < 16;
      } else {
        assert |digits| == 1;
      }
    }
  }

  /** The first of three parses that fails, or the triple they give. */
  function Triple(r: Result<int>, g: Result<int>, b: Result<int>): Result<Rgb> {
    if r.Err? then Err(r.error)
    else if g.Err? then Err(g.error)
    else if b.Err? then Err(b.error)
    else Ok(Rgb(r.value, g.value, b.value))
  }

  /** hex2rgb: skip a leading '#', then read three two-character slices with
      `int(_, 16)`. An empty string fails on `hx[0]`. */
  function Hex2Rgb(hx: string): (res: Result<Rgb>)
    ensures hx == [] ==> res == Err(IndexError("string index out of range"))
    ensures res.Ok? ==> -15 <= res.value.r <= 255 && -15 <= res.value.g <= 255
                        && -15 <= res.value.b <= 255
  {
    if |hx| == 0 then Err(IndexError("string index out of range"))
    else
      var o := if hx[0] == '#' then 1 else 0;
      ParseInt16Short(Slice(hx, o, o + 2));
      ParseInt16Short(Slice(hx, o + 2, o + 4));
      ParseInt16Short(Slice(hx, o + 4, o + 6));
      Triple(ParseInt16(Slice(hx, o, o + 2)), ParseInt16(Slice(hx, o + 2, o + 4)),
             ParseInt16(Slice(hx, o + 4, o + 6)))
  }

  lemma ParseHexPair(v: int)
    requires InByte(v)
    ensures ParseInt16(HexPair(v)) == Ok(v)
  {
    var p := HexPair(v);
    assert StripLeft(p) == p;
    assert StripRight(p) == p;
    assert p[..1] == [HexDigit(v / 16)];
    assert ParseDigits(p) == Some((v / 16) * 16 + v % 16);
  }

  /** Reading back the spelling of an in-range triple gives the triple. */
  lemma {:induction false} Hex2RgbRoundTrip(rgb: Rgb)
    requires IsByteRgb(rgb)
    ensures Rgb2Hex(rgb).Ok?
    ensures Hex2Rgb(Rgb2Hex(rgb).value) == Ok(rgb)
  {
    var hx := Rgb2Hex(rgb).value;
    assert hx[0] == '#';
    assert Slice(hx, 1, 3) == HexPair(rgb.r);
    assert Slice(hx, 3, 5) == HexPair(rgb.g);
    assert Slice(hx, 5, 7) == HexPair(rgb.b);
    ParseHexPair(rgb.r);
    ParseHexPair(rgb.g);
    ParseHexPair(rgb.b);
  }

  /** A leading '#' makes no difference to what hex2rgb returns, for a
      non-empty string that does not start with '#' already: "" fails on
      `hx[0]` but "#" on `int('', 16)`, and a second '#' is read as a digit. */
  lemma {:induction false} Hex2RgbHashOptional(s: string)
    requires |s| > 0 && s[0] != '#'
    ensures Hex2Rgb("#" + s) == Hex2Rgb(s)
  {
    var hs := "#" + s;
    forall i: nat, j: nat | i <= j ensures Slice(hs, i + 1, j + 1) == Slice(s, i, j) {
      var a := if i < |s| then i else |s|;
      var b := if j < |s| then j else |s|;
      assert hs[a + 1..b + 1] == s[a..b];
    }
    assert Slice(hs, 1, 3) == Slice(s, 0, 2);
    assert Slice(hs, 3, 5) == Slice(s, 2, 4);
    assert Slice(hs, 5, 7) == Slice(s, 4, 6);
  }

  /** A leading separator 0x1C makes the first slice an invalid literal. */
  lemma Hex2RgbSeparator()
    ensures Hex2Rgb([28 as char] + "1ffff") ==
              Err(ValueError("invalid literal for int() with base 16: '\\x1c1'"))
  {
    var hx := [28 as char] + "1ffff";
    assert Slice(hx, 0, 2) == [28 as char, '1'];
    ParseInt16Separator();
  }

  /** The test vector of hex2rgb, without '#'. */
  lemma Hex2RgbExample()
    ensures Hex2Rgb("b155d2") == Ok(Rgb(177, 85, 210))
  {
    var hx := "b155d2";
    assert Slice(hx, 0, 2) == HexPair(177);
    assert Slice(hx, 2, 4) == HexPair(85);
    assert Slice(hx, 4, 6) == HexPair(210);
    ParseHexPair(177);
    ParseHexPair(85);
    ParseHexPair(210);
  }

  /** The same test vector with '#'. */
  lemma Hex2RgbHashExample()
    ensures Hex2Rgb("#b155d2") == Ok(Rgb(177, 85, 210))
  {
    Hex2RgbExample();
    Hex2RgbHashOptional("b155d2");
    assert "#" + "b155d2" == "#b155d2";
  }
}
