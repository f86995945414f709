/** The helpers of pypalette/pypalette.py that the model covers: the
    average colour of a pixel list, the hexadecimal spelling without '#',
    and RGB to CMYK without the black-input fallback. */
module PyPalette {
  import opened Colors
  import Conversions

  /** Python's message for a float divided by zero. */
  const FloatDivisionByZero: string := "float division by zero"

  /** The mean of channel `ch` over the pixels, as `sum / len` gives it. */
  function ChannelMean(rgb: seq<Rgb>, ch: nat): real
    requires ch < 3 && |rgb| > 0
  {
    ChannelSum(rgb, ch) as real / |rgb| as real
  }

  /** A channel's mean lies between the least and the greatest value the
      channel takes. */
  lemma ChannelMeanWithin(rgb: seq<Rgb>, ch: nat, lo: int, hi: int)
    requires ch < 3 && |rgb| > 0
    requires ChannelWithin(rgb, ch, lo, hi)
    ensures lo as real <= ChannelMean(rgb, ch) <= hi as real
  {
    ChannelSumWithin(rgb, ch, lo, hi);
    var n := |rgb| as real;
    var s := ChannelSum(rgb, ch) as real;
    CastProduct(lo, |rgb|);
    CastProduct(hi, |rgb|);
    QuotientWithin(s, n, lo as real, hi as real);
  }

  lemma {:induction false} CastProduct(a: int, n: nat)
    ensures (n * a) as real == n as real * a as real
  {
    if n > 0 {
      CastProduct(a, n - 1);
      assert n * a == (n - 1) * a + a;
    }
  }

  lemma QuotientWithin(s: real, n: real, lo: real, hi: real)
    requires n > 0.0 && n * lo <= s <= n * hi
    ensures lo <= s / n <= hi
  {
  }

  /** average_color as written: the channel sums are accumulated pixel by
      pixel, then divided by the pixel count, and the second and third
      components are taken from the blue and the green sums. An empty list
      divides by zero. */
  method AverageColor(rgb: seq<Rgb>) returns (res: Result<(real, real, real)>)
    ensures res.Err? <==> rgb == []
    ensures res.Err? ==> res.error == ZeroDivisionError(DivisionByZero)
    ensures res.Ok? ==> res.value == (ChannelMean(rgb, 0), ChannelMean(rgb, 2), ChannelMean(rgb, 1))
  {
    var rSum, gSum, bSum := 0, 0, 0;
    for i := 0 to |rgb|
      invariant rSum == ChannelSum(rgb[..i], 0)
      invariant gSum == ChannelSum(rgb[..i], 1)
      invariant bSum == ChannelSum(rgb[..i], 2)
    {
      assert rgb[..i + 1][..i] == rgb[..i];
      rSum := rSum + rgb[i].r;
      gSum := gSum + rgb[i].g;
      bSum := bSum + rgb[i].b;
    }
    assert rgb[..|rgb|] == rgb;
    if |rgb| == 0 {
      return Err(ZeroDivisionError(DivisionByZero));
    }
    var n := |rgb| as real;
    var rAvg := rSum as real / n;
    var gAvg := bSum as real / n;
    var bAvg := gSum as real / n;
    return Ok((rAvg, gAvg, bAvg));
  }

  /** The Fibonacci pixels of the test suite. */
  const Fibonacci: seq<Rgb> := [Rgb(0, 1, 1), Rgb(2, 3, 5), Rgb(8, 13, 21), Rgb(34, 55, 89)]

  lemma FibonacciMeans()
    ensures ChannelMean(Fibonacci, 0) == 11.0
    ensures ChannelMean(Fibonacci, 1) == 18.0
    ensures ChannelMean(Fibonacci, 2) == 29.0
  {
    var f := Fibonacci;
    forall ch | 0 <= ch < 3
      ensures ChannelSum(f, ch) == Channel(f[0], ch) + Channel(f[1], ch) + Channel(f[2], ch) + Channel(f[3], ch)
    {
      assert f[..1][..0] == [];
      assert ChannelSum(f[..1], ch) == Channel(f[0], ch);
      assert f[..2][..1] == f[..1];
      assert ChannelSum(f[..2], ch) == ChannelSum(f[..1], ch) + Channel(f[1], ch);
      assert f[..3][..2] == f[..2];
      assert ChannelSum(f[..3], ch) == ChannelSum(f[..2], ch) + Channel(f[2], ch);
    }
    assert ChannelSum(f, 0) == 44;
    assert ChannelSum(f, 1) == 72;
    assert ChannelSum(f, 2) == 116;
  }

  /** On the Fibonacci pixels average_color returns (11, 29, 18), where the
      test suite expects (11, 18, 29). */
  lemma AverageColorFibonacci()
    ensures (ChannelMean(Fibonacci, 0), ChannelMean(Fibonacci, 2), ChannelMean(Fibonacci, 1))
            == (11.0, 29.0, 18.0)
    ensures (ChannelMean(Fibonacci, 0), ChannelMean(Fibonacci, 2), ChannelMean(Fibonacci, 1))
            != (11.0, 18.0, 29.0)
  {
    FibonacciMeans();
  }

  /** average_color as evidently intended: component i is the mean of
      channel i, so each component stays within the range of its own
      channel. */
  function IntendedAverageColor(rgb: seq<Rgb>): (res: Result<(real, real, real)>)
    ensures res.Err? <==> rgb == []
    ensures res.Err? ==> res.error == ZeroDivisionError(DivisionByZero)
    ensures res.Ok? && (forall i :: 0 <= i < |rgb| ==> IsByteRgb(rgb[i])) ==>
              0.0 <= res.value.0 <= 255.0 && 0.0 <= res.value.1 <= 255.0 && 0.0 <= res.value.2 <= 255.0
    ensures res.Ok? ==> forall lo: int, hi: int :: ChannelWithin(rgb, 0, lo, hi) ==> lo as real <= res.value.0 <= hi as real
    ensures res.Ok? ==> forall lo: int, hi: int :: ChannelWithin(rgb, 1, lo, hi) ==> lo as real <= res.value.1 <= hi as real
    ensures res.Ok? ==> forall lo: int, hi: int :: ChannelWithin(rgb, 2, lo, hi) ==> lo as real <= res.value.2 <= hi as real
  {
    if rgb == [] then Err(ZeroDivisionError(DivisionByZero))
    else
      ByteMeansWithin(rgb);
      MeansWithinBands(rgb);
      Ok((ChannelMean(rgb, 0), ChannelMean(rgb, 1), ChannelMean(rgb, 2)))
  }

  lemma ByteMeansWithin(rgb: seq<Rgb>)
    requires |rgb| > 0
    ensures (forall i :: 0 <= i < |rgb| ==> IsByteRgb(rgb[i])) ==>
              0.0 <= ChannelMean(rgb, 0) <= 255.0 && 0.0 <= ChannelMean(rgb, 1) <= 255.0
              && 0.0 <= ChannelMean(rgb, 2) <= 255.0
  {
    if forall i :: 0 <= i < |rgb| ==> IsByteRgb(rgb[i]) {
      ChannelMeanWithin(rgb, 0, 0, 255);
      ChannelMeanWithin(rgb, 1, 0, 255);
      ChannelMeanWithin(rgb, 2, 0, 255);
    }
  }

  /** Each channel's mean lies within every band that holds that channel
      of every pixel. */
  lemma MeansWithinBands(rgb: seq<Rgb>)
    requires |rgb| > 0
    ensures forall ch: nat, lo: int, hi: int :: ch < 3 && ChannelWithin(rgb, ch, lo, hi) ==>
              lo as real <= ChannelMean(rgb, ch) <= hi as real
  {
    forall ch: nat, lo: int, hi: int | ch < 3 && ChannelWithin(rgb, ch, lo, hi)
      ensures lo as real <= ChannelMean(rgb, ch) <= hi as real
    {
      ChannelMeanWithin(rgb, ch, lo, hi);
    }
  }

  /** The corrected average gives the value the test suite expects. */
  lemma IntendedAverageColorFibonacci()
    ensures IntendedAverageColor(Fibonacci) == Ok((11.0, 18.0, 29.0))
  {
    FibonacciMeans();
  }

  /** rgb2hex without '#' and without a range check: `hex(v)[2:]` padded to
      two characters, for each channel. For in-range channels this is the
      spelling of conversions.rgb2hex without its '#'. */
  function Rgb2Hex(r: int, g: int, b: int): (s: string)
    ensures InByte(r) && InByte(g) && InByte(b) ==>
              |s| == 6 && Conversions.Rgb2Hex(Rgb(r, g, b)) == Ok("#" + s)
  {
    BareHexIsPairs(r, g, b);
    Conversions.ZFill(Conversions.PyHex(r)[2..], 2) + Conversions.ZFill(Conversions.PyHex(g)[2..], 2)
    + Conversions.ZFill(Conversions.PyHex(b)[2..], 2)
  }

  lemma BareHexIsPairs(r: int, g: int, b: int)
    ensures InByte(r) && InByte(g) && InByte(b) ==>
              var s := Conversions.ZFill(Conversions.PyHex(r)[2..], 2) + Conversions.ZFill(Conversions.PyHex(g)[2..], 2)
                       + Conversions.ZFill(Conversions.PyHex(b)[2..], 2);
              |s| == 6 && Conversions.Rgb2Hex(Rgb(r, g, b)) == Ok("#" + s)
  {
    if InByte(r) && InByte(g) && InByte(b) {
      Conversions.ZFilledHexIsPair(r);
      Conversions.ZFilledHexIsPair(g);
      Conversions.ZFilledHexIsPair(b);
      var s := Conversions.HexPair(r) + Conversions.HexPair(g) + Conversions.HexPair(b);
      assert "#" + s == "#" + Conversions.HexPair(r) + Conversions.HexPair(g) + Conversions.HexPair(b);
    }
  }

  /** Out-of-range channels are spelled rather than rejected: 256 becomes
      "100", and -1 becomes "x1" (`hex(-1)` is "-0x1"). */
  lemma Rgb2HexUnchecked()
    ensures Rgb2Hex(256, 0, 0) == "1000000"
    ensures Rgb2Hex(-1, 0, 0) == "x10000"
  {
    assert Conversions.HexDigits(256) == Conversions.HexDigits(16) + ['0'];
    assert Conversions.HexDigits(16) == "10";
    assert Conversions.PyHex(256)[2..] == "100";
    assert Conversions.PyHex(-1)[2..] == "x1";
    assert Conversions.PyHex(0)[2..] == "0";
  }

  /** rgb2cmyk in exact arithmetic: no range check and no guard around the
      division by 1 - k, which is zero exactly when the largest channel is
      zero (black, or black with negative channels). */
  function Rgb2Cmyk(r: int, g: int, b: int): (res: Result<Conversions.Cmyk>)
    ensures res.Err? <==> Conversions.Max3(r as real, g as real, b as real) == 0.0
    ensures res.Err? ==> res.error == ZeroDivisionError(FloatDivisionByZero)
  {
    var rp, gp, bp := r as real / 255.0, g as real / 255.0, b as real / 255.0;
    var k := 1.0 - Conversions.Max3(rp, gp, bp);
    if 1.0 - k == 0.0 then Err(ZeroDivisionError(FloatDivisionByZero))
    else Ok(Conversions.Cmyk((1.0 - rp - k) / (1.0 - k), (1.0 - gp - k) / (1.0 - k), (1.0 - bp - k) / (1.0 - k), k))
  }

  /** Black divides by zero here, where conversions.rgb2cmyk falls back to
      (0, 0, 0, 1). */
  lemma Rgb2CmykBlack()
    ensures Rgb2Cmyk(0, 0, 0) == Err(ZeroDivisionError(FloatDivisionByZero))
    ensures Conversions.Rgb2Cmyk(Rgb(0, 0, 0)) == Ok(Conversions.Cmyk(0.0, 0.0, 0.0, 1.0))
  {
  }

  /** On every other in-range triple the two rgb2cmyk functions compute the
      same quadruplet (before rounding). */
  lemma Rgb2CmykAgrees(rgb: Rgb)
    requires IsByteRgb(rgb) && rgb != Rgb(0, 0, 0)
    ensures Rgb2Cmyk(rgb.r, rgb.g, rgb.b) == Conversions.Rgb2Cmyk(rgb)
  {
  }
}
