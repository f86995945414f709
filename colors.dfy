/** Values shared by the whole model: RGB triples, Python's error kinds and
    the result wrappers that replace raised exceptions. */
module Colors {

  /** An RGB triple of integers, the `(r, g, b)` tuples of the source.
      No range is imposed here: each operation checks (or fails to check)
      the range itself. */
  datatype Rgb = Rgb(r: int, g: int, b: int)

  /** The exceptions the modelled code raises, with Python's messages. */
  datatype Error =
    | ValueError(msg: string)
    | IndexError(msg: string)
    | ZeroDivisionError(msg: string)

  datatype Option<T> = None | Some(value: T)

  /** A value or the exception raised instead of returning it. */
  datatype Result<T> = Ok(value: T) | Err(error: Error)

  /** The outcome of a validation loop that either falls through or raises. */
  datatype Outcome = Pass | Fail(error: Error)

  /** Python's message for `x / 0` on integers. */
  const DivisionByZero: string := "division by zero"

  /** `pixel[ch]` for a channel index 0, 1 or 2. */
  function Channel(p: Rgb, ch: nat): int
    requires ch < 3
  {
    if ch == 0 then p.r else if ch == 1 then p.g else p.b
  }

  predicate InByte(v: int) {
    0 <= v <= 255
  }

  /** The pixel has every channel in [0, 255]. */
  predicate IsByteRgb(p: Rgb) {
    InByte(p.r) && InByte(p.g) && InByte(p.b)
  }

  /** `sum(pt[ch] for pt in pts)`, accumulated from the first pixel on. */
  function ChannelSum(pts: seq<Rgb>, ch: nat): int
    requires ch < 3
  {
    if pts == [] then 0 else ChannelSum(pts[..|pts| - 1], ch) + Channel(pts[|pts| - 1], ch)
  }

  /** Every pixel of `pts` has channel `ch` within [lo, hi]. */
  predicate ChannelWithin(pts: seq<Rgb>, ch: nat, lo: int, hi: int)
    requires ch < 3
  {
    forall i :: 0 <= i < |pts| ==> lo <= Channel(pts[i], ch) <= hi
  }

  lemma MulMonotone(a: int, b: int, n: nat)
    requires a <= b
    ensures a * n <= b * n
  {
    assert (b - a) * n >= 0;
  }

  /** The sum of a channel over n pixels lies between n times the least and
      n times the greatest value that channel takes. */
  lemma {:induction false} ChannelSumWithin(pts: seq<Rgb>, ch: nat, lo: int, hi: int)
    requires ch < 3
    requires ChannelWithin(pts, ch, lo, hi)
    ensures |pts| * lo <= ChannelSum(pts, ch) <= |pts| * hi
  {
    if pts != [] {
      var init := pts[..|pts| - 1];
      assert ChannelWithin(init, ch, lo, hi) by {
        forall i | 0 <= i < |init| ensures lo <= Channel(init[i], ch) <= hi {
          assert init[i] == pts[i];
        }
      }
      ChannelSumWithin(init, ch, lo, hi);
      assert lo <= Channel(pts[|pts| - 1], ch) <= hi;
      assert |pts| * lo == |init| * lo + lo;
      assert |pts| * hi == |init| * hi + hi;
    }
  }

  /** Summing a channel over n copies of one pixel gives n times its value. */
  lemma {:induction false} ChannelSumConstant(pts: seq<Rgb>, c: Rgb, ch: nat)
    requires ch < 3
    requires forall i :: 0 <= i < |pts| ==> pts[i] == c
    ensures ChannelSum(pts, ch) == |pts| * Channel(c, ch)
  {
    if pts != [] {
      var init := pts[..|pts| - 1];
      ChannelSumConstant(init, c, ch);
      assert |pts| * Channel(c, ch) == |init| * Channel(c, ch) + Channel(c, ch);
    }
  }
}
