/** The limiter: a cubic soft clip and a hard clip, sample by sample and in place. */
module Limiting {
  import opened Audio

  const CUBE_FACTOR: real := 1.0 / 6.75

  function Clamp(x: real, low: real, high: real): real
    requires low <= high
  {
    if x < low then low else if x > high then high else x
  }

  /** The soft clip for a limit of one. */
  function Cubic(scaled: real): real {
    scaled - CUBE_FACTOR * (scaled * scaled * scaled)
  }

  function SoftClip(x: real, limit: real): real
    requires limit > 0.0
  {
    Cubic(Clamp(x / limit, -1.5, 1.5)) * limit
  }

  function HardClip(x: real, limit: real): real
    requires limit > 0.0
  {
    Clamp(x, -limit, limit)
  }

  function Clipped(soft: bool, limit: real, w: Waveform): (r: Waveform)
    requires limit > 0.0
    ensures |r| == |w|
  {
    seq(|w|, i requires 0 <= i < |w| => if soft then SoftClip(w[i], limit) else HardClip(w[i], limit))
  }

  class Limiter {
    var softClip: bool
    var clipLimit: real

    constructor (softClip: bool, clipLimit: real)
      ensures this.softClip == softClip && this.clipLimit == clipLimit
    {
      this.softClip, this.clipLimit := softClip, clipLimit;
    }

    method ApplyClip(input: array<real>)
      requires clipLimit > 0.0
      modifies input
      ensures input[..] == Clipped(softClip, clipLimit, old(input[..]))
    {
      if softClip {
        ApplySoftClip(input);
      } else {
        ApplyHardClip(input);
      }
      ghost var was := old(input[..]);
      assert |input[..]| == |was| && forall i :: 0 <= i < |was| ==> input[i] == Clipped(softClip, clipLimit, was)[i];
    }

    method ApplySoftClip(input: array<real>)
      requires clipLimit > 0.0
      modifies input
      ensures forall i :: 0 <= i < input.Length ==> input[i] == SoftClip(old(input[i]), clipLimit)
    {
      for k := 0 to input.Length
        invariant forall i :: 0 <= i < k ==> input[i] == SoftClip(old(input[i]), clipLimit)
        invariant forall i :: k <= i < input.Length ==> input[i] == old(input[i])
      {
        var scaled := input[k] / clipLimit;
        scaled := Clamp(scaled, -1.5, 1.5);
        scaled := scaled - CUBE_FACTOR * (scaled * scaled * scaled);
        input[k] := scaled * clipLimit;
      }
    }

    method ApplyHardClip(input: array<real>)
      requires clipLimit > 0.0
      modifies input
      ensures forall i :: 0 <= i < input.Length ==> input[i] == HardClip(old(input[i]), clipLimit)
    {
      for k := 0 to input.Length
        invariant forall i :: 0 <= i < k ==> input[i] == HardClip(old(input[i]), clipLimit)
        invariant forall i :: k <= i < input.Length ==> input[i] == old(input[i])
      {
        input[k] := Clamp(input[k], -clipLimit, clipLimit);
      }
    }
  }

  // ---------------------------------------------------------------------------------------------
  // The shape of the curve
  // ---------------------------------------------------------------------------------------------

  /** How far apart two points of the curve are. */
  lemma CubicDifference(u: real, v: real)
    ensures Cubic(v) - Cubic(u) == (v - u) * (1.0 - CUBE_FACTOR * (v * v + u * v + u * u))
  {
  }

  lemma PositiveProduct(a: real, b: real, p: real)
    requires p == a * b
    ensures a > 0.0 && b > 0.0 ==> p > 0.0
    ensures a >= 0.0 && b >= 0.0 ==> p >= 0.0
  {
  }

  lemma SquaresAreSmall(u: real, v: real)
    requires -1.5 <= u < v <= 1.5
    ensures v * v + u * v + u * u < 6.75
  {
    var a, b, c := v * v, u * u, u * v;
    PositiveProduct(1.5 - v, 1.5 + v, 2.25 - a);
    PositiveProduct(1.5 - u, 1.5 + u, 2.25 - b);
    PositiveProduct(v - u, v - u, a - 2.0 * c + b);
  }

  lemma CubicRises(u: real, v: real)
    requires -1.5 <= u < v <= 1.5
    ensures Cubic(u) < Cubic(v)
  {
    CubicDifference(u, v);
    SquaresAreSmall(u, v);
    var slope := 1.0 - CUBE_FACTOR * (v * v + u * v + u * u);
    assert slope > 0.0;
    PositiveProduct(v - u, slope, Cubic(v) - Cubic(u));
  }

  lemma CubicEnds()
    ensures Cubic(1.5) == 1.0 && Cubic(-1.5) == -1.0
  {
  }

  lemma Quotients(x: real, y: real, limit: real)
    requires limit > 0.0
    ensures x <= y <==> x / limit <= y / limit
    ensures x == 1.5 * limit ==> x / limit == 1.5
    ensures x == -1.5 * limit ==> x / limit == -1.5
  {
  }

  /** Louder input never gives quieter output. */
  lemma SoftClipIsMonotone(x: real, y: real, limit: real)
    requires limit > 0.0 && x <= y
    ensures SoftClip(x, limit) <= SoftClip(y, limit)
  {
    Quotients(x, y, limit);
    var u, v := Clamp(x / limit, -1.5, 1.5), Clamp(y / limit, -1.5, 1.5);
    if u < v { CubicRises(u, v); }
    assert (Cubic(v) - Cubic(u)) * limit >= 0.0;
  }

  /** The output stays within the limit, and reaches it exactly for inputs of one and a half times the limit and
      more. */
  lemma SoftClipIsBounded(x: real, limit: real)
    requires limit > 0.0
    ensures -limit <= SoftClip(x, limit) <= limit
    ensures SoftClip(x, limit) == limit <==> x >= 1.5 * limit
    ensures SoftClip(x, limit) == -limit <==> x <= -1.5 * limit
  {
    var high, low := 1.5 * limit, -1.5 * limit;
    Quotients(high, x, limit);
    Quotients(x, low, limit);
    var u := Clamp(x / limit, -1.5, 1.5);
    CubicIsBounded(u);
    Scales(Cubic(u), limit);
  }

  lemma CubicIsBounded(u: real)
    requires -1.5 <= u <= 1.5
    ensures -1.0 <= Cubic(u) <= 1.0 && (Cubic(u) == 1.0 <==> u == 1.5) && (Cubic(u) == -1.0 <==> u == -1.5)
  {
    CubicEnds();
    if u < 1.5 { CubicRises(u, 1.5); }
    if u > -1.5 { CubicRises(-1.5, u); }
  }

  lemma Scales(c: real, limit: real)
    requires limit > 0.0 && -1.0 <= c <= 1.0
    ensures -limit <= c * limit <= limit && (c * limit == limit <==> c == 1.0) && (c * limit == -limit <==> c == -1.0)
  {
    PositiveProduct(1.0 - c, limit, limit - c * limit);
    PositiveProduct(c + 1.0, limit, c * limit + limit);
  }

  /** The curve treats both signs alike. */
  lemma SoftClipIsOdd(x: real, limit: real)
    requires limit > 0.0
    ensures SoftClip(-x, limit) == -SoftClip(x, limit)
  {
    assert (-x) / limit == -(x / limit);
    var u := Clamp(x / limit, -1.5, 1.5);
    assert (-u) * (-u) * (-u) == -(u * u * u);
    assert Cubic(-u) == -Cubic(u);
    assert (-Cubic(u)) * limit == -(Cubic(u) * limit);
  }

  /** Between the two corners the curve is the input less its cube, scaled to meet the limit there. */
  lemma SoftClipCurve(x: real, limit: real)
    requires limit > 0.0 && -1.5 * limit <= x <= 1.5 * limit
    ensures SoftClip(x, limit) * limit * limit == x * limit * limit - x * x * x / 6.75
  {
    var u := x / limit;
    Quotients(x, 1.5 * limit, limit);
    Quotients(-1.5 * limit, x, limit);
    assert x == u * limit;
    assert SoftClip(x, limit) == Cubic(u) * limit;
    CubicTimesCube(u, limit);
  }

  lemma CubicTimesCube(u: real, limit: real)
    ensures Cubic(u) * limit * limit * limit ==
            (u * limit) * limit * limit - (u * limit) * (u * limit) * (u * limit) / 6.75
  {
    var l3 := limit * limit * limit;
    assert Cubic(u) * limit * limit * limit == Cubic(u) * l3;
    assert Cubic(u) * l3 == u * l3 - u * u * u * l3 / 6.75;
    assert (u * limit) * limit * limit == u * l3;
    assert (u * limit) * (u * limit) * (u * limit) == u * u * u * l3;
  }

  /** A hard clip moves a sample no further than it must: no value within the limit is closer to it. */
  lemma HardClipIsNearest(x: real, y: real, limit: real)
    requires limit > 0.0 && Abs(y) <= limit
    ensures Abs(HardClip(x, limit)) <= limit && Abs(HardClip(x, limit) - x) <= Abs(y - x)
    ensures Abs(HardClip(x, limit) - x) == Abs(y - x) ==> y == HardClip(x, limit)
  {
  }

  /** Whatever the clip, the waveform ends up within the limit; clipping hard a second time changes nothing. */
  lemma ClippedStaysWithin(soft: bool, limit: real, w: Waveform)
    requires limit > 0.0
    ensures forall i :: 0 <= i < |w| ==> Abs(Clipped(soft, limit, w)[i]) <= limit
    ensures Clipped(false, limit, Clipped(soft, limit, w)) == Clipped(soft, limit, w)
  {
    forall i | 0 <= i < |w| ensures Abs(Clipped(soft, limit, w)[i]) <= limit {
      SoftClipIsBounded(w[i], limit);
    }
    var once := Clipped(soft, limit, w);
    assert forall i :: 0 <= i < |once| ==> Clipped(false, limit, once)[i] == once[i];
  }
}
