/** Delays that are not a whole number of samples: the rest is left to a Thiran allpass filter. */
module Subsample {
  import opened Audio

  datatype Coefficients = Coefficients(a1: real, a2: real, b0: real, b1: real, b2: real)

  /** The stability triangle of a second order section. */
  predicate IsStable(c: Coefficients) { Abs(c.a2) < 1.0 && Abs(c.a1) < c.a2 + 1.0 }

  /** Whole samples to queue, and the filter for the rest. */
  function BuildSubsampleBiquad(delay: real): (nat, Option<Coefficients>)
    requires delay >= 0.0
  {
    if delay < 0.1 then (0, None)
    else if delay < 1.1 then
      var coeff := (1.0 - delay) / (1.0 + delay);
      (0, Some(Coefficients(coeff, 0.0, coeff, 1.0, 0.0)))
    else
      var (samples, fraction) := Parted(delay);
      (samples, Some(SecondOrder(fraction)))
  }

  /** A delay is cut so that 1.1 to 2.1 samples are left for the filter. */
  function Parted(delay: real): (r: (nat, real))
    requires delay >= 1.1
    ensures r.0 as real + r.1 == delay && 1.1 <= r.1 < 2.1
  {
    var samples := delay.Floor - 1;
    var fraction := delay - delay.Floor as real + 1.0;
    if fraction < 1.1 then (samples - 1, fraction + 1.0) else (samples, fraction)
  }

  function SecondOrder(fraction: real): Coefficients
    requires fraction >= 0.0
  {
    var coeff1 := 2.0 * (2.0 - fraction) / (1.0 + fraction);
    var coeff2 := (2.0 - fraction) / (2.0 + fraction) * (1.0 - fraction) / (1.0 + fraction);
    Coefficients(coeff1, coeff2, coeff2, coeff1, 1.0)
  }

  /** A delay rounded to whole samples. */
  function Rounded(delay: real): (r: nat)
    requires delay >= 0.0
    ensures -0.5 < r as real - delay <= 0.5
  {
    (delay + 0.5).Floor
  }

  /** Queue length and filter of a delay filter. */
  function Parts(delay: real, subsample: bool): (nat, Option<Coefficients>)
    requires delay >= 0.0
  {
    if subsample then BuildSubsampleBiquad(delay) else (Rounded(delay), None)
  }

  // ---------------------------------------------------------------------------------------------
  // The filter
  // ---------------------------------------------------------------------------------------------

  datatype Memory = Memory(s1: real, s2: real)

  function Step(c: Coefficients, m: Memory, input: real): (Memory, real) {
    var out := m.s1 + c.b0 * input;
    (Memory(m.s2 + c.b1 * input - c.a1 * out, c.b2 * input - c.a2 * out), out)
  }

  /** The numerator is the denominator read backwards, so all frequencies pass with the same gain. */
  predicate Mirrored(c: Coefficients) {
    (c.b0 == c.a2 && c.b1 == c.a1 && c.b2 == 1.0) || (c.b0 == c.a1 && c.b1 == 1.0 && c.a2 == 0.0 && c.b2 == 0.0)
  }

  /** Group delay at frequency zero, in samples: minus the derivative of the phase, which for the quotient of two
      polynomials is the difference of their weighted coefficient sums. */
  ghost function GroupDelay(c: Coefficients): real
    requires 1.0 + c.a1 + c.a2 != 0.0 && c.b0 + c.b1 + c.b2 != 0.0
  {
    (c.b1 + 2.0 * c.b2) / (c.b0 + c.b1 + c.b2) - (c.a1 + 2.0 * c.a2) / (1.0 + c.a1 + c.a2)
  }

  predicate UnityGain(c: Coefficients) { c.b0 + c.b1 + c.b2 == 1.0 + c.a1 + c.a2 }

  lemma Quotient(p: real, q: real, x: real)
    requires q > 0.0 && p == x * q
    ensures p / q == x
  {
  }

  lemma SecondOrderSums(f: real)
    requires f > 1.0
    ensures var c := SecondOrder(f);
            var d := (1.0 + f) * (2.0 + f);
            && d > 0.0
            && (1.0 + c.a1 + c.a2) * d == 12.0
            && (1.0 - c.a2) * d == 6.0 * f
            && (1.0 + c.a2) * d == 4.0 + 2.0 * f * f
            && (1.0 + c.a2 - c.a1) * d == 4.0 * f * f - 4.0
  {
  }

  lemma PositiveFactor(x: real, d: real, p: real)
    requires d > 0.0 && x * d == p && p > 0.0
    ensures x > 0.0
  {
  }

  lemma SecondOrderSigns(f: real)
    requires f > 1.0
    ensures var c := SecondOrder(f);
            1.0 + c.a1 + c.a2 > 0.0 && 1.0 - c.a2 > 0.0 && 1.0 + c.a2 > 0.0 && 1.0 + c.a2 - c.a1 > 0.0
  {
    SecondOrderSums(f);
    var c, d := SecondOrder(f), (1.0 + f) * (2.0 + f);
    assert f * f > 1.0;
    var (sum, minus, plus, diff) := (1.0 + c.a1 + c.a2, 1.0 - c.a2, 1.0 + c.a2, 1.0 + c.a2 - c.a1);
    PositiveFactor(sum, d, 12.0);
    PositiveFactor(minus, d, 6.0 * f);
    PositiveFactor(plus, d, 4.0 + 2.0 * f * f);
    PositiveFactor(diff, d, 4.0 * f * f - 4.0);
  }

  lemma SameProduct(x: real, y: real, d: real)
    requires d > 0.0 && x * d == y * d
    ensures x == y
  {
  }

  lemma SecondOrderIsExact(f: real)
    requires f > 1.0
    ensures var c := SecondOrder(f);
            Mirrored(c) && UnityGain(c) && IsStable(c) && 1.0 + c.a1 + c.a2 > 0.0 && GroupDelay(c) == f
  {
    SecondOrderSums(f);
    SecondOrderSigns(f);
    var c, d := SecondOrder(f), (1.0 + f) * (2.0 + f);
    var sum, minus := 1.0 + c.a1 + c.a2, 1.0 - c.a2;
    assert 2.0 * minus == f * sum by {
      assert 2.0 * minus * d == 12.0 * f;
      assert f * sum * d == f * (sum * d);
      SameProduct(2.0 * minus, f * sum, d);
    }
    Quotient(2.0 * minus, sum, f);
    assert GroupDelay(c) == 2.0 * minus / sum;
  }

  lemma FirstOrderIsExact(d: real)
    requires d > 0.0
    ensures var coeff := (1.0 - d) / (1.0 + d);
            var c := Coefficients(coeff, 0.0, coeff, 1.0, 0.0);
            Mirrored(c) && UnityGain(c) && IsStable(c) && 1.0 + c.a1 + c.a2 > 0.0 && GroupDelay(c) == d
  {
  }

  /** Requests of a tenth of a sample and more are met exactly: whole samples plus the group delay of the filter make
      up the request, and the filter is a stable allpass. */
  lemma SubsampleDelayIsExact(delay: real)
    requires delay >= 0.1
    ensures var (samples, filter) := BuildSubsampleBiquad(delay);
            && filter.Some? && Mirrored(filter.value) && UnityGain(filter.value) && IsStable(filter.value)
            && 1.0 + filter.value.a1 + filter.value.a2 > 0.0
            && samples as real + GroupDelay(filter.value) == delay
  {
    if delay < 1.1 {
      FirstOrderIsExact(delay);
    } else {
      SecondOrderIsExact(Parted(delay).1);
    }
  }

  lemma PartsAddUp(delay: real, samples: nat, c: Coefficients)
    requires delay >= 0.1 && BuildSubsampleBiquad(delay) == (samples, Some(c))
    ensures UnityGain(c) && 1.0 + c.a1 + c.a2 > 0.0 && samples as real + GroupDelay(c) == delay
  {
    SubsampleDelayIsExact(delay);
  }

  ghost function TotalDelay(parts: (nat, Option<Coefficients>)): real
    requires parts.1.Some? ==> UnityGain(parts.1.value) && 1.0 + parts.1.value.a1 + parts.1.value.a2 > 0.0
  {
    parts.0 as real + match parts.1 case Some(c) => GroupDelay(c) case None => 0.0
  }

  /** A request is met exactly if and only if it is not one of those below a tenth of a sample, which are dropped. */
  lemma SubsampleDelayIsExactIff(delay: real)
    requires delay >= 0.0
    ensures var parts := BuildSubsampleBiquad(delay);
            && (parts.1.Some? ==> UnityGain(parts.1.value) && 1.0 + parts.1.value.a1 + parts.1.value.a2 > 0.0)
            && (TotalDelay(parts) == delay <==> !(0.0 < delay < 0.1))
  {
    if delay >= 0.1 { SubsampleDelayIsExact(delay); }
  }

  /** Without the flag a delay is the nearest whole number of samples. With it a delay of less than a tenth of a sample
      is
      dropped, and any other is met exactly by the queue and a stable allpass. */
  lemma PartsMeetTheRequest(delay: real, subsample: bool)
    requires delay >= 0.0
    ensures var (samples, filter) := Parts(delay, subsample);
            if !subsample then filter.None? && -0.5 < samples as real - delay <= 0.5
            else if delay < 0.1 then filter.None? && samples == 0
            else
              filter.Some? && Mirrored(filter.value) && UnityGain(filter.value) && IsStable(filter.value) &&
              1.0 + filter.value.a1 + filter.value.a2 > 0.0 &&
              samples as real + GroupDelay(filter.value) == delay
  {
    if delay >= 0.1 { SubsampleDelayIsExact(delay); }
  }

  // ---------------------------------------------------------------------------------------------
  // What the group delay means for a signal
  // ---------------------------------------------------------------------------------------------

  /** The memory of a filter that has been fed a straight line forever, with `x` coming next. */
  ghost predicate OnLine(c: Coefficients, m: Memory, x: real, slope: real, late: real) {
    && m.s1 == (x - late) - c.b0 * x
    && m.s2 == c.b2 * (x - slope) - c.a2 * (x - slope - late)
  }

  /** Both sides of the balance between the two ends of the filter. */
  lemma Balance(c: Coefficients, x: real, slope: real, late: real)
    requires UnityGain(c)
    requires late * (1.0 + c.a1 + c.a2) == slope * ((c.b1 + 2.0 * c.b2) - (c.a1 + 2.0 * c.a2))
    ensures c.b2 * (x - slope) - c.a2 * (x - slope - late) + c.b1 * x - c.a1 * (x - late) ==
            (x + slope - late) - c.b0 * (x + slope)
  {
  }

  /** A straight line comes out as the same line, late by the group delay, sample after sample. */
  lemma LineIsDelayed(c: Coefficients, m: Memory, x: real, slope: real)
    requires UnityGain(c) && 1.0 + c.a1 + c.a2 > 0.0
    requires OnLine(c, m, x, slope, slope * GroupDelay(c))
    ensures Step(c, m, x).1 == x - slope * GroupDelay(c)
    ensures OnLine(c, Step(c, m, x).0, x + slope, slope, slope * GroupDelay(c))
  {
    LateBy(c, slope);
    LineStep(c, m, x, slope, slope * GroupDelay(c));
  }

  lemma LineStep(c: Coefficients, m: Memory, x: real, slope: real, late: real)
    requires UnityGain(c)
    requires late * (1.0 + c.a1 + c.a2) == slope * ((c.b1 + 2.0 * c.b2) - (c.a1 + 2.0 * c.a2))
    requires OnLine(c, m, x, slope, late)
    ensures Step(c, m, x).1 == x - late
    ensures OnLine(c, Step(c, m, x).0, x + slope, slope, late)
  {
    Balance(c, x, slope, late);
    assert Step(c, m, x).1 == x - late;
    assert Step(c, m, x).0.s1 == m.s2 + c.b1 * x - c.a1 * (x - late);
    assert x + slope - slope == x && x + slope - slope - late == x - late;
  }

  lemma LateBy(c: Coefficients, slope: real)
    requires UnityGain(c) && 1.0 + c.a1 + c.a2 > 0.0
    ensures slope * GroupDelay(c) * (1.0 + c.a1 + c.a2) == slope * ((c.b1 + 2.0 * c.b2) - (c.a1 + 2.0 * c.a2))
  {
    var sum, g := 1.0 + c.a1 + c.a2, GroupDelay(c);
    assert g * sum == (c.b1 + 2.0 * c.b2) - (c.a1 + 2.0 * c.a2);
    assert slope * g * sum == slope * (g * sum);
  }
}
