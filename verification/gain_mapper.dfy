/**
 The gain mapper: the configuration of the edge enhancer and the three
 integer coefficients (each scaled by 256) of its piecewise-linear gain
 curve, derived once from the configuration.
 */
module GainMapper {

  /** The integer configuration: both thresholds, the edge gain (x256) and the clamp on the enhanced delta. */
  datatype Config = Config(
    flatThreshold: int,
    edgeThreshold: int,
    edgeGain: int,
    deltaThreshold: int)
  {
    /**
     Non-negative values and an edge threshold strictly above the flat
     threshold, so that the ramp denominator is a positive integer.
     */
    predicate Valid() {
      && 0 <= flatThreshold < edgeThreshold
      && 0 <= edgeGain
      && 0 <= deltaThreshold
    }

    /** Width of the middle band: `threshold_delta`. */
    function Span(): (d: int)
      requires Valid()
      ensures d >= 1
    {
      edgeThreshold - flatThreshold
    }
  }

  /** The configuration the constructor hard-codes. */
  const DefaultConfig := Config(4, 8, 384, 64)

  /** Slope and intercept of the middle-band ramp and the edge-band slope, all x256. */
  datatype Coeffs = Coeffs(middleSlope: int, middleIntercept: int, edgeGain: int)

  /** Euclidean division of a non-negative value leaves a remainder below the divisor. */
  lemma DivBounds(a: int, d: int)
    requires 0 <= a && 1 <= d
    ensures 0 <= a / d
    ensures (a / d) * d <= a < (a / d + 1) * d
  {
  }

  /**
   The coefficient derivation of the constructor. The slope is the
   quotient of `edge_gain * edge_threshold` by the band width, rounded
   down; the intercept is the NEGATED rounded-down quotient of
   `edge_gain * flat_threshold * edge_threshold` by the band width.
   */
  function Derive(cfg: Config): (co: Coeffs)
    requires cfg.Valid()
    ensures co.middleSlope >= 0
    ensures co.middleSlope * cfg.Span() <= cfg.edgeGain * cfg.edgeThreshold
                                         < (co.middleSlope + 1) * cfg.Span()
    ensures co.middleIntercept <= 0
    ensures -co.middleIntercept * cfg.Span()
            <= cfg.edgeGain * cfg.flatThreshold * cfg.edgeThreshold
            < (-co.middleIntercept + 1) * cfg.Span()
    ensures co.edgeGain == cfg.edgeGain
  {
    var d := cfg.Span();
    var slopeNum := cfg.edgeGain * cfg.edgeThreshold;
    var interceptNum := cfg.edgeGain * cfg.flatThreshold * cfg.edgeThreshold;
    DivBounds(slopeNum, d);
    DivBounds(interceptNum, d);
    Coeffs(slopeNum / d, -(interceptNum / d), cfg.edgeGain)
  }

  /** The default configuration yields slope 768, intercept -3072 and edge gain 384. */
  lemma DefaultCoeffs()
    ensures Derive(DefaultConfig) == Coeffs(768, -3072, 384)
  {
  }

  /**
   The middle-band ramp before the shift: `middle_slope * a + middle_intercept`,
   a straight line that changes by `middle_slope` per unit of magnitude.
   */
  function Ramp(co: Coeffs, a: int): int {
    co.middleSlope * a + co.middleIntercept
  }

  /**
   The arithmetic behind `RampNearExactLine`, over plain integers: `s` and
   `q` are rounded-down quotients of `g * t2` and `g * t1 * t2` by `t2 - t1`.
   */
  lemma RampNearLineBound(g: int, t1: int, t2: int, s: int, q: int, a: int)
    requires 0 <= t1 < t2 && 0 <= a
    requires s * (t2 - t1) <= g * t2 < (s + 1) * (t2 - t1)
    requires q * (t2 - t1) <= g * t1 * t2 < (q + 1) * (t2 - t1)
    ensures -a * (t2 - t1) <= (t2 - t1) * (s * a - q) - g * t2 * (a - t1) < t2 - t1
  {
    var d := t2 - t1;
    MulMonotone(s * d, g * t2, a);
    MulMonotone(g * t2, (s + 1) * d, a);
    assert ((s + 1) * d) * a == (s * d) * a + a * d;
    assert d * (s * a - q) == (s * d) * a - q * d;
    assert g * t2 * (a - t1) == (g * t2) * a - g * t1 * t2;
    assert (q + 1) * d == q * d + d;
  }

  /**
   The rounded ramp stays close to the exact line through `(t1, 0)` with
   slope `g * t2 / (t2 - t1)`: scaled by the band width `d`, it lies at most
   `a * d` below that line and less than `d` above it.
   */
  lemma {:induction false} RampNearExactLine(cfg: Config, a: int)
    requires cfg.Valid()
    requires 0 <= a
    ensures var d := cfg.Span();
      var exact := cfg.edgeGain * cfg.edgeThreshold * (a - cfg.flatThreshold);
      -a * d <= d * Ramp(Derive(cfg), a) - exact < d
  {
    var co := Derive(cfg);
    RampNearLineBound(cfg.edgeGain, cfg.flatThreshold, cfg.edgeThreshold,
                      co.middleSlope, -co.middleIntercept, a);
  }

  /**
   At the flat threshold the ramp starts at or below zero: rounding the
   slope down loses at least as much as rounding the intercept does.
   */
  lemma {:induction false} RampStartsAtMostZero(cfg: Config)
    requires cfg.Valid()
    ensures Ramp(Derive(cfg), cfg.flatThreshold) <= 0
  {
    var co := Derive(cfg);
    var d := cfg.Span();
    var t1 := cfg.flatThreshold;
    var x := cfg.edgeGain * cfg.flatThreshold * cfg.edgeThreshold;
    var s := co.middleSlope;
    var q := -co.middleIntercept;
    // s * d <= g * t2, hence s * t1 * d <= g * t1 * t2 < (q + 1) * d.
    assert s * t1 * d <= x by {
      assert s * d <= cfg.edgeGain * cfg.edgeThreshold;
      assert (s * d) * t1 <= (cfg.edgeGain * cfg.edgeThreshold) * t1;
    }
    assert x < (q + 1) * d;
    assert (s * t1) * d < (q + 1) * d;
    MulCancelLess(s * t1, q + 1, d);
  }

  /** Multiplying both sides by a non-negative factor keeps the order. */
  lemma MulMonotone(x: int, y: int, k: int)
    requires x <= y && 0 <= k
    ensures x * k <= y * k
  {
  }

  /** Dividing both sides of a strict inequality by a positive factor keeps it. */
  lemma MulCancelLess(x: int, y: int, d: int)
    requires 0 < d && x * d < y * d
    ensures x < y
  {
  }

  /**
   The arithmetic behind `RampBelowEdgeLine`, over plain integers: `s` and
   `q` are rounded-down quotients of `g * t2` and `g * t1 * t2` by `t2 - t1`.
   */
  lemma RampBound(g: int, t1: int, t2: int, s: int, q: int, a: int)
    requires 0 <= g && 0 <= t1 < t2 && 0 <= a <= t2
    requires s * (t2 - t1) <= g * t2
    requires g * t1 * t2 < (q + 1) * (t2 - t1)
    ensures s * a - q <= g * a
  {
    var d := t2 - t1;
    MulMonotone(s * d, g * t2, a);
    assert (s * d) * a == (s * a) * d;
    assert (g * t2) * a == g * t1 * a + (g * a) * d;
    MulMonotone(a, t2, g * t1);
    assert (g * t1) * a <= g * t1 * t2;
    assert (s * a) * d <= g * t1 * t2 + (g * a) * d;
    assert (q + 1) * d == q * d + d;
    assert (s * a) * d - q * d < (g * a) * d + d;
    assert (s * a - q) * d == (s * a) * d - q * d;
    assert (g * a + 1) * d == (g * a) * d + d;
    MulCancelLess(s * a - q, g * a + 1, d);
  }

  /**
   Inside the middle band the ramp never rises above the edge line
   `edge_gain * a`: the rounded coefficients lose at most one unit.
   */
  lemma {:induction false} RampBelowEdgeLine(cfg: Config, a: int)
    requires cfg.Valid()
    requires 0 <= a <= cfg.edgeThreshold
    ensures Ramp(Derive(cfg), a) <= Derive(cfg).edgeGain * a
  {
    var co := Derive(cfg);
    RampBound(cfg.edgeGain, cfg.flatThreshold, cfg.edgeThreshold,
              co.middleSlope, -co.middleIntercept, a);
  }

  /** Multiplying both sides of a strict inequality by a positive factor keeps it. */
  lemma MulStrictMonotone(x: int, y: int, k: int)
    requires x < y && 0 < k
    ensures x * k < y * k
  {
  }

  /**
   The arithmetic behind the lower bound of `RampMeetsEdgeLine`, over plain
   integers: `s` and `q` are rounded-down quotients of `g * t2` and
   `g * t1 * t2` by `t2 - t1`.
   */
  lemma RampReachBound(g: int, t1: int, t2: int, s: int, q: int)
    requires 0 <= g && 0 <= t1 < t2
    requires g * t2 < (s + 1) * (t2 - t1)
    requires q * (t2 - t1) <= g * t1 * t2
    ensures g * t2 - t2 < s * t2 - q
  {
    var d := t2 - t1;
    MulStrictMonotone(g * t2, (s + 1) * d, t2);
    assert ((s + 1) * d) * t2 == (s * t2) * d + d * t2;
    assert (g * t2) * t2 == g * t1 * t2 + (g * t2) * d;
    assert (s * t2) * d + d * t2 > g * t1 * t2 + (g * t2) * d;
    assert (s * t2) * d - q * d > (g * t2) * d - t2 * d;
    assert (s * t2 - q) * d == (s * t2) * d - q * d;
    assert (g * t2 - t2) * d == (g * t2) * d - t2 * d;
    MulCancelLess(g * t2 - t2, s * t2 - q, d);
  }

  /**
   At the edge threshold the ramp reaches the edge line `edge_gain * t2`
   up to a rounding error smaller than `t2`: the two bands meet.
   */
  lemma {:induction false} RampMeetsEdgeLine(cfg: Config)
    requires cfg.Valid()
    ensures var t2 := cfg.edgeThreshold;
      cfg.edgeGain * t2 - t2 < Ramp(Derive(cfg), t2) <= cfg.edgeGain * t2
  {
    var co := Derive(cfg);
    RampBelowEdgeLine(cfg, cfg.edgeThreshold);
    RampReachBound(cfg.edgeGain, cfg.flatThreshold, cfg.edgeThreshold,
                   co.middleSlope, -co.middleIntercept);
  }
}
