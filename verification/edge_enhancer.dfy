/**
 The edge enhancer's point-wise transform: from a luma sample and its
 low-pass estimate, the three-band gain on the magnitude of their
 difference, the clamp on the enhanced delta, and the clamped recombination
 with the sample.
 */
module EdgeEnhancer {
  import opened FixedPoint
  import opened GainMapper

  /** The enhancer object: its configuration and the coefficients derived from it. */
  datatype Eeh = Eeh(cfg: Config, co: Coeffs)
  {
    /** The coefficients are the ones derived from the configuration. */
    predicate Valid() {
      cfg.Valid() && co == Derive(cfg)
    }
  }

  /** Builds an enhancer from a configuration, deriving its coefficients once. */
  function New(cfg: Config): (e: Eeh)
    requires cfg.Valid()
    ensures e.Valid() && e.cfg == cfg
  {
    Eeh(cfg, Derive(cfg))
  }

  /** The constructor as written: the default configuration and its coefficients. */
  function Init(): (e: Eeh)
    ensures e.Valid()
    ensures e.cfg == Config(4, 8, 384, 64)
    ensures e.co == Coeffs(768, -3072, 384)
  {
    DefaultCoeffs();
    New(DefaultConfig)
  }

  /** A boolean mask taken as a 0/1 integer, as NumPy multiplies it. */
  function Ind(b: bool): int {
    if b then 1 else 0
  }

  /** `middle_delta`: the shifted middle-band ramp at magnitude `a`. */
  function MiddleDelta(co: Coeffs, a: int): (r: int)
    ensures r * 256 <= Ramp(co, a) < r * 256 + 256
  {
    ShiftRight8(Ramp(co, a))
  }

  /** `edge_delta`: the shifted edge-band line at magnitude `a`. */
  function EdgeDelta(co: Coeffs, a: int): (r: int)
    ensures r * 256 <= co.edgeGain * a < r * 256 + 256
  {
    ShiftRight8(co.edgeGain * a)
  }

  /**
   The band selection, written as the source writes it: the middle value
   masked by both middle-band comparisons plus the edge value masked by
   the edge-band comparison. Exactly one band applies to every magnitude.
   */
  function BandGain(e: Eeh, a: int): (r: int)
    requires e.Valid()
    ensures a <= e.cfg.flatThreshold ==> r == 0
    ensures e.cfg.flatThreshold < a <= e.cfg.edgeThreshold ==> r == MiddleDelta(e.co, a)
    ensures e.cfg.edgeThreshold < a ==> r == EdgeDelta(e.co, a)
  {
    Ind(a > e.cfg.flatThreshold) * Ind(a <= e.cfg.edgeThreshold) * MiddleDelta(e.co, a)
      + Ind(a > e.cfg.edgeThreshold) * EdgeDelta(e.co, a)
  }

  /** The magnitude of the enhancement: the band gain clipped to `[0, delta_threshold]`. */
  function ClippedGain(e: Eeh, a: int): (r: int)
    requires e.Valid()
    ensures 0 <= r <= e.cfg.deltaThreshold
  {
    Clip(BandGain(e, a), 0, e.cfg.deltaThreshold)
  }

  /**
   The enhanced delta: the sign of the raw delta re-applied to the clipped
   band gain of its magnitude. Flat band: nothing. Middle band: the clipped
   ramp, so a ramp value below zero becomes zero and never flips the sign.
   Edge band: the edge line, cut at `delta_threshold`.
   */
  function EnhancedDelta(e: Eeh, delta: int): (r: int)
    requires e.Valid()
    ensures Abs(r) <= e.cfg.deltaThreshold
    ensures r * delta >= 0
    ensures delta == 0 ==> r == 0
    ensures Abs(delta) <= e.cfg.flatThreshold ==> r == 0
    ensures e.cfg.flatThreshold < Abs(delta) <= e.cfg.edgeThreshold ==>
              r == Sign(delta) * Clip(MiddleDelta(e.co, Abs(delta)), 0, e.cfg.deltaThreshold)
    ensures e.cfg.edgeThreshold < Abs(delta) ==>
              r == Sign(delta) * Min(EdgeDelta(e.co, Abs(delta)), e.cfg.deltaThreshold)
  {
    var a := Abs(delta);
    EdgeDeltaNonNegative(e, a);
    Sign(delta) * ClippedGain(e, a)
  }

  /** With a non-negative edge gain the edge line is non-negative, so its lower clip is inactive. */
  lemma EdgeDeltaNonNegative(e: Eeh, a: int)
    requires e.Valid() && 0 <= a
    ensures EdgeDelta(e.co, a) >= 0
  {
    MulMonotone(0, a, e.co.edgeGain);
  }

  /**
   The enhanced delta is an odd function of the raw delta whose magnitude
   is the clipped gain of the raw magnitude.
   */
  lemma EnhancedDeltaSymmetric(e: Eeh, delta: int)
    requires e.Valid()
    ensures EnhancedDelta(e, -delta) == -EnhancedDelta(e, delta)
    ensures Abs(EnhancedDelta(e, delta)) == ClippedGain(e, Abs(delta))
  {
  }

  /**
   The gain is non-decreasing in the magnitude of the delta, across all
   three bands: the ramp starts at or below zero and ends at or below the
   edge line.
   */
  lemma {:induction false} GainMonotone(e: Eeh, a: int, b: int)
    requires e.Valid()
    requires 0 <= a <= b
    ensures ClippedGain(e, a) <= ClippedGain(e, b)
  {
    var cfg := e.cfg;
    if a <= cfg.flatThreshold {
      // the flat band clips to 0, the least clipped value
    } else if b <= cfg.edgeThreshold {
      MulMonotone(a, b, e.co.middleSlope);
      ShiftRight8Monotone(Ramp(e.co, a), Ramp(e.co, b));
      ClipMonotone(MiddleDelta(e.co, a), MiddleDelta(e.co, b), 0, cfg.deltaThreshold);
    } else if a <= cfg.edgeThreshold {
      RampBelowEdgeLine(cfg, a);
      MulMonotone(a, b, e.co.edgeGain);
      ShiftRight8Monotone(Ramp(e.co, a), e.co.edgeGain * b);
      ClipMonotone(MiddleDelta(e.co, a), EdgeDelta(e.co, b), 0, cfg.deltaThreshold);
    } else {
      MulMonotone(a, b, e.co.edgeGain);
      ShiftRight8Monotone(e.co.edgeGain * a, e.co.edgeGain * b);
      ClipMonotone(EdgeDelta(e.co, a), EdgeDelta(e.co, b), 0, cfg.deltaThreshold);
    }
  }

  /**
   `execute` on one pixel: the sample plus its enhanced delta, clipped to
   the 8-bit range. For an 8-bit sample the output moves by at most
   `delta_threshold`, in the direction of the raw delta, and not at all
   when the sample equals its estimate.
   */
  function EnhancePixel(e: Eeh, y: int, est: int): (r: int)
    requires e.Valid()
    ensures 0 <= r <= 255
    ensures Abs(y - est) <= e.cfg.flatThreshold ==> r == Clip(y, 0, 255)
    ensures 0 <= y <= 255 ==> Abs(r - y) <= e.cfg.deltaThreshold
    ensures 0 <= y <= 255 && est < y ==> y <= r
    ensures 0 <= y <= 255 && y < est ==> r <= y
    ensures 0 <= y <= 255 && y == est ==> r == y
  {
    Clip(y + EnhancedDelta(e, y - est), 0, 255)
  }

  /**
   With the default configuration, a delta of 6 lies in the middle band:
   `(768 * 6 - 3072) >> 8 == 1536 >> 8 == 6`, below the clamp of 64.
   */
  lemma DefaultMiddleBandExample()
    ensures BandGain(Init(), 6) == 6
    ensures EnhancedDelta(Init(), 6) == 6
    ensures EnhancedDelta(Init(), -6) == -6
  {
  }

  /** With the default configuration, a delta of 20 lies in the edge band and enhances to 30. */
  lemma DefaultEdgeBandExample()
    ensures EnhancedDelta(Init(), 20) == 30
    ensures EnhancedDelta(Init(), -20) == -30
    ensures EnhancedDelta(Init(), 100) == 64
  {
  }

  /**
   With flat threshold 60, edge threshold 100 and edge gain 1, the ramp
   just above the flat threshold is negative (it shifts to -1); the clip
   turns it into no enhancement at all, for either sign of the delta.
   */
  lemma NegativeRampClippedExample()
    ensures var e := New(Config(60, 100, 1, 64));
      && e.co == Coeffs(2, -150, 1)
      && BandGain(e, 61) == -1
      && EnhancedDelta(e, 61) == 0
      && EnhancedDelta(e, -61) == 0
  {
    var cfg := Config(60, 100, 1, 64);
    assert Derive(cfg) == Coeffs(100 / 40, -(6000 / 40), 1);
    var e := New(cfg);
    assert e.co == Coeffs(2, -150, 1);
    assert Ramp(e.co, 61) == -28;
    assert MiddleDelta(e.co, 61) == -1;
    assert BandGain(e, 61) == -1;
    assert ClippedGain(e, 61) == 0;
  }
}
