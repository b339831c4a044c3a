/**
 Image planes and `execute` over a whole plane. A plane is a sequence of
 rows of samples; the low-pass estimate of the input is given as a second
 plane of the same shape.
 */
module Planes {
  import opened FixedPoint
  import opened EdgeEnhancer

  type Plane = seq<seq<int>>

  /** Same height, and every row of the same width as the matching row. */
  predicate SameShape(a: Plane, b: Plane) {
    |a| == |b| && forall i :: 0 <= i < |a| ==> |a[i]| == |b[i]|
  }

  /** Every sample lies in `[lo, hi]`. */
  predicate InRange(p: Plane, lo: int, hi: int) {
    forall i, j :: 0 <= i < |p| && 0 <= j < |p[i]| ==> lo <= p[i][j] <= hi
  }

  /**
   `execute` as a point-wise map: every output sample is the enhanced
   input sample at the same position, computed from that sample and the
   estimate at that position only.
   */
  function EnhancePlane(e: Eeh, y: Plane, est: Plane): (out: Plane)
    requires e.Valid()
    requires SameShape(y, est)
    ensures SameShape(out, y)
    ensures forall i, j :: 0 <= i < |y| && 0 <= j < |y[i]| ==>
              out[i][j] == EnhancePixel(e, y[i][j], est[i][j])
    ensures InRange(out, 0, 255)
    ensures InRange(y, 0, 255) ==>
              forall i, j :: 0 <= i < |y| && 0 <= j < |y[i]| ==>
                Abs(out[i][j] - y[i][j]) <= e.cfg.deltaThreshold
    ensures InRange(y, 0, 255) && est == y ==> out == y
  {
    var out := seq(|y|, i requires 0 <= i < |y| => EnhanceRow(e, y[i], est[i]));
    assert forall i :: 0 <= i < |y| ==> out[i] == EnhanceRow(e, y[i], est[i]);
    out
  }

  /** One row of `EnhancePlane`. */
  function EnhanceRow(e: Eeh, row: seq<int>, est: seq<int>): (out: seq<int>)
    requires e.Valid()
    requires |row| == |est|
    ensures |out| == |row|
    ensures forall j :: 0 <= j < |row| ==> out[j] == EnhancePixel(e, row[j], est[j])
    ensures forall j :: 0 <= j < |row| ==> 0 <= out[j] <= 255
    ensures (forall j :: 0 <= j < |row| ==> 0 <= row[j] <= 255) ==>
              forall j :: 0 <= j < |row| ==> Abs(out[j] - row[j]) <= e.cfg.deltaThreshold
    ensures (forall j :: 0 <= j < |row| ==> 0 <= row[j] <= 255) && est == row ==> out == row
  {
    seq(|row|, j requires 0 <= j < |row| => EnhancePixel(e, row[j], est[j]))
  }

  /**
   `execute` with explicit loops over rows and columns; it computes the
   same plane as `EnhancePlane`.
   */
  method Execute(e: Eeh, y: Plane, est: Plane) returns (out: Plane)
    requires e.Valid()
    requires SameShape(y, est)
    ensures SameShape(out, y)
    ensures forall i, j :: 0 <= i < |y| && 0 <= j < |y[i]| ==>
              out[i][j] == EnhancePixel(e, y[i][j], est[i][j])
    ensures InRange(out, 0, 255)
    ensures out == EnhancePlane(e, y, est)
  {
    out := [];
    var i := 0;
    while i < |y|
      invariant 0 <= i <= |y|
      invariant |out| == i
      invariant forall k :: 0 <= k < i ==> |out[k]| == |y[k]|
      invariant forall k, j :: 0 <= k < i && 0 <= j < |y[k]| ==>
                  out[k][j] == EnhancePixel(e, y[k][j], est[k][j])
    {
      var row := [];
      var j := 0;
      while j < |y[i]|
        invariant 0 <= j <= |y[i]|
        invariant |row| == j
        invariant forall m :: 0 <= m < j ==> row[m] == EnhancePixel(e, y[i][m], est[i][m])
      {
        row := row + [EnhancePixel(e, y[i][j], est[i][j])];
        j := j + 1;
      }
      out := out + [row];
      i := i + 1;
    }
    var spec := EnhancePlane(e, y, est);
    forall k | 0 <= k < |y|
      ensures out[k] == spec[k]
    {
      assert |out[k]| == |spec[k]|;
      assert forall j :: 0 <= j < |y[k]| ==> out[k][j] == spec[k][j];
    }
  }

  /**
   Repeated application: the plane after one pass per estimate in `ests`,
   each pass taking the previous pass's output as its input.
   */
  function Passes(e: Eeh, y: Plane, ests: seq<Plane>): (out: Plane)
    requires e.Valid()
    requires forall k :: 0 <= k < |ests| ==> SameShape(y, ests[k])
    ensures SameShape(out, y)
    decreases |ests|
  {
    if |ests| == 0 then y
    else
      var next := EnhancePlane(e, y, ests[0]);
      assert forall k :: 0 <= k < |ests[1..]| ==> SameShape(next, ests[1..][k]) by {
        forall k | 0 <= k < |ests[1..]|
          ensures SameShape(next, ests[1..][k])
        {
          assert SameShape(y, ests[k + 1]);
        }
      }
      Passes(e, next, ests[1..])
  }

  /** Every sample of `a` lies within `bound` of the sample of `b` at the same position. */
  predicate WithinDistance(a: Plane, b: Plane, bound: int)
    requires SameShape(a, b)
  {
    forall i, j :: 0 <= i < |b| && 0 <= j < |b[i]| ==> Abs(a[i][j] - b[i][j]) <= bound
  }

  /** Distances between planes of one shape add up along a chain. */
  lemma WithinDistanceChain(a: Plane, b: Plane, c: Plane, d1: int, d2: int)
    requires SameShape(a, b) && SameShape(b, c)
    requires WithinDistance(a, b, d1) && WithinDistance(b, c, d2)
    ensures SameShape(a, c)
    ensures WithinDistance(a, c, d1 + d2)
  {
  }

  /** A distance bound may be restated as any equal value. */
  lemma WithinDistanceRebound(a: Plane, b: Plane, d1: int, d2: int)
    requires SameShape(a, b) && WithinDistance(a, b, d1) && d1 == d2
    ensures WithinDistance(a, b, d2)
  {
  }

  /** `(n + 1) * d` split into `n * d + d`. */
  lemma MulSucc(n: int, d: int)
    ensures (n + 1) * d == n * d + d
  {
  }

  /**
   Repeated passes do not diverge: after `n` passes over an 8-bit plane
   every sample is still 8-bit and has moved by at most `n` times
   `delta_threshold`.
   */
  lemma {:induction false} PassesDrift(e: Eeh, y: Plane, ests: seq<Plane>)
    requires e.Valid()
    requires forall k :: 0 <= k < |ests| ==> SameShape(y, ests[k])
    requires InRange(y, 0, 255)
    ensures InRange(Passes(e, y, ests), 0, 255)
    ensures WithinDistance(Passes(e, y, ests), y, |ests| * e.cfg.deltaThreshold)
    decreases |ests|
  {
    if |ests| > 0 {
      var next := EnhancePlane(e, y, ests[0]);
      var rest := ests[1..];
      assert forall k :: 0 <= k < |rest| ==> SameShape(next, rest[k]) by {
        forall k | 0 <= k < |rest|
          ensures SameShape(next, rest[k])
        {
          assert SameShape(y, ests[k + 1]);
        }
      }
      PassesDrift(e, next, rest);
      var dt := e.cfg.deltaThreshold;
      var out := Passes(e, y, ests);
      assert out == Passes(e, next, rest);
      assert WithinDistance(next, y, dt);
      WithinDistanceChain(out, next, y, |rest| * dt, dt);
      MulSucc(|rest|, dt);
      assert |rest| + 1 == |ests|;
      WithinDistanceRebound(out, y, |rest| * dt + dt, |ests| * dt);
    } else {
      assert |ests| * e.cfg.deltaThreshold == 0;
      assert WithinDistance(Passes(e, y, ests), y, 0);
    }
  }
}
