/**
  The axis-aligned bounds that every loader accumulates while it streams its
  points: a running `min`/`max` that starts from `[f32::MAX; 3]` /
  `[f32::MIN; 3]` and is folded with `Point::min`/`Point::max` one point at a
  time, the per-axis extent `max - min`, the largest extent, and the unit-cube
  normalisation `(p - min) / scale`.
*/
module Bounds {
  import opened Geometry

  /** The running minimum after visiting `ps` in order. */
  function Lower(ps: seq<Vec3>): Vec3
  {
    if |ps| == 0 then Splat(F32_MAX) else Min(Lower(ps[..|ps| - 1]), ps[|ps| - 1])
  }

  /** The running maximum after visiting `ps` in order. */
  function Upper(ps: seq<Vec3>): Vec3
  {
    if |ps| == 0 then Splat(-F32_MAX) else Max(Upper(ps[..|ps| - 1]), ps[|ps| - 1])
  }

  predicate AllInF32Range(ps: seq<Vec3>)
  {
    forall k :: 0 <= k < |ps| ==> ps[k].InF32Range()
  }

  /** The running minimum is below every visited point, on every axis. */
  lemma {:induction false} LowerIsLowerBound(ps: seq<Vec3>, k: nat, i: nat)
    requires k < |ps| && i < 3
    ensures Lower(ps).Get(i) <= ps[k].Get(i)
  {
    if k < |ps| - 1 {
      LowerIsLowerBound(ps[..|ps| - 1], k, i);
    }
  }

  /** The running maximum is above every visited point, on every axis. */
  lemma {:induction false} UpperIsUpperBound(ps: seq<Vec3>, k: nat, i: nat)
    requires k < |ps| && i < 3
    ensures Upper(ps).Get(i) >= ps[k].Get(i)
  {
    if k < |ps| - 1 {
      UpperIsUpperBound(ps[..|ps| - 1], k, i);
    }
  }

  /** Once a finite point has been visited, the sentinel is gone: the minimum is some point's coordinate. */
  lemma {:induction false} LowerIsAttained(ps: seq<Vec3>, i: nat) returns (k: nat)
    requires |ps| > 0 && i < 3 && AllInF32Range(ps)
    ensures k < |ps| && ps[k].Get(i) == Lower(ps).Get(i)
  {
    if |ps| == 1 {
      k := 0;
    } else {
      var front := ps[..|ps| - 1];
      k := LowerIsAttained(front, i);
      if ps[|ps| - 1].Get(i) < Lower(front).Get(i) {
        k := |ps| - 1;
      }
    }
  }

  /** Once a finite point has been visited, the maximum is some point's coordinate. */
  lemma {:induction false} UpperIsAttained(ps: seq<Vec3>, i: nat) returns (k: nat)
    requires |ps| > 0 && i < 3 && AllInF32Range(ps)
    ensures k < |ps| && ps[k].Get(i) == Upper(ps).Get(i)
  {
    if |ps| == 1 {
      k := 0;
    } else {
      var front := ps[..|ps| - 1];
      k := UpperIsAttained(front, i);
      if ps[|ps| - 1].Get(i) > Upper(front).Get(i) {
        k := |ps| - 1;
      }
    }
  }

  /** `aabb`: the per-axis size of the bounding box. */
  function Extent(ps: seq<Vec3>): Vec3
  {
    Upper(ps).Sub(Lower(ps))
  }

  /** `aabb[0].max(aabb[1]).max(aabb[2])`: the largest axis extent. */
  function LargestExtent(ps: seq<Vec3>): (s: real)
    ensures forall i :: 0 <= i < 3 ==> Extent(ps).Get(i) <= s
    ensures exists i :: 0 <= i < 3 && Extent(ps).Get(i) == s
  {
    var e := Extent(ps);
    assert e.Get(0) == e.x && e.Get(1) == e.y && e.Get(2) == e.z;
    MaxReal(MaxReal(e.x, e.y), e.z)
  }

  /** `(p - min) / scale`, axis by axis. */
  function Normalize(p: Vec3, min: Vec3, scale: real): (r: Vec3)
    requires scale != 0.0
  {
    p.Sub(min).Div(scale)
  }

  lemma FractionInUnitInterval(a: real, s: real)
    requires 0.0 <= a <= s && s > 0.0
    ensures 0.0 <= a / s <= 1.0
  {
    assert a / s * s == a;
  }

  /** Every normalised coordinate lies in [0, 1]. */
  lemma NormalizedInUnitCube(ps: seq<Vec3>, k: nat)
    requires k < |ps| && LargestExtent(ps) > 0.0
    ensures forall i :: 0 <= i < 3 ==> 0.0 <= Normalize(ps[k], Lower(ps), LargestExtent(ps)).Get(i) <= 1.0
  {
    var scale := LargestExtent(ps);
    forall i | 0 <= i < 3
      ensures 0.0 <= Normalize(ps[k], Lower(ps), scale).Get(i) <= 1.0
    {
      LowerIsLowerBound(ps, k, i);
      UpperIsUpperBound(ps, k, i);
      FractionInUnitInterval(ps[k].Get(i) - Lower(ps).Get(i), scale);
    }
  }

  /** On every axis some point is normalised to exactly 0: the one that set the minimum. */
  lemma MinimumMapsToZero(ps: seq<Vec3>, i: nat) returns (k: nat)
    requires |ps| > 0 && i < 3 && AllInF32Range(ps) && LargestExtent(ps) > 0.0
    ensures k < |ps| && Normalize(ps[k], Lower(ps), LargestExtent(ps)).Get(i) == 0.0
  {
    k := LowerIsAttained(ps, i);
  }

  /** On the dominant axis some point is normalised to exactly 1: the one that set the maximum. */
  lemma DominantAxisMapsToOne(ps: seq<Vec3>) returns (k: nat, i: nat)
    requires |ps| > 0 && AllInF32Range(ps) && LargestExtent(ps) > 0.0
    ensures k < |ps| && i < 3 && Extent(ps).Get(i) == LargestExtent(ps)
    ensures Normalize(ps[k], Lower(ps), LargestExtent(ps)).Get(i) == 1.0
  {
    var scale := LargestExtent(ps);
    i :| 0 <= i < 3 && Extent(ps).Get(i) == scale;
    k := UpperIsAttained(ps, i);
    var d := ps[k].Get(i) - Lower(ps).Get(i);
    assert d == scale;
    assert Normalize(ps[k], Lower(ps), scale).Get(i) == d / scale;
    SelfQuotient(scale);
  }

  lemma SelfQuotient(s: real)
    requires s != 0.0
    ensures s / s == 1.0
  {
  }
}
