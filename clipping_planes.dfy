/**
  Clipping planes: each plane entity carries the range of signed distances
  from the plane inside which points stay visible, and its transform gives
  the plane's origin (the translation) and unit normal (the rotation applied
  to the X axis). Each frame the extraction copies at most
  `MAX_CLIPPING_PLANES` of them, in query order, into a fixed-size uniform
  and warns when there were more.
*/
module ClippingPlanes {
  import opened Geometry

  /** An `f32` signed distance: a finite value or one of the infinities. */
  datatype Sdist = Finite(v: real) | PosInfinity | NegInfinity

  predicate AtMost(a: Sdist, b: Sdist)
  {
    match (a, b)
    case (NegInfinity, _) => true
    case (_, PosInfinity) => true
    case (Finite(x), Finite(y)) => x <= y
    case _ => false
  }

  /** The range of signed distances from the plane that are not clipped. */
  datatype ClippingPlaneRange = ClippingPlaneRange(minSdist: Sdist, maxSdist: Sdist)

  /** A point at signed distance `d` from the plane is kept by `range`. */
  predicate Keeps(range: ClippingPlaneRange, d: real)
  {
    AtMost(range.minSdist, Finite(d)) && AtMost(Finite(d), range.maxSdist)
  }

  /** `ClippingPlaneRange::default()`: from the plane, with no upper limit. */
  function DefaultRange(): ClippingPlaneRange
  {
    ClippingPlaneRange(Finite(0.0), PosInfinity)
  }

  /** The default range keeps exactly the points on the plane or on the side its normal points to. */
  lemma DefaultKeepsFrontHalfSpace(d: real)
    ensures Keeps(DefaultRange(), d) <==> d >= 0.0
  {
  }

  /** One plane as the shader reads it. */
  datatype GpuClippingPlaneRange = GpuClippingPlaneRange(origin: Vec3, unitNormal: Vec3, minSdist: Sdist, maxSdist: Sdist)

  /** `GpuClippingPlaneRange::default()` (derived): every field zero, unlike `ClippingPlaneRange::default()`. */
  const GPU_RANGE_DEFAULT: GpuClippingPlaneRange := GpuClippingPlaneRange(ZERO, ZERO, Finite(0.0), Finite(0.0))

  /** The shader's cost grows with planes times points, so the uniform has room for this many. */
  const MAX_CLIPPING_PLANES: nat := 16

  /** The uniform: a fixed array of `MAX_CLIPPING_PLANES` ranges and the number in use. */
  datatype GpuClippingPlaneRanges = GpuClippingPlaneRanges(ranges: seq<GpuClippingPlaneRange>, numRanges: nat)

  /** `GpuClippingPlaneRanges::default()`: all slots default, none in use. */
  function DefaultRanges(): (r: GpuClippingPlaneRanges)
    ensures |r.ranges| == MAX_CLIPPING_PLANES && r.numRanges == 0
    ensures forall i :: 0 <= i < |r.ranges| ==> r.ranges[i] == GPU_RANGE_DEFAULT
  {
    GpuClippingPlaneRanges(seq(MAX_CLIPPING_PLANES, _ => GPU_RANGE_DEFAULT), 0)
  }

  /** One queried plane: its range and its global transform. */
  datatype PlaneEntity = PlaneEntity(range: ClippingPlaneRange, transform: Transform)

  /** The slot written for a plane: origin from the translation, normal from the rotated X axis, the range copied. */
  function ToGpu(p: PlaneEntity): GpuClippingPlaneRange
  {
    GpuClippingPlaneRange(p.transform.translation, p.transform.rotatedX, p.range.minSdist, p.range.maxSdist)
  }

  /**
    The loop of `extract_clipping_planes`: planes are copied in query order
    into consecutive slots until the array is full; the warning is raised
    when the query still has a plane after that, that is, exactly when there
    are more planes than slots.
  */
  method CollectClippingPlanes(planes: seq<PlaneEntity>) returns (gpu: GpuClippingPlaneRanges, warned: bool)
    ensures |gpu.ranges| == MAX_CLIPPING_PLANES
    ensures gpu.numRanges == MinNat(|planes|, MAX_CLIPPING_PLANES)
    ensures forall i :: 0 <= i < gpu.numRanges ==> gpu.ranges[i] == ToGpu(planes[i])
    ensures forall i :: gpu.numRanges <= i < MAX_CLIPPING_PLANES ==> gpu.ranges[i] == GPU_RANGE_DEFAULT
    ensures warned <==> |planes| > MAX_CLIPPING_PLANES
  {
    var ranges := new GpuClippingPlaneRange[MAX_CLIPPING_PLANES](_ => GPU_RANGE_DEFAULT);
    var numRanges: nat := 0;
    var consumed := 0;
    while consumed < |planes|
      invariant numRanges == consumed <= |planes| && numRanges < MAX_CLIPPING_PLANES
      invariant forall i :: 0 <= i < numRanges ==> ranges[i] == ToGpu(planes[i])
      invariant forall i :: numRanges <= i < MAX_CLIPPING_PLANES ==> ranges[i] == GPU_RANGE_DEFAULT
    {
      ranges[numRanges] := ToGpu(planes[consumed]);
      consumed := consumed + 1;
      numRanges := numRanges + 1;
      if numRanges == MAX_CLIPPING_PLANES {
        break;
      }
    }
    warned := consumed < |planes|;
    gpu := GpuClippingPlaneRanges(ranges[..], numRanges);
  }

  /** `UniformBufferOfGpuClippingPlaneRanges`: the render-world resource the extraction sets. */
  class ClippingPlaneUniform {
    var value: GpuClippingPlaneRanges

    /** `#[derive(Default)]`. */
    constructor ()
      ensures value == DefaultRanges()
    {
      value := DefaultRanges();
    }

    /** `extract_clipping_planes`: collect the planes and replace the uniform's value with them. */
    method ExtractClippingPlanes(planes: seq<PlaneEntity>) returns (warned: bool)
      modifies this
      ensures |value.ranges| == MAX_CLIPPING_PLANES && value.numRanges <= MAX_CLIPPING_PLANES
      ensures value.numRanges == MinNat(|planes|, MAX_CLIPPING_PLANES)
      ensures forall i :: 0 <= i < value.numRanges ==> value.ranges[i] == ToGpu(planes[i])
      ensures forall i :: value.numRanges <= i < MAX_CLIPPING_PLANES ==> value.ranges[i] == GPU_RANGE_DEFAULT
      ensures warned <==> |planes| > MAX_CLIPPING_PLANES
    {
      var gpu;
      gpu, warned := CollectClippingPlanes(planes);
      value := gpu;
    }
  }
}
