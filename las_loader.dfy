/**
  The LAS/LAZ asset loader: every decoded LAS point becomes one position, with
  the file's Y and Z axes exchanged, and one colour, taken from the point's
  RGB when it has one and from its intensity otherwise; the positions are
  then shifted and scaled into the unit cube by the bounding box found while
  reading them. The asset has no animation.
*/
module LasLoader {
  import opened Geometry
  import opened PointCloud
  import opened Bounds

  type U16 = x: int | 0 <= x < 0x1_0000

  /** `u16::MAX`. */
  const U16_MAX: real := 65535.0

  /** `las::Color`: 16-bit red, green and blue. */
  datatype Color = Color(red: U16, green: U16, blue: U16)

  /** A decoded LAS point, with its coordinates already scaled and offset by the file header. */
  datatype LasPoint = LasPoint(x: real, y: real, z: real, intensity: U16, color: Option<Color>)

  /** `LasLoaderError`: reading the bytes failed, or the `las` reader rejected the header. */
  datatype LasLoaderError = Io | RonSpannedError

  /** The loader's own colour attribute: `"Vertex_Color"`, id 1, `Float32x3`. */
  const LAS_ATTRIBUTE_COLOR_ID: nat := 1

  /** `extensions()`. */
  const LAS_EXTENSIONS: seq<string> := ["las", "laz"]

  lemma LasExtensionsAre(e: string)
    ensures e in LAS_EXTENSIONS <==> e == "las" || e == "laz"
  {
  }

  /** The stored position: `[x, z, y]`. */
  function Position(p: LasPoint): (r: Vec3)
    ensures r.Get(0) == p.x && r.Get(1) == p.z && r.Get(2) == p.y
  {
    Vec3(p.x, p.z, p.y)
  }

  /** The positions of all points, in file order, before normalisation. */
  function RawPositions(points: seq<LasPoint>): (r: seq<Vec3>)
    ensures |r| == |points| && forall k :: 0 <= k < |points| ==> r[k] == Position(points[k])
  {
    seq(|points|, k requires 0 <= k < |points| => Position(points[k]))
  }

  /** The colour of one point: RGB over `u16::MAX`, or the intensity times 0.01 on all three channels. */
  function PointColor(p: LasPoint): Vec3
  {
    if p.color.Some? then
      Vec3(p.color.value.red as real / U16_MAX, p.color.value.green as real / U16_MAX, p.color.value.blue as real / U16_MAX)
    else
      Splat(p.intensity as real * 0.01)
  }

  lemma ChannelInUnitInterval(c: U16)
    ensures 0.0 <= c as real / U16_MAX <= 1.0
  {
    FractionInUnitInterval(c as real, U16_MAX);
  }

  /**
    A point with RGB gets each channel in [0, 1], in red, green, blue order;
    a point without gets its intensity, scaled by 0.01, on all three.
  */
  lemma {:induction false} PointColorChannels(p: LasPoint)
    ensures p.color.Some? ==> forall i :: 0 <= i < 3 ==> 0.0 <= PointColor(p).Get(i) <= 1.0
    ensures p.color.Some? ==>
              && PointColor(p).Get(0) * U16_MAX == p.color.value.red as real
              && PointColor(p).Get(1) * U16_MAX == p.color.value.green as real
              && PointColor(p).Get(2) * U16_MAX == p.color.value.blue as real
    ensures p.color.None? ==> forall i :: 0 <= i < 3 ==> PointColor(p).Get(i) == p.intensity as real / 100.0
  {
    if p.color.Some? {
      ChannelInUnitInterval(p.color.value.red);
      ChannelInUnitInterval(p.color.value.green);
      ChannelInUnitInterval(p.color.value.blue);
    }
  }

  /**
    The division by the largest extent is defined: it is zero only when every
    point sits at the same place (a single point included), where the source
    divides zero by zero.
  */
  predicate Normalizable(input: Result<seq<LasPoint>, LasLoaderError>)
  {
    input.Ok? ==> LargestExtent(RawPositions(input.value)) != 0.0
  }

  /** The colours of all points, in file order. */
  function Colors(points: seq<LasPoint>): (r: seq<Vec3>)
    ensures |r| == |points| && forall k :: 0 <= k < |points| ==> r[k] == PointColor(points[k])
  {
    seq(|points|, k requires 0 <= k < |points| => PointColor(points[k]))
  }

  /** The stored positions: every raw position normalised by the bounding box of all of them. */
  function NormalizedPositions(raw: seq<Vec3>): (r: seq<Vec3>)
    requires LargestExtent(raw) != 0.0
    ensures |r| == |raw| && forall k :: 0 <= k < |raw| ==> r[k] == Normalize(raw[k], Lower(raw), LargestExtent(raw))
  {
    seq(|raw|, k requires 0 <= k < |raw| => Normalize(raw[k], Lower(raw), LargestExtent(raw)))
  }

  /** The asset `load` returns for these points. */
  function LoadedAsset(points: seq<LasPoint>): PointCloudAsset
    requires LargestExtent(RawPositions(points)) != 0.0
  {
    var positions := NormalizedPositions(RawPositions(points));
    PointCloudAsset(Mesh(positions, Some(MeshAttribute(LAS_ATTRIBUTE_COLOR_ID, Float32x3(Colors(points))))), None, ZERO)
  }

  /**
    `load`: a read or header error is returned as it is; otherwise one
    position per point, in file order, with Y and Z exchanged and
    normalised by the bounding box, one colour per point, no animation and
    a zero animation scale.
  */
  method Load(input: Result<seq<LasPoint>, LasLoaderError>) returns (r: Result<PointCloudAsset, LasLoaderError>)
    requires Normalizable(input)
    ensures input.Err? ==> r == Err(input.error)
    ensures input.Ok? ==> r == Ok(LoadedAsset(input.value))
  {
    if input.Err? {
      return Err(input.error);
    }
    var points := input.value;
    var positions, colors, min, max := ReadPoints(points);
    var aabb := max.Sub(min);
    var scale := MaxReal(MaxReal(aabb.Get(0), aabb.Get(1)), aabb.Get(2));
    ghost var raw := positions;
    assert scale == LargestExtent(raw);
    positions := NormalizePositions(positions, min, scale);
    assert positions == NormalizedPositions(raw);
    var mesh := Mesh(positions, Some(MeshAttribute(LAS_ATTRIBUTE_COLOR_ID, Float32x3(colors))));
    r := Ok(PointCloudAsset(mesh, None, ZERO));
  }

  /**
    The `map` over the reader's points, unzipped: each point's position with
    Y and Z exchanged and its colour, in file order, while `min` and `max`
    follow the running bounds.
  */
  method ReadPoints(points: seq<LasPoint>) returns (positions: seq<Vec3>, colors: seq<Vec3>, min: Vec3, max: Vec3)
    ensures positions == RawPositions(points) && colors == Colors(points)
    ensures min == Lower(positions) && max == Upper(positions)
  {
    max := Splat(-F32_MAX);
    min := Splat(F32_MAX);
    positions := [];
    colors := [];
    ghost var raw := RawPositions(points);
    for i := 0 to |points|
      invariant positions == raw[..i]
      invariant min == Lower(raw[..i]) && max == Upper(raw[..i])
      invariant colors == Colors(points[..i])
    {
      var p := points[i];
      var position := Vec3(p.x, p.z, p.y);
      assert raw[..i + 1][..i] == raw[..i];
      min := Min(min, position);
      max := Max(max, position);
      var color := if p.color.Some? then
          Vec3(p.color.value.red as real / U16_MAX, p.color.value.green as real / U16_MAX, p.color.value.blue as real / U16_MAX)
        else
          var intensity := p.intensity as real * 0.01;
          Vec3(intensity, intensity, intensity);
      assert Colors(points[..i + 1]) == Colors(points[..i]) + [color];
      positions := positions + [position];
      colors := colors + [color];
    }
    assert raw[..|points|] == raw;
    assert points[..|points|] == points;
  }

  /** The in-place normalisation loop: `(p - min) / scale` for every position, in place. */
  method NormalizePositions(positions: seq<Vec3>, min: Vec3, scale: real) returns (normalized: seq<Vec3>)
    requires scale != 0.0
    ensures |normalized| == |positions|
    ensures forall k :: 0 <= k < |positions| ==> normalized[k] == Normalize(positions[k], min, scale)
  {
    normalized := positions;
    for i := 0 to |normalized|
      invariant |normalized| == |positions|
      invariant forall k :: 0 <= k < i ==> normalized[k] == Normalize(positions[k], min, scale)
      invariant forall k :: i <= k < |positions| ==> normalized[k] == positions[k]
    {
      var p := normalized[i];
      p := Vec3(p.x - min.x, p.y - min.y, p.z - min.z);
      p := Vec3(p.x / scale, p.y / scale, p.z / scale);
      normalized := normalized[i := p];
    }
  }

  /** Every loaded position lies in the unit cube. */
  lemma {:induction false} LoadedPositionsFillUnitCube(points: seq<LasPoint>, k: nat)
    requires LargestExtent(RawPositions(points)) > 0.0 && k < |points|
    ensures forall i :: 0 <= i < 3 ==> 0.0 <= LoadedAsset(points).mesh.positions[k].Get(i) <= 1.0
  {
    NormalizedInUnitCube(RawPositions(points), k);
  }

  /** The positions and the colours are the same length, one entry per point. */
  lemma OnePositionAndColorPerPoint(points: seq<LasPoint>)
    requires LargestExtent(RawPositions(points)) != 0.0
    ensures var m := LoadedAsset(points).mesh;
            |m.positions| == |points| && m.extra.Some? && m.extra.value.values.Len() == |points|
            && m.CountVertices() == |points|
  {
  }

  /**
    The colour attribute is stored under id 1, not under the engine's colour
    attribute id that preparation checks (a different id), so a loaded LAS
    asset is never prepared as coloured.
  */
  lemma LoadedAssetIsNotColored(points: seq<LasPoint>)
    requires LargestExtent(RawPositions(points)) != 0.0
    ensures !LoadedAsset(points).mesh.ContainsAttribute(MESH_ATTRIBUTE_COLOR_ID)
  {
  }

  /** A loaded LAS asset is static: no animation, hence no duration, and the default (zero) animation scale. */
  lemma LoadedAssetIsStatic(points: seq<LasPoint>)
    requires LargestExtent(RawPositions(points)) != 0.0
    ensures HasDurationFrame(LoadedAsset(points)) && AnimationDuration(LoadedAsset(points)).None?
    ensures LoadedAsset(points).animation.None? && LoadedAsset(points).animationScale == ZERO
  {
  }
}
