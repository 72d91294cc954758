/**
  The earlier LAS loader (`loader.rs`): it reads at most 500000 points for
  the positions, kept in the file's `(x, y, z)` order and normalised into the
  unit cube, and then reads at most 500000 points again for a scalar
  intensity colour. Both reads go through the same `las` reader, whose point
  iterator continues from the reader's current position.
*/
module LegacyLoader {
  import opened Geometry
  import opened PointCloud
  import opened Bounds
  import opened LasLoader

  /** How many points each of the two reads takes. */
  const TAKE_LIMIT: nat := 500000

  /** `extensions()`. */
  const LEGACY_EXTENSIONS: seq<string> := ["las", "laz"]

  /** The stored position: `[x, y, z]`, with no exchange of axes. */
  function LegacyPosition(p: LasPoint): (r: Vec3)
    ensures r.Get(0) == p.x && r.Get(1) == p.y && r.Get(2) == p.z
  {
    Vec3(p.x, p.y, p.z)
  }

  function LegacyPositions(points: seq<LasPoint>): (r: seq<Vec3>)
    ensures |r| == |points| && forall k :: 0 <= k < |points| ==> r[k] == LegacyPosition(points[k])
  {
    seq(|points|, k requires 0 <= k < |points| => LegacyPosition(points[k]))
  }

  /** The colour of a point: its intensity times 0.001, a single `Float32`. */
  function Intensity(p: LasPoint): real
  {
    p.intensity as real * 0.001
  }

  function Intensities(points: seq<LasPoint>): (r: seq<real>)
    ensures |r| == |points| && forall k :: 0 <= k < |points| ==> r[k] == Intensity(points[k])
  {
    seq(|points|, k requires 0 <= k < |points| => Intensity(points[k]))
  }

  /** `las::Reader` over the decoded points: each read returns the point at the cursor and moves past it. */
  class PointReader {
    const points: seq<LasPoint>
    var cursor: nat

    ghost predicate Valid()
      reads this
    {
      cursor <= |points|
    }

    constructor (points: seq<LasPoint>)
      ensures this.points == points && cursor == 0 && Valid()
    {
      this.points := points;
      cursor := 0;
    }

    /** The next point, or none at the end of the file. */
    method ReadPoint() returns (p: Option<LasPoint>)
      requires Valid()
      modifies this
      ensures Valid()
      ensures old(cursor) < |points| ==> p == Some(points[old(cursor)]) && cursor == old(cursor) + 1
      ensures old(cursor) == |points| ==> p.None? && cursor == old(cursor)
    {
      if cursor < |points| {
        p := Some(points[cursor]);
        cursor := cursor + 1;
      } else {
        p := None;
      }
    }

    /** `seek(0)`: back to the first point. */
    method Rewind()
      modifies this
      ensures Valid() && cursor == 0
    {
      cursor := 0;
    }
  }

  /** How many points a read of at most `limit` points takes from the cursor on. */
  function Taken(reader: PointReader, limit: nat): nat
    reads reader
    requires reader.Valid()
  {
    MinNat(|reader.points| - reader.cursor, limit)
  }

  /**
    `points().take(limit).map(..).collect()` for the positions: the points
    from the cursor on, at most `limit` of them, with the running bounds
    of what was taken.
  */
  method TakePositions(reader: PointReader, limit: nat) returns (positions: seq<Vec3>, min: Vec3, max: Vec3)
    requires reader.Valid()
    modifies reader
    ensures reader.Valid() && reader.cursor == old(reader.cursor) + old(Taken(reader, limit))
    ensures positions == LegacyPositions(reader.points[old(reader.cursor)..reader.cursor])
    ensures min == Lower(positions) && max == Upper(positions)
  {
    ghost var start := reader.cursor;
    max := Splat(-F32_MAX);
    min := Splat(F32_MAX);
    positions := [];
    var taken := 0;
    while taken < limit
      invariant reader.Valid() && reader.cursor == start + taken && taken <= limit
      invariant positions == LegacyPositions(reader.points[start..reader.cursor])
      invariant min == Lower(positions) && max == Upper(positions)
      decreases limit - taken
    {
      var a := reader.ReadPoint();
      if a.None? {
        break;
      }
      var p := a.value;
      var point := Vec3(p.x, p.y, p.z);
      min := Min(min, point);
      max := Max(max, point);
      assert reader.points[start..reader.cursor] == reader.points[start..reader.cursor - 1] + [p];
      ghost var before := positions;
      positions := positions + [point];
      assert positions[..|positions| - 1] == before;
      taken := taken + 1;
    }
  }

  /** `points().take(limit).map(..).collect()` for the colours: intensities from the cursor on, at most `limit`. */
  method TakeIntensities(reader: PointReader, limit: nat) returns (colors: seq<real>)
    requires reader.Valid()
    modifies reader
    ensures reader.Valid() && reader.cursor == old(reader.cursor) + old(Taken(reader, limit))
    ensures colors == Intensities(reader.points[old(reader.cursor)..reader.cursor])
  {
    ghost var start := reader.cursor;
    colors := [];
    var taken := 0;
    while taken < limit
      invariant reader.Valid() && reader.cursor == start + taken && taken <= limit
      invariant colors == Intensities(reader.points[start..reader.cursor])
      decreases limit - taken
    {
      var a := reader.ReadPoint();
      if a.None? {
        break;
      }
      var p := a.value;
      assert reader.points[start..reader.cursor] == reader.points[start..reader.cursor - 1] + [p];
      colors := colors + [p.intensity as real * 0.001];
      taken := taken + 1;
    }
  }

  /** How many points the position read takes from a file of `n` points. */
  function PositionCount(n: nat): nat { MinNat(n, TAKE_LIMIT) }

  /** The division by the largest extent of the positions read is defined. */
  predicate LegacyNormalizable(points: seq<LasPoint>)
  {
    LargestExtent(LegacyPositions(points[..PositionCount(|points|)])) != 0.0
  }

  /**
    The mesh as `load` builds it: positions from the first `n` points, and
    colours from the next read of the same reader, which starts at point
    `n`, not at the first point.
  */
  function AsWrittenMesh(points: seq<LasPoint>): Mesh
    requires LegacyNormalizable(points)
  {
    var n := PositionCount(|points|);
    var positions := NormalizedPositions(LegacyPositions(points[..n]));
    var colors := Intensities(points[n..MinNat(|points|, n + TAKE_LIMIT)]);
    Mesh(positions, Some(MeshAttribute(LAS_ATTRIBUTE_COLOR_ID, Float32(colors))))
  }

  /** `load` as written: the two reads share the reader's cursor. */
  method LoadAsWritten(points: seq<LasPoint>) returns (mesh: Mesh)
    requires LegacyNormalizable(points)
    ensures mesh == AsWrittenMesh(points)
  {
    var reader := new PointReader(points);
    var positions, min, max := TakePositions(reader, TAKE_LIMIT);
    var colors := TakeIntensities(reader, TAKE_LIMIT);
    positions := NormalizeLegacy(positions, min, max);
    mesh := Mesh(positions, Some(MeshAttribute(LAS_ATTRIBUTE_COLOR_ID, Float32(colors))));
  }

  /**
    A file of at most 500000 points loses every colour: the second read
    starts at the end of the file, so the colour attribute is empty although
    every point has a position.
  */
  lemma {:induction false} AsWrittenLosesColors(points: seq<LasPoint>)
    requires 0 < |points| <= TAKE_LIMIT && LegacyNormalizable(points)
    ensures |AsWrittenMesh(points).positions| == |points|
    ensures AsWrittenMesh(points).extra.value.values.Len() == 0
  {
    assert PositionCount(|points|) == |points|;
    assert points[|points|..MinNat(|points|, |points| + TAKE_LIMIT)] == [];
  }

  /** The two-point file `[a, b]` shows it. */
  lemma TwoPointFileLosesColors()
    ensures var points := [LasPoint(0.0, 0.0, 0.0, 100, None), LasPoint(1.0, 2.0, 3.0, 200, None)];
            LegacyNormalizable(points)
            && |AsWrittenMesh(points).positions| == 2 && AsWrittenMesh(points).extra.value.values.Len() == 0
  {
    var points := [LasPoint(0.0, 0.0, 0.0, 100, None), LasPoint(1.0, 2.0, 3.0, 200, None)];
    var raw := LegacyPositions(points[..PositionCount(|points|)]);
    assert raw == [Vec3(0.0, 0.0, 0.0), Vec3(1.0, 2.0, 3.0)];
    assert raw[..1] == [Vec3(0.0, 0.0, 0.0)] && raw[..1][..0] == [];
    assert Lower(raw[..1]) == Vec3(0.0, 0.0, 0.0) && Upper(raw[..1]) == Vec3(0.0, 0.0, 0.0);
    assert Lower(raw).z == 0.0 && Upper(raw).z == 3.0;
    assert Extent(raw).z == 3.0;
    AsWrittenLosesColors(points);
  }

  /** The intended mesh: positions and colours from the same first `n` points. */
  function LegacyMesh(points: seq<LasPoint>): Mesh
    requires LegacyNormalizable(points)
  {
    var n := PositionCount(|points|);
    var positions := NormalizedPositions(LegacyPositions(points[..n]));
    Mesh(positions, Some(MeshAttribute(LAS_ATTRIBUTE_COLOR_ID, Float32(Intensities(points[..n])))))
  }

  /** `load` with the reader moved back to the first point before the colour read. */
  method Load(points: seq<LasPoint>) returns (mesh: Mesh)
    requires LegacyNormalizable(points)
    ensures mesh == LegacyMesh(points)
  {
    var reader := new PointReader(points);
    var positions, min, max := TakePositions(reader, TAKE_LIMIT);
    reader.Rewind();
    var colors := TakeIntensities(reader, TAKE_LIMIT);
    positions := NormalizeLegacy(positions, min, max);
    mesh := Mesh(positions, Some(MeshAttribute(LAS_ATTRIBUTE_COLOR_ID, Float32(colors))));
  }

  /** The normalisation tail of `load`: largest extent of the bounds, then `(p - min) / scale` in place. */
  method NormalizeLegacy(positions: seq<Vec3>, min: Vec3, max: Vec3) returns (normalized: seq<Vec3>)
    requires min == Lower(positions) && max == Upper(positions) && LargestExtent(positions) != 0.0
    ensures normalized == NormalizedPositions(positions)
  {
    var aabb := max.Sub(min);
    var scale := MaxReal(MaxReal(aabb.Get(0), aabb.Get(1)), aabb.Get(2));
    assert scale == LargestExtent(positions);
    normalized := NormalizePositions(positions, min, scale);
  }

  /**
    With the colour read rewound, every one of the first `n` points gives
    one position and one colour, at the same index, and the mesh counts
    `n` vertices; every position lies in the unit cube.
  */
  lemma {:induction false} OneColorPerPosition(points: seq<LasPoint>, k: nat)
    requires LegacyNormalizable(points) && k < PositionCount(|points|)
    ensures var m := LegacyMesh(points);
            |m.positions| == PositionCount(|points|) && m.extra.value.values.Len() == PositionCount(|points|)
            && m.CountVertices() == PositionCount(|points|)
    ensures LegacyMesh(points).extra.value.values.scalars[k] == Intensity(points[k])
    ensures var raw := LegacyPositions(points[..PositionCount(|points|)]);
            LegacyMesh(points).positions[k] == Normalize(LegacyPosition(points[k]), Lower(raw), LargestExtent(raw))
    ensures LargestExtent(LegacyPositions(points[..PositionCount(|points|)])) > 0.0 ==>
              forall i :: 0 <= i < 3 ==> 0.0 <= LegacyMesh(points).positions[k].Get(i) <= 1.0
  {
    var raw := LegacyPositions(points[..PositionCount(|points|)]);
    if LargestExtent(raw) > 0.0 {
      NormalizedInUnitCube(raw, k);
    }
  }

  lemma LegacyExtensionsAre(e: string)
    ensures e in LEGACY_EXTENSIONS <==> e == "las" || e == "laz"
  {
  }
}
