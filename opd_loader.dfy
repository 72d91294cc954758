/**
  The OPD asset loader: one position per centroid of the parsed file, in
  file order, moved so that the centre of their bounding box is the origin
  (no rescaling), with the file's keyframes as the animation and the
  header's scale as the animation scale.
*/
module OpdLoader {
  import opened Geometry
  import opened PointCloud
  import opened Bounds

  /** What `opd_parser::parse` yields: the centroids' offsets, the keyframes, and the header's scale directive. */
  datatype OpdFile = OpdFile(centroids: seq<Vec3>, frames: Frames, scale: Vec3)

  /** The parser's error, passed on unchanged. */
  datatype ParseError = ParseError(message: string)

  /** `extensions()`. */
  const OPD_EXTENSIONS: seq<string> := ["opd"]

  lemma OpdExtensionsAre(e: string)
    ensures e in OPD_EXTENSIONS <==> e == "opd"
  {
  }

  /** `min + size / 2`: the centre of the bounding box. */
  function Center(ps: seq<Vec3>): Vec3
  {
    Lower(ps).Add(Extent(ps).Div(2.0))
  }

  /** Every position moved by the centre. */
  function Recentred(ps: seq<Vec3>): (r: seq<Vec3>)
    ensures |r| == |ps| && forall k :: 0 <= k < |ps| ==> r[k] == ps[k].Sub(Center(ps))
  {
    seq(|ps|, k requires 0 <= k < |ps| => ps[k].Sub(Center(ps)))
  }

  /** The asset `load_opd` returns for a parsed file. */
  function OpdAsset(file: OpdFile): PointCloudAsset
  {
    PointCloudAsset(Mesh(Recentred(file.centroids), None), Some(file.frames), file.scale)
  }

  /**
    `load_opd`: a parse error is returned; otherwise the asset of the
    recentred centroids, the file's frames and the header's scale.
  */
  method LoadOpd(parsed: Result<OpdFile, ParseError>) returns (r: Result<PointCloudAsset, ParseError>)
    ensures parsed.Err? ==> r == Err(parsed.error)
    ensures parsed.Ok? ==> r == Ok(OpdAsset(parsed.value))
  {
    if parsed.Err? {
      return Err(parsed.error);
    }
    var file := parsed.value;
    var positions: seq<Vec3> := [];
    var maxPosition := Splat(-F32_MAX);
    var minPosition := Splat(F32_MAX);
    for i := 0 to |file.centroids|
      invariant positions == file.centroids[..i]
      invariant minPosition == Lower(positions) && maxPosition == Upper(positions)
    {
      var c := file.centroids[i];
      maxPosition := Max(maxPosition, c);
      minPosition := Min(minPosition, c);
      ghost var before := positions;
      positions := positions + [c];
      assert positions[..|positions| - 1] == before;
    }
    assert positions == file.centroids;
    var size := maxPosition.Sub(minPosition);
    var positionOffset := minPosition.Add(size.Div(2.0));
    assert positionOffset == Center(file.centroids);
    positions := Translate(positions, positionOffset);
    assert positions == Recentred(file.centroids);
    var mesh := Mesh(positions, None);
    r := Ok(PointCloudAsset(mesh, Some(file.frames), file.scale));
  }

  /** `*position -= position_offset` for every position, in place. */
  method Translate(positions: seq<Vec3>, offset: Vec3) returns (moved: seq<Vec3>)
    ensures |moved| == |positions| && forall k :: 0 <= k < |positions| ==> moved[k] == positions[k].Sub(offset)
  {
    moved := positions;
    for i := 0 to |moved|
      invariant |moved| == |positions|
      invariant forall k :: 0 <= k < i ==> moved[k] == positions[k].Sub(offset)
      invariant forall k :: i <= k < |positions| ==> moved[k] == positions[k]
    {
      moved := moved[i := moved[i].Sub(offset)];
    }
  }

  /**
    After recentring, every coordinate lies within half the box's size of
    the origin: the box is symmetric about the origin on every axis.
  */
  lemma {:induction false} RecentredWithinHalfSize(ps: seq<Vec3>, k: nat, i: nat)
    requires k < |ps| && i < 3
    ensures -(Extent(ps).Get(i) / 2.0) <= Recentred(ps)[k].Get(i) <= Extent(ps).Get(i) / 2.0
  {
    LowerIsLowerBound(ps, k, i);
    UpperIsUpperBound(ps, k, i);
    assert Center(ps).Get(i) == Lower(ps).Get(i) + Extent(ps).Get(i) / 2.0;
  }

  /** Both ends are reached: on every axis some centroid lands at `-size/2` and some at `+size/2`. */
  lemma {:induction false} RecentredReachesBothEnds(ps: seq<Vec3>, i: nat) returns (lo: nat, hi: nat)
    requires |ps| > 0 && i < 3 && AllInF32Range(ps)
    ensures lo < |ps| && Recentred(ps)[lo].Get(i) == -(Extent(ps).Get(i) / 2.0)
    ensures hi < |ps| && Recentred(ps)[hi].Get(i) == Extent(ps).Get(i) / 2.0
  {
    lo := LowerIsAttained(ps, i);
    hi := UpperIsAttained(ps, i);
    assert Center(ps).Get(i) == Lower(ps).Get(i) + Extent(ps).Get(i) / 2.0;
  }

  /** Recentring is a translation: the difference between any two positions is kept, so nothing is rescaled. */
  lemma RecentredKeepsDifferences(ps: seq<Vec3>, j: nat, k: nat)
    requires j < |ps| && k < |ps|
    ensures Recentred(ps)[j].Sub(Recentred(ps)[k]) == ps[j].Sub(ps[k])
  {
  }

  /** The loaded asset plays the file's keyframes: its duration is the last I8 keyframe's time in seconds. */
  lemma {:induction false} OpdAssetDuration(file: OpdFile)
    requires file.frames.I8? && |file.frames.frames| > 0
    ensures HasDurationFrame(OpdAsset(file))
    ensures AnimationDuration(OpdAsset(file)) == Some(file.frames.frames[|file.frames.frames| - 1].time / 1000.0)
  {
  }
}
