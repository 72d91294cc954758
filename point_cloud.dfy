/**
  The point-cloud asset: a point-list mesh, an optional animation track and
  the per-asset animation scale, with the animation duration derived from the
  last keyframe.
*/
module PointCloud {
  import opened Geometry

  /** `Handle<PointCloudAsset>`: an asset's identity in the asset store. */
  datatype Handle = Handle(id: nat)

  /** An ECS entity: a camera, a view or a point-cloud instance. */
  datatype Entity = Entity(id: nat)

  /**
    One keyframe of the animation track: its timestamp in milliseconds and one
    displacement per point, as the OPD parser's frame iterator yields them
    (`Vec3::from(arr)`).
  */
  datatype Frame = Frame(time: real, displacements: seq<Vec3>)

  /** `opd_parser::Frames`: the keyframes, tagged with the integer width they were encoded in. */
  datatype Frames = I8(frames: seq<Frame>) | I16(frames: seq<Frame>) | I32(frames: seq<Frame>) | I64(frames: seq<Frame>)

  /** Values of one vertex attribute. */
  datatype VertexAttributeValues = Float32(scalars: seq<real>) | Float32x3(vectors: seq<Vec3>) {
    function Len(): nat
    {
      match this
      case Float32(s) => |s|
      case Float32x3(v) => |v|
    }
  }

  /** An extra vertex attribute, stored under its numeric attribute id. */
  datatype MeshAttribute = MeshAttribute(id: nat, values: VertexAttributeValues)

  /** `Mesh::ATTRIBUTE_POSITION`'s id. */
  const ATTRIBUTE_POSITION_ID: nat := 0
  /**
    The engine's own `Mesh::ATTRIBUTE_COLOR` id (`"Vertex_Color"`, `Float32x4`).
    Its numeric value depends on the engine version; all the model relies on
    is that it differs from the id 1 under which the loaders store colour.
  */
  const MESH_ATTRIBUTE_COLOR_ID: nat := 5

  /**
    A `PrimitiveTopology::PointList` mesh as the loaders build it: the position
    attribute and at most one further attribute (the loaders' colour).
  */
  datatype Mesh = Mesh(positions: seq<Vec3>, extra: Option<MeshAttribute>) {

    /** `Mesh::contains_attribute`. */
    predicate ContainsAttribute(id: nat)
    {
      id == ATTRIBUTE_POSITION_ID || (extra.Some? && extra.value.id == id)
    }

    /** `Mesh::count_vertices`: the shortest attribute's length. */
    function CountVertices(): (n: nat)
      ensures n <= |positions|
      ensures extra.Some? ==> n <= extra.value.values.Len()
      ensures n == |positions| || (extra.Some? && n == extra.value.values.Len())
    {
      if extra.Some? && extra.value.values.Len() < |positions| then extra.value.values.Len() else |positions|
    }
  }

  datatype PointCloudAsset = PointCloudAsset(mesh: Mesh, animation: Option<Frames>, animationScale: Vec3)

  /** `animation_duration` unwraps the last I8 keyframe: an empty I8 track panics. */
  predicate HasDurationFrame(asset: PointCloudAsset)
  {
    asset.animation.Some? && asset.animation.value.I8? ==> |asset.animation.value.frames| > 0
  }

  /**
    `animation_duration`: the time of the last I8 keyframe converted from
    milliseconds to seconds; no duration without an animation or for the wider
    encodings.
  */
  function AnimationDuration(asset: PointCloudAsset): (d: Option<real>)
    requires HasDurationFrame(asset)
    ensures d.Some? <==> asset.animation.Some? && asset.animation.value.I8?
    ensures d.Some? ==> var fs := asset.animation.value.frames; d.value * 1000.0 == fs[|fs| - 1].time
  {
    match asset.animation
    case Some(I8(frames)) => Some(frames[|frames| - 1].time / 1000.0)
    case _ => None
  }
}
