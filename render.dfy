/**
  The render-world side of a point cloud: the per-frame extraction of
  point-cloud entities, the per-view draw lists, and the prepared asset with
  its GPU buffers and entity bind group.
*/
module Render {
  import opened Geometry
  import opened PointCloud
  import opened Gpu
  import opened Pipeline

  // ----- extraction -----

  /** The `PotreePointCloud` component: which asset to draw, and how large its points are. */
  datatype PotreePointCloud = PotreePointCloud(mesh: Handle, pointSize: real)

  /** `PointCloudUniform`; the transform stands for `transform.compute_matrix()`. */
  datatype PointCloudUniform = PointCloudUniform(transform: Transform, pointSize: real)

  datatype QueryItem = QueryItem(entity: Entity, pointCloud: PotreePointCloud, transform: Transform)

  /** One `(entity, (uniform, handle))` pair handed to `insert_or_spawn_batch`. */
  datatype ExtractedPointCloud = ExtractedPointCloud(entity: Entity, uniform: PointCloudUniform, mesh: Handle)

  /** The pair extracted for one queried entity. */
  function ExtractOne(item: QueryItem): (x: ExtractedPointCloud)
    ensures x.entity == item.entity && x.mesh == item.pointCloud.mesh
    ensures x.uniform.pointSize == item.pointCloud.pointSize && x.uniform.transform == item.transform
  {
    ExtractedPointCloud(item.entity, PointCloudUniform(item.transform, item.pointCloud.pointSize), item.pointCloud.mesh)
  }

  /** The system `extract_point_cloud`, with its `Local<usize>` capacity hint. */
  class PointCloudExtraction {
    var previousLen: nat

    constructor ()
      ensures previousLen == 0
    {
      previousLen := 0;
    }

    /**
      One pair per queried entity, in query order; the capacity hint becomes
      the number of pairs.
    */
    method ExtractPointCloud(query: seq<QueryItem>) returns (values: seq<ExtractedPointCloud>)
      modifies this
      ensures |values| == |query| && previousLen == |query|
      ensures forall i :: 0 <= i < |query| ==> values[i] == ExtractOne(query[i])
    {
      values := [];
      for i := 0 to |query|
        invariant |values| == i
        invariant forall k :: 0 <= k < i ==> values[k] == ExtractOne(query[k])
      {
        values := values + [ExtractOne(query[i])];
      }
      previousLen := |values|;
    }
  }

  // ----- the prepared asset -----

  /** The `(Buffer, Buffer)` pair: the first bound at slot 1, the second at slot 2. */
  datatype AnimationBuffers = AnimationBuffers(prev: Buffer, next: Buffer)

  /** The entity layout a prepared asset's bind group uses: the animated one exactly when it has animation buffers. */
  function EntityLayoutFor(animation: Option<AnimationBuffers>): (l: BindGroupLayout)
    ensures l == AnimatedEntityLayout <==> animation.Some?
    ensures l == EntityLayout <==> animation.None?
  {
    if animation.Some? then AnimatedEntityLayout else EntityLayout
  }

  /**
    The entries `update_bind_group` binds: the static point buffer at slot 0,
    and, when the asset is animated, its first and second animation buffers at
    slots 1 and 2.
  */
  function EntityEntries(buffer: Buffer, animation: Option<AnimationBuffers>): (es: seq<BindGroupEntry>)
    ensures |es| == if animation.Some? then 3 else 1
    ensures es[0] == BindGroupEntry(0, WholeBuffer(buffer))
    ensures animation.Some? ==> es[1] == BindGroupEntry(1, WholeBuffer(animation.value.prev))
    ensures animation.Some? ==> es[2] == BindGroupEntry(2, WholeBuffer(animation.value.next))
  {
    [BindGroupEntry(0, WholeBuffer(buffer))]
      + (if animation.Some? then
           [BindGroupEntry(1, WholeBuffer(animation.value.prev)), BindGroupEntry(2, WholeBuffer(animation.value.next))]
         else [])
  }

  /**
    The entity bind group fits the layout it is created with: one entry per
    layout entry, at the same binding, and each a whole buffer for a storage
    binding.
  */
  lemma EntityEntriesFitLayout(buffer: Buffer, animation: Option<AnimationBuffers>)
    ensures var es := EntityEntries(buffer, animation);
            var ls := LayoutEntries(EntityLayoutFor(animation));
            |es| == |ls| &&
            forall i :: 0 <= i < |es| ==>
              es[i].binding == ls[i].binding && es[i].resource.WholeBuffer? && ls[i].ty == BufferBinding(ReadOnlyStorage, false)
  {
    var es := EntityEntries(buffer, animation);
    var ls := LayoutEntries(EntityLayoutFor(animation));
    assert |es| == |ls|;
    forall i | 0 <= i < |es|
      ensures es[i].binding == ls[i].binding && es[i].resource.WholeBuffer?
    {
      assert i == 0 || i == 1 || i == 2;
    }
  }

  /** The number of `f32` slots each animation buffer holds for a mesh of `n` positions: a header slot and three per point. */
  function AnimationSlots(n: nat): nat
  {
    n * 3 + 1
  }

  /** `count_vertices() as u32`. */
  function AsU32(n: nat): (r: nat)
    ensures r < 0x1_0000_0000 && (n < 0x1_0000_0000 ==> r == n) && r <= n
  {
    n % 0x1_0000_0000
  }

  /** The `f32` values of one vertex as the engine interleaves them: the position, then the extra attribute. */
  function VertexChunk(mesh: Mesh, v: nat): seq<real>
    requires v < mesh.CountVertices()
  {
    var p := mesh.positions[v];
    [p.x, p.y, p.z]
      + match mesh.extra
        case None => []
        case Some(MeshAttribute(_, Float32(s))) => [s[v]]
        case Some(MeshAttribute(_, Float32x3(c))) => [c[v].x, c[v].y, c[v].z]
  }

  /** `get_vertex_buffer_data` over the first `n` vertices. */
  function VertexData(mesh: Mesh, n: nat): seq<real>
    requires n <= mesh.CountVertices()
  {
    if n == 0 then [] else VertexData(mesh, n - 1) + VertexChunk(mesh, n - 1)
  }

  /** `PreparedPointCloudAsset`: the asset as the render world holds it. */
  class PreparedPointCloudAsset {
    var buffer: Buffer
    var numPoints: nat
    var bindGroup: Option<BindGroup>
    var animationBuffer: Option<AnimationBuffers>
    var frames: Option<Frames>
    var currentAnimationFrame: nat
    var animationTime: real
    var animationFrameStartTime: real
    var animationScale: Vec3
    var colored: bool

    /**
      The asset's buffers exist; when it is animated, its two animation
      buffers are different buffers of equal length, each with room for the
      header slot and three slots per point.
    */
    ghost predicate Valid(device: Device)
      reads this, device
    {
      && buffer in device.buffers
      && (animationBuffer.Some? ==>
            var pair := animationBuffer.value;
            && pair.prev in device.buffers && pair.next in device.buffers
            && pair.prev != pair.next && pair.prev != buffer && pair.next != buffer
            && |device.buffers[pair.prev]| == |device.buffers[pair.next]|
            && |device.buffers[pair.next]| >= AnimationSlots(numPoints))
    }

    /** The struct literal of `prepare_asset`, before its bind group is built. */
    constructor (buffer: Buffer, numPoints: nat, animationBuffer: Option<AnimationBuffers>, frames: Option<Frames>,
                 animationScale: Vec3, colored: bool)
      ensures this.buffer == buffer && this.numPoints == numPoints && this.bindGroup.None?
      ensures this.animationBuffer == animationBuffer && this.frames == frames
      ensures currentAnimationFrame == 0 && animationTime == 0.0 && animationFrameStartTime == 0.0
      ensures this.animationScale == animationScale && this.colored == colored
    {
      this.buffer := buffer;
      this.numPoints := numPoints;
      this.bindGroup := None;
      this.animationBuffer := animationBuffer;
      this.frames := frames;
      this.currentAnimationFrame := 0;
      this.animationTime := 0.0;
      this.animationFrameStartTime := 0.0;
      this.animationScale := animationScale;
      this.colored := colored;
    }

    /**
      `update_bind_group`: a new bind group over the asset's current buffers,
      with the layout that matches whether it is animated.
    */
    method UpdateBindGroup(device: Device)
      requires device.Valid()
      modifies this`bindGroup, device
      ensures device.Valid() && device.buffers == old(device.buffers) && device.nextId == old(device.nextId) + 1
      ensures bindGroup == Some(BindGroup(old(device.nextId), EntityLayoutFor(animationBuffer), EntityEntries(buffer, animationBuffer)))
    {
      var entries := [BindGroupEntry(0, WholeBuffer(buffer))];
      if animationBuffer.Some? {
        var pair := animationBuffer.value;
        entries := entries + [BindGroupEntry(1, WholeBuffer(pair.prev))];
        entries := entries + [BindGroupEntry(2, WholeBuffer(pair.next))];
      }
      assert entries == EntityEntries(buffer, animationBuffer);
      var layout := if animationBuffer.Some? then AnimatedEntityLayout else EntityLayout;
      var g := device.CreateBindGroup(layout, entries);
      bindGroup := Some(g);
    }
  }

  /** The pipeline key of a prepared asset: coloured as prepared, animated when it has animation buffers. */
  function KeyOf(asset: PreparedPointCloudAsset, msaa: nat): (k: PointCloudPipelineKey)
    reads asset
    ensures k.colored == asset.colored && k.animated == asset.animationBuffer.Some? && k.msaa == msaa
  {
    PointCloudPipelineKey(asset.colored, asset.animationBuffer.Some?, msaa)
  }

  /**
    The pipeline specialized for an asset's key expects, in its entity slot,
    the very layout of the bind group `update_bind_group` built for it.
  */
  lemma PipelineMatchesBindGroup(asset: PreparedPointCloudAsset, msaa: nat)
    requires asset.bindGroup.Some? && asset.bindGroup.value.layout == EntityLayoutFor(asset.animationBuffer)
    ensures Specialize(KeyOf(asset, msaa)).layout[1] == asset.bindGroup.value.layout
  {
  }

  /**
    `prepare_asset`: the static point buffer, two zero-filled animation buffers
    of `n * 3 * 4 + 4` bytes for `n` positions exactly when the asset has an
    animation, the animation state at its start, and a bind group already built.
  */
  method PrepareAsset(extracted: PointCloudAsset, device: Device) returns (asset: PreparedPointCloudAsset)
    requires device.Valid()
    modifies device
    ensures fresh(asset) && device.Valid() && asset.Valid(device)
    ensures old(device.buffers).Keys <= device.buffers.Keys
    ensures forall b :: b in old(device.buffers) ==> device.buffers[b] == old(device.buffers)[b]
    ensures asset.buffer !in old(device.buffers)
    ensures device.buffers[asset.buffer] == VertexData(extracted.mesh, extracted.mesh.CountVertices())
    ensures asset.animationBuffer.Some? <==> extracted.animation.Some?
    ensures asset.animationBuffer.Some? ==>
              var pair := asset.animationBuffer.value;
              && pair.prev !in old(device.buffers) && pair.next !in old(device.buffers)
              && device.buffers[pair.prev] == seq(AnimationSlots(|extracted.mesh.positions|), _ => 0.0)
              && device.buffers[pair.next] == seq(AnimationSlots(|extracted.mesh.positions|), _ => 0.0)
    ensures asset.numPoints == AsU32(extracted.mesh.CountVertices())
    ensures asset.frames == extracted.animation && asset.animationScale == extracted.animationScale
    ensures asset.currentAnimationFrame == 0 && asset.animationTime == 0.0 && asset.animationFrameStartTime == 0.0
    ensures asset.colored <==> extracted.mesh.ContainsAttribute(MESH_ATTRIBUTE_COLOR_ID)
    ensures asset.bindGroup == Some(BindGroup(device.nextId - 1, EntityLayoutFor(asset.animationBuffer),
                                              EntityEntries(asset.buffer, asset.animationBuffer)))
  {
    var buffer := device.CreateBufferWithData(VertexData(extracted.mesh, extracted.mesh.CountVertices()));
    var animationBuffer: Option<AnimationBuffers> := None;
    if extracted.animation.Some? {
      var n := |extracted.mesh.positions|;
      var size := n * F32_SIZE * 3 + F32_SIZE;
      assert size % F32_SIZE == 0 && size / F32_SIZE == AnimationSlots(n);
      var first := device.CreateBuffer(size);
      var next := device.CreateBuffer(size);
      animationBuffer := Some(AnimationBuffers(first, next));
    }
    asset := new PreparedPointCloudAsset(buffer, AsU32(extracted.mesh.CountVertices()), animationBuffer,
                                         extracted.animation, extracted.animationScale,
                                         extracted.mesh.ContainsAttribute(MESH_ATTRIBUTE_COLOR_ID));
    asset.UpdateBindGroup(device);
  }

  // ----- draw lists -----

  /** A view and the entities visible from it, in visibility order. */
  datatype View = View(entity: Entity, visible: seq<Entity>)

  /** `PointCloudDrawData`; the cached pipeline id is its key. */
  datatype PointCloudDrawData = PointCloudDrawData(entity: Entity, pipeline: PointCloudPipelineKey)

  /** The entity has a point-cloud handle, and the handle a prepared asset. */
  predicate Resolves(e: Entity, items: map<Entity, Handle>, assets: map<Handle, PreparedPointCloudAsset>)
  {
    e in items && items[e] in assets
  }

  /** The draw list of one view over the entities `visible`, built front to back. */
  function DrawList(visible: seq<Entity>, items: map<Entity, Handle>, assets: map<Handle, PreparedPointCloudAsset>, msaa: nat)
    : (list: seq<PointCloudDrawData>)
    reads set h | h in assets :: assets[h]
    ensures |list| <= |visible|
  {
    if |visible| == 0 then []
    else
      var front := DrawList(visible[..|visible| - 1], items, assets, msaa);
      var e := visible[|visible| - 1];
      if Resolves(e, items, assets) then front + [PointCloudDrawData(e, KeyOf(assets[items[e]], msaa))] else front
  }

  /**
    A draw list holds exactly the visible entities that resolve to a prepared
    asset, each with the key of its asset.
  */
  lemma {:induction false} DrawListMembers(visible: seq<Entity>, items: map<Entity, Handle>,
                                           assets: map<Handle, PreparedPointCloudAsset>, msaa: nat)
    ensures forall d :: d in DrawList(visible, items, assets, msaa) ==>
              d.entity in visible && Resolves(d.entity, items, assets) && d.pipeline == KeyOf(assets[items[d.entity]], msaa)
    ensures forall e :: e in visible && Resolves(e, items, assets) ==>
              PointCloudDrawData(e, KeyOf(assets[items[e]], msaa)) in DrawList(visible, items, assets, msaa)
  {
    if |visible| > 0 {
      var front := visible[..|visible| - 1];
      DrawListMembers(front, items, assets, msaa);
      assert visible == front + [visible[|visible| - 1]];
    }
  }

  /** Draw lists respect visibility order: the list of a concatenation is the concatenation of the lists. */
  lemma {:induction false} DrawListAppend(a: seq<Entity>, b: seq<Entity>, items: map<Entity, Handle>,
                                          assets: map<Handle, PreparedPointCloudAsset>, msaa: nat)
    ensures DrawList(a + b, items, assets, msaa) == DrawList(a, items, assets, msaa) + DrawList(b, items, assets, msaa)
  {
    if |b| == 0 {
      assert a + b == a;
    } else {
      var front := b[..|b| - 1];
      DrawListAppend(a, front, items, assets, msaa);
      assert (a + b)[..|a + b| - 1] == a + front;
    }
  }

  predicate DistinctViews(views: seq<View>)
  {
    forall i, j :: 0 <= i < j < |views| ==> views[i].entity != views[j].entity
  }

  /**
    `queue_point_cloud`: each view with a non-empty draw list receives it as
    its `PointCloudDrawList`; no other entity receives one.
  */
  method QueuePointCloud(views: seq<View>, items: map<Entity, Handle>, assets: map<Handle, PreparedPointCloudAsset>,
                         msaaResource: Option<nat>)
    returns (inserted: map<Entity, seq<PointCloudDrawData>>)
    requires DistinctViews(views)
    ensures forall e :: e in inserted ==> exists i :: 0 <= i < |views| && views[i].entity == e
    ensures forall i :: 0 <= i < |views| ==>
              var list := DrawList(views[i].visible, items, assets, SampleCount(msaaResource));
              (views[i].entity in inserted <==> list != []) &&
              (views[i].entity in inserted ==> inserted[views[i].entity] == list)
  {
    var msaa := SampleCount(msaaResource);
    inserted := map[];
    for v := 0 to |views|
      invariant forall e :: e in inserted ==> exists i :: 0 <= i < v && views[i].entity == e
      invariant forall i :: 0 <= i < v ==>
                  var list := DrawList(views[i].visible, items, assets, msaa);
                  (views[i].entity in inserted <==> list != []) &&
                  (views[i].entity in inserted ==> inserted[views[i].entity] == list)
    {
      var view := views[v];
      var list := [];
      for j := 0 to |view.visible|
        invariant list == DrawList(view.visible[..j], items, assets, msaa)
      {
        var entity := view.visible[j];
        assert view.visible[..j + 1][..j] == view.visible[..j];
        if entity in items && items[entity] in assets {
          var asset := assets[items[entity]];
          var key := PointCloudPipelineKey(asset.colored, asset.animationBuffer.Some?, msaa);
          list := list + [PointCloudDrawData(entity, key)];
        }
      }
      assert view.visible[..|view.visible|] == view.visible;
      if list != [] {
        inserted := inserted[view.entity := list];
      }
    }
  }
}
