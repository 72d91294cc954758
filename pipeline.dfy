/**
  The two specialized render pipelines and the per-camera eye-dome-lighting
  targets. A pipeline is specialized from a small key: the point-cloud
  pipeline from `{colored, animated, msaa}`, the eye-dome pipeline from
  `{msaa}`. The specialized-pipeline cache hands out one id per key, so a
  cached pipeline id is modelled by its key. Also here: the bind group
  layouts the pipelines create at start-up, and the singular playback
  resource `PointCloudPlaybackControl` with its default.
*/
module Pipeline {
  import opened Geometry
  import opened PointCloud
  import opened Gpu

  datatype PointCloudPipelineKey = PointCloudPipelineKey(colored: bool, animated: bool, msaa: nat)

  datatype EyeDomePipelineKey = EyeDomePipelineKey(msaa: nat)

  // ----- bind group layouts -----

  datatype ShaderStages = VertexStage | FragmentStage | VertexAndFragment

  datatype BufferBindingType = Uniform | ReadOnlyStorage

  /** A buffer binding, or a non-filterable float 2D texture binding. */
  datatype BindingType =
    | BufferBinding(ty: BufferBindingType, hasDynamicOffset: bool)
    | FloatTexture2d(multisampled: bool)

  datatype BindGroupLayoutEntry = BindGroupLayoutEntry(binding: nat, visibility: ShaderStages, ty: BindingType)

  /** The entries each layout is created with; the bindings of every layout are numbered 0, 1, ... in order. */
  function LayoutEntries(layout: BindGroupLayout): (es: seq<BindGroupLayoutEntry>)
    ensures forall i :: 0 <= i < |es| ==> es[i].binding == i
    ensures layout == EntityLayout ==> |es| == 1
    ensures layout == AnimatedEntityLayout ==> |es| == 3
    ensures layout in {EntityLayout, AnimatedEntityLayout} ==>
              forall i :: 0 <= i < |es| ==> es[i].ty == BufferBinding(ReadOnlyStorage, false)
    ensures layout in {EyeDomeImageLayout, MultisampledEyeDomeImageLayout} ==>
              |es| == 1 && es[0].ty == FloatTexture2d(layout == MultisampledEyeDomeImageLayout)
  {
    var storage := BufferBinding(ReadOnlyStorage, false);
    match layout
    case ViewLayout =>
      [BindGroupLayoutEntry(0, VertexAndFragment, BufferBinding(Uniform, true)),
       BindGroupLayoutEntry(1, VertexStage, BufferBinding(Uniform, false))]
    case EntityLayout =>
      [BindGroupLayoutEntry(0, VertexStage, storage)]
    case AnimatedEntityLayout =>
      [BindGroupLayoutEntry(0, VertexStage, storage),
       BindGroupLayoutEntry(1, VertexStage, storage),
       BindGroupLayoutEntry(2, VertexStage, storage)]
    case ModelLayout =>
      [BindGroupLayoutEntry(0, VertexAndFragment, BufferBinding(Uniform, true))]
    case EyeDomeImageLayout =>
      [BindGroupLayoutEntry(0, FragmentStage, FloatTexture2d(false))]
    case MultisampledEyeDomeImageLayout =>
      [BindGroupLayoutEntry(0, FragmentStage, FloatTexture2d(true))]
  }

  // ----- pipeline descriptors -----

  datatype ShaderHandle = PointCloudVertShader | PointCloudFragShader | EyeDomeLightingShader

  datatype VertexFormat = Float32x2

  datatype VertexAttribute = VertexAttribute(format: VertexFormat, offset: nat, shaderLocation: nat)

  /** A per-vertex buffer layout. */
  datatype VertexBufferLayout = VertexBufferLayout(arrayStride: nat, attributes: seq<VertexAttribute>)

  datatype VertexState = VertexState(shader: ShaderHandle, shaderDefs: seq<string>, entryPoint: string, buffers: seq<VertexBufferLayout>)

  datatype TextureFormat = Rgba8UnormSrgb | R32Float | Depth32Float | BevyDefault

  datatype BlendFactor = Zero | One | SrcAlpha

  /** A blend component whose operation is `Add`. */
  datatype BlendComponent = BlendComponent(srcFactor: BlendFactor, dstFactor: BlendFactor)

  datatype BlendState = BlendState(color: BlendComponent, alpha: BlendComponent)

  /** `BlendState::REPLACE`. */
  const REPLACE: BlendState := BlendState(BlendComponent(One, Zero), BlendComponent(One, Zero))

  datatype ColorWrites = AllChannels | RedChannel | ColorChannels

  datatype ColorTargetState = ColorTargetState(format: TextureFormat, blend: Option<BlendState>, writeMask: ColorWrites)

  datatype FragmentState = FragmentState(shader: ShaderHandle, shaderDefs: seq<string>, entryPoint: string, targets: seq<Option<ColorTargetState>>)

  /** Both pipelines draw counter-clockwise triangle strips, filled, without culling. */
  datatype PrimitiveTopology = TriangleStrip

  /** Depth test and write; stencil ignored and no depth bias. */
  datatype DepthStencilState = DepthStencilState(format: TextureFormat, depthWriteEnabled: bool, compareGreater: bool)

  datatype MultisampleState = MultisampleState(count: nat, mask: nat, alphaToCoverageEnabled: bool)

  /** `!0` as a `u64` sample mask: every sample. */
  const ALL_SAMPLES: nat := 0xFFFF_FFFF_FFFF_FFFF

  datatype PushConstantRange = PushConstantRange(stages: ShaderStages, start: nat, end: nat)

  datatype RenderPipelineDescriptor = RenderPipelineDescriptor(
    name: string,
    layout: seq<BindGroupLayout>,
    vertex: VertexState,
    fragment: Option<FragmentState>,
    topology: PrimitiveTopology,
    depthStencil: Option<DepthStencilState>,
    multisample: MultisampleState,
    pushConstantRanges: seq<PushConstantRange>)

  /** The instanced quad: one `Float32x2` corner per vertex, 8 bytes apart. */
  const QUAD_VERTEX_BUFFER_LAYOUT: VertexBufferLayout :=
    VertexBufferLayout(8, [VertexAttribute(Float32x2, 0, 0)])

  /**
    The defines both point-cloud shaders are compiled with: "COLORED" exactly
    when the asset is coloured, "ANIMATED" exactly when it is animated,
    "COLORED" first, and nothing else.
  */
  function ShaderDefs(colored: bool, animated: bool): (defs: seq<string>)
    ensures "COLORED" in defs <==> colored
    ensures "ANIMATED" in defs <==> animated
    ensures |defs| == (if colored then 1 else 0) + (if animated then 1 else 0)
    ensures colored ==> defs[0] == "COLORED"
  {
    (if colored then ["COLORED"] else []) + (if animated then ["ANIMATED"] else [])
  }

  /** `PointCloudPipeline::specialize`. */
  function Specialize(key: PointCloudPipelineKey): (d: RenderPipelineDescriptor)
    ensures |d.layout| == 3 && d.layout[0] == ViewLayout && d.layout[2] == ModelLayout
    ensures d.layout[1] == (if key.animated then AnimatedEntityLayout else EntityLayout)
    ensures d.multisample.count == key.msaa && d.multisample.mask == ALL_SAMPLES
    ensures d.fragment.Some? && d.fragment.value.shaderDefs == d.vertex.shaderDefs
    ensures d.vertex.shaderDefs == ShaderDefs(key.colored, key.animated)
    ensures d.depthStencil == Some(DepthStencilState(Depth32Float, true, true))
    ensures d.pushConstantRanges == []
  {
    var defs := ShaderDefs(key.colored, key.animated);
    RenderPipelineDescriptor(
      "point_cloud_pipeline",
      [ViewLayout, if key.animated then AnimatedEntityLayout else EntityLayout, ModelLayout],
      VertexState(PointCloudVertShader, defs, "main", [QUAD_VERTEX_BUFFER_LAYOUT]),
      Some(FragmentState(PointCloudFragShader, defs, "main",
        [Some(ColorTargetState(Rgba8UnormSrgb, Some(REPLACE), AllChannels)),
         Some(ColorTargetState(R32Float, Some(REPLACE), RedChannel))])),
      TriangleStrip,
      Some(DepthStencilState(Depth32Float, true, true)),
      MultisampleState(key.msaa, ALL_SAMPLES, false),
      [])
  }

  /** Different keys give different pipelines, so a pipeline id can stand for its key. */
  lemma SpecializeIsInjective(k1: PointCloudPipelineKey, k2: PointCloudPipelineKey)
    ensures Specialize(k1) == Specialize(k2) ==> k1 == k2
  {
    if Specialize(k1) == Specialize(k2) {
      var defs := Specialize(k1).vertex.shaderDefs;
      assert k1.colored <==> "COLORED" in defs;
      assert k1.animated <==> "ANIMATED" in defs;
    }
  }

  /** The multisampled image layout is used exactly when more than one sample is taken. */
  function EyeDomeImageLayoutFor(msaa: nat): (l: BindGroupLayout)
    ensures l == MultisampledEyeDomeImageLayout <==> msaa > 1
    ensures l in {EyeDomeImageLayout, MultisampledEyeDomeImageLayout}
  {
    if msaa > 1 then MultisampledEyeDomeImageLayout else EyeDomeImageLayout
  }

  /** `EyeDomePipeline::specialize`. */
  function EyeDomeSpecialize(key: EyeDomePipelineKey): (d: RenderPipelineDescriptor)
    ensures d.layout == [EyeDomeImageLayoutFor(key.msaa)]
    ensures d.vertex.shaderDefs == (if key.msaa > 1 then ["MULTISAMPLED"] else [])
    ensures d.fragment.Some? && d.fragment.value.shaderDefs == d.vertex.shaderDefs
    ensures d.multisample.count == key.msaa && d.depthStencil.None?
    ensures d.pushConstantRanges == [PushConstantRange(FragmentStage, 0, F32_SIZE)]
  {
    var defs := if key.msaa > 1 then ["MULTISAMPLED"] else [];
    RenderPipelineDescriptor(
      "EyeDomeLightingPipeline",
      [EyeDomeImageLayoutFor(key.msaa)],
      VertexState(EyeDomeLightingShader, defs, "vertex", [QUAD_VERTEX_BUFFER_LAYOUT]),
      Some(FragmentState(EyeDomeLightingShader, defs, "fragment",
        [Some(ColorTargetState(BevyDefault,
          Some(BlendState(BlendComponent(Zero, SrcAlpha), BlendComponent(One, Zero))),
          ColorChannels))])),
      TriangleStrip,
      None,
      MultisampleState(key.msaa, ALL_SAMPLES, false),
      [PushConstantRange(FragmentStage, 0, F32_SIZE)])
  }

  /**
    The eye-dome pipeline's only layout declares a multisampled texture exactly
    when the pipeline itself is multisampled, and its defines say the same.
  */
  lemma EyeDomeLayoutAgreesWithSamples(key: EyeDomePipelineKey)
    ensures var d := EyeDomeSpecialize(key);
            LayoutEntries(d.layout[0])[0].ty == FloatTexture2d(d.multisample.count > 1)
    ensures "MULTISAMPLED" in EyeDomeSpecialize(key).vertex.shaderDefs <==> EyeDomeSpecialize(key).multisample.count > 1
  {
    var l := EyeDomeImageLayoutFor(key.msaa);
    assert LayoutEntries(l)[0].ty == FloatTexture2d(l == MultisampledEyeDomeImageLayout);
  }

  // ----- playback resource of this snapshot -----

  datatype PointCloudPlaybackControl = PointCloudPlaybackControl(playing: bool, speed: real)

  /** `PointCloudPlaybackControl::default()`: playing, at five times normal speed. */
  function DefaultPlaybackControl(): (c: PointCloudPlaybackControl)
    ensures c.playing && c.speed == 5.0
  {
    PointCloudPlaybackControl(true, 5.0)
  }

  // ----- eye-dome view targets -----

  /** A camera's render target (a window or an image), compared by identity. */
  datatype RenderTarget = RenderTarget(id: nat)

  datatype TargetSize = TargetSize(width: nat, height: nat)

  datatype ExtractedCamera = ExtractedCamera(entity: Entity, physicalTargetSize: Option<TargetSize>, target: RenderTarget)

  /** The depth texture of a view target: a single-mip 2D `R32Float` render attachment that is also sampled. */
  datatype TextureDescriptor = TextureDescriptor(width: nat, height: nat, depthOrArrayLayers: nat, mipLevelCount: nat, sampleCount: nat, format: TextureFormat)

  datatype EyeDomeViewTarget = EyeDomeViewTarget(
    depthTexture: Texture,
    depthDescriptor: TextureDescriptor,
    bindGroup: BindGroup,
    pipeline: EyeDomePipelineKey)

  function DepthDescriptor(size: TargetSize, msaa: nat): TextureDescriptor
  {
    TextureDescriptor(size.width, size.height, 1, 1, msaa, R32Float)
  }

  /** What `or_insert_with` builds for a target first seen with `size`. */
  predicate BuiltFor(v: EyeDomeViewTarget, size: TargetSize, msaa: nat)
  {
    && v.depthDescriptor == DepthDescriptor(size, msaa)
    && v.bindGroup.layout == EyeDomeImageLayoutFor(msaa)
    && v.bindGroup.entries == [BindGroupEntry(0, TextureView(v.depthTexture))]
    && v.pipeline == EyeDomePipelineKey(msaa)
  }

  /** The view target's bind group fits the layout the pipeline specialized for the same key expects. */
  lemma ViewTargetMatchesPipeline(v: EyeDomeViewTarget, size: TargetSize, msaa: nat)
    requires BuiltFor(v, size, msaa)
    ensures EyeDomeSpecialize(v.pipeline).layout == [v.bindGroup.layout]
    ensures |v.bindGroup.entries| == |LayoutEntries(v.bindGroup.layout)|
    ensures LayoutEntries(v.bindGroup.layout)[0].ty == FloatTexture2d(v.depthDescriptor.sampleCount > 1)
  {
    assert LayoutEntries(v.bindGroup.layout)[0].ty == FloatTexture2d(v.bindGroup.layout == MultisampledEyeDomeImageLayout);
  }

  predicate Sized(c: ExtractedCamera)
  {
    c.physicalTargetSize.Some?
  }

  predicate DistinctEntities(cameras: seq<ExtractedCamera>)
  {
    forall i, j :: 0 <= i < j < |cameras| ==> cameras[i].entity != cameras[j].entity
  }

  /** The size of the first of the first `n` cameras that has a size and draws to `target`, if any. */
  function FirstSizeUpTo(cameras: seq<ExtractedCamera>, n: nat, target: RenderTarget): Option<TargetSize>
    requires n <= |cameras|
  {
    if n == 0 then None
    else
      var earlier := FirstSizeUpTo(cameras, n - 1, target);
      if earlier.Some? then earlier
      else if Sized(cameras[n - 1]) && cameras[n - 1].target == target then cameras[n - 1].physicalTargetSize
      else None
  }

  /**
    `FirstSizeUpTo` finds the size of exactly the first sized camera drawing to
    `target`, and finds none when no sized camera draws to it.
  */
  lemma {:induction false} FirstSizeIsFirstCamera(cameras: seq<ExtractedCamera>, n: nat, target: RenderTarget)
    requires n <= |cameras|
    ensures FirstSizeUpTo(cameras, n, target).None? <==>
              forall i :: 0 <= i < n ==> !(Sized(cameras[i]) && cameras[i].target == target)
    ensures FirstSizeUpTo(cameras, n, target).Some? ==>
              exists k :: 0 <= k < n && Sized(cameras[k]) && cameras[k].target == target
                && cameras[k].physicalTargetSize == FirstSizeUpTo(cameras, n, target)
                && forall i :: 0 <= i < k ==> !(Sized(cameras[i]) && cameras[i].target == target)
  {
    if n > 0 {
      FirstSizeIsFirstCamera(cameras, n - 1, target);
      if FirstSizeUpTo(cameras, n - 1, target).None? && Sized(cameras[n - 1]) && cameras[n - 1].target == target {
        assert forall i :: 0 <= i < n - 1 ==> !(Sized(cameras[i]) && cameras[i].target == target);
      }
    }
  }

  /** The cameras that get a view target. */
  function SizedEntities(cameras: seq<ExtractedCamera>): set<Entity>
  {
    set c | c in cameras && Sized(c) :: c.entity
  }

  /** `Msaa` is optional; its absence means one sample. */
  function SampleCount(msaa: Option<nat>): (n: nat)
    ensures msaa.None? ==> n == 1
    ensures msaa.Some? ==> n == msaa.value
  {
    if msaa.Some? then msaa.value else 1
  }

  /**
    The memo `queue_view_targets` keeps after the first `n` cameras: one view
    target per render target met so far, built for the first size seen for it,
    each with a bind group of its own.
  */
  ghost predicate Memoised(cameras: seq<ExtractedCamera>, n: nat, msaa: nat, nextId: nat,
                           textures: map<RenderTarget, EyeDomeViewTarget>)
    requires n <= |cameras|
  {
    && (forall t :: t in textures <==> FirstSizeUpTo(cameras, n, t).Some?)
    && (forall t :: t in textures ==> BuiltFor(textures[t], FirstSizeUpTo(cameras, n, t).value, msaa))
    && (forall t :: t in textures ==> textures[t].bindGroup.id < nextId)
    && (forall t, u :: t in textures && u in textures && t != u ==> textures[t].bindGroup.id != textures[u].bindGroup.id)
  }

  /** After the first `n` cameras, each sized one is mapped to its render target's view target. */
  ghost predicate Inserted(cameras: seq<ExtractedCamera>, n: nat,
                           textures: map<RenderTarget, EyeDomeViewTarget>, inserted: map<Entity, EyeDomeViewTarget>)
    requires n <= |cameras|
  {
    && inserted.Keys == SizedEntities(cameras[..n])
    && (forall i :: 0 <= i < n && Sized(cameras[i]) ==>
          cameras[i].target in textures && inserted[cameras[i].entity] == textures[cameras[i].target])
  }

  /** `textures.entry(camera.target).or_insert_with(...)` for the `n`-th camera, which has a size. */
  method EntryOrInsert(device: Device, cameras: seq<ExtractedCamera>, n: nat, msaa: nat,
                       textures: map<RenderTarget, EyeDomeViewTarget>)
    returns (textures': map<RenderTarget, EyeDomeViewTarget>)
    requires device.Valid() && n < |cameras| && Sized(cameras[n])
    requires Memoised(cameras, n, msaa, device.nextId, textures)
    modifies device
    ensures device.Valid() && device.buffers == old(device.buffers)
    ensures Memoised(cameras, n + 1, msaa, device.nextId, textures')
    ensures textures.Keys <= textures'.Keys && cameras[n].target in textures'
    ensures forall t :: t in textures ==> textures'[t] == textures[t]
  {
    var camera := cameras[n];
    textures' := textures;
    if camera.target !in textures {
      var texture := device.CreateTexture();
      var bindGroup := device.CreateBindGroup(EyeDomeImageLayoutFor(msaa), [BindGroupEntry(0, TextureView(texture))]);
      textures' := textures[camera.target := EyeDomeViewTarget(texture, DepthDescriptor(camera.physicalTargetSize.value, msaa), bindGroup, EyeDomePipelineKey(msaa))];
    }
  }

  lemma MemoisedSkipsUnsized(cameras: seq<ExtractedCamera>, n: nat, msaa: nat, nextId: nat,
                             textures: map<RenderTarget, EyeDomeViewTarget>)
    requires n < |cameras| && !Sized(cameras[n]) && Memoised(cameras, n, msaa, nextId, textures)
    ensures Memoised(cameras, n + 1, msaa, nextId, textures)
  {
  }

  lemma InsertedStep(cameras: seq<ExtractedCamera>, n: nat, textures: map<RenderTarget, EyeDomeViewTarget>,
                     textures': map<RenderTarget, EyeDomeViewTarget>, inserted: map<Entity, EyeDomeViewTarget>)
    requires n < |cameras| && DistinctEntities(cameras) && Inserted(cameras, n, textures, inserted)
    requires textures.Keys <= textures'.Keys && forall t :: t in textures ==> textures'[t] == textures[t]
    requires Sized(cameras[n]) ==> cameras[n].target in textures'
    ensures Inserted(cameras, n + 1, textures',
              if Sized(cameras[n]) then inserted[cameras[n].entity := textures'[cameras[n].target]] else inserted)
  {
    var camera := cameras[n];
    assert cameras[..n + 1] == cameras[..n] + [camera];
    assert SizedEntities(cameras[..n + 1]) == SizedEntities(cameras[..n]) + (if Sized(camera) then {camera.entity} else {});
  }

  /**
    `queue_view_targets`: every camera that knows its physical target size
    gets the view target of its render target. A target's depth texture, bind
    group and pipeline are built the first time the render target is met,
    sized for that camera, and shared by every later camera drawing to it.
  */
  method QueueViewTargets(device: Device, cameras: seq<ExtractedCamera>, msaaResource: Option<nat>)
    returns (inserted: map<Entity, EyeDomeViewTarget>)
    requires device.Valid() && DistinctEntities(cameras)
    modifies device
    ensures device.Valid() && device.buffers == old(device.buffers)
    ensures inserted.Keys == SizedEntities(cameras)
    ensures forall i :: 0 <= i < |cameras| && Sized(cameras[i]) ==>
              FirstSizeUpTo(cameras, |cameras|, cameras[i].target).Some? &&
              BuiltFor(inserted[cameras[i].entity], FirstSizeUpTo(cameras, |cameras|, cameras[i].target).value, SampleCount(msaaResource))
    ensures forall i, j :: 0 <= i < |cameras| && 0 <= j < |cameras| && Sized(cameras[i]) && Sized(cameras[j]) ==>
              (inserted[cameras[i].entity] == inserted[cameras[j].entity] <==> cameras[i].target == cameras[j].target)
  {
    var msaa := SampleCount(msaaResource);
    var textures: map<RenderTarget, EyeDomeViewTarget> := map[];
    inserted := map[];
    for n := 0 to |cameras|
      invariant device.Valid() && device.buffers == old(device.buffers)
      invariant Memoised(cameras, n, msaa, device.nextId, textures)
      invariant Inserted(cameras, n, textures, inserted)
    {
      var camera := cameras[n];
      if camera.physicalTargetSize.Some? {
        var textures' := EntryOrInsert(device, cameras, n, msaa, textures);
        InsertedStep(cameras, n, textures, textures', inserted);
        textures := textures';
        inserted := inserted[camera.entity := textures[camera.target]];
      } else {
        MemoisedSkipsUnsized(cameras, n, msaa, device.nextId, textures);
        InsertedStep(cameras, n, textures, textures, inserted);
      }
    }
    assert cameras[..|cameras|] == cameras;
  }
}
