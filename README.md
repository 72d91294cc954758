# Point-cloud rendering plugin: a verified model of its sequential core

This project models, in Dafny, the parts of a Bevy point-cloud rendering
plugin that are sequential logic rather than GPU plumbing, and proves what
they promise:

- the **playback controls table** (`playback.dfy`): one `{time, playing, speed}`
  entry per animated asset handle, a read accessor that falls back to the
  default entry, a get-or-insert accessor, and the per-tick system that prunes
  entries and advances the playing ones with `rem_euclid` wrapping;
- the **animation frame stepper** of `prepare_animated_assets`
  (`animation.dfy`): per prepared asset, the clock, the clamped interpolation
  factor, the keyframe index with wrap-around, the double-buffered animation
  buffers swapped by identity, the flattened `view[i * 3 + j]` upload and the
  rebuilt bind group;
- **pipeline specialization** for the point-cloud and eye-dome pipelines, the
  bind group layouts, and the per-render-target memo of `queue_view_targets`
  (`pipeline.dfy`);
- the **render-world side** (`render.dfy`): extraction of point-cloud entities,
  the prepared asset with its buffers and entity bind group, and the per-view
  draw lists;
- **clipping-plane collection** into a fixed 16-slot uniform (`clipping_planes.dfy`);
- the **three asset loaders**: the LAS/LAZ loader with its Y/Z exchange, colour
  normalisation and unit-cube normalisation (`las_loader.dfy`), the earlier
  LAS loader with its 500000-point cap and intensity colour
  (`legacy_loader.dfy`), and the OPD loader with its bounding-box recentring
  (`opd_loader.dfy`); the shared running bounds are in `bounds.dfy`;
- the asset type and its **animation duration** (`point_cloud.dfy`).

`f32` values are modelled as `real`. The render device and queue (`gpu.dfy`)
hand out identity tokens for buffers, textures and bind groups; buffer
contents are ghost state, one `real` per 4-byte slot, and `write_buffer`
overwrites a run of slots. A cached pipeline id is modelled by its
specialization key, since the cache hands out one id per key and
`Pipeline.SpecializeIsInjective` shows that distinct keys give distinct
pipelines.

The source files are snapshots of different versions of the plugin and are
modelled each on its own terms: `pipeline.rs` has a singular
`PointCloudPlaybackControl` resource (playing, speed 5) that gates
`prepare_animated_assets`, while `playback.rs` has the per-handle table.

Where the design description and the code disagree, the model follows the
code:

- When the animation wraps from the last keyframe to the first, the design
  description resets the frame start time to zero. The code sets it to the
  pre-wrap clock (`src/pipeline.rs:569`) before resetting the clock to zero
  (`src/pipeline.rs:573`). `Animation.WrapKeepsStartTime` states the code's
  behaviour. `Animation.InterpolationSaturatesAfterWrap` states a consequence:
  the interpolation factor stays clamped at 1 while the clock is still in the
  first keyframe.
- The LAS loader stores its colours under its own attribute id 1, not under the
  engine's colour attribute, whose id differs from 1 (its numeric value
  depends on the engine version), which is what preparation checks.
  `LasLoader.LoadedAssetIsNotColored` states that a loaded LAS asset is
  therefore never prepared as coloured.

## Model

| member | source | states |
|---|---|---|
| Geometry.Min | src/las_loader.rs:27-35 | `Point::min` is component-wise: each component is at most both inputs' and equals one of them (the copy in `src/loader.rs:25-33` is the same) |
| Geometry.Max | src/las_loader.rs:36-44 | `Point::max` is component-wise: each component is at least both inputs' and equals one of them |
| Bounds.LowerIsLowerBound | src/las_loader.rs:95-105 | the running minimum, started at `f32::MAX`, is below every visited point on every axis |
| Bounds.UpperIsUpperBound | src/las_loader.rs:95-105 | the running maximum, started at `f32::MIN`, is above every visited point on every axis |
| Bounds.LowerIsAttained | src/las_loader.rs:95-105 | once one finite point has been visited the sentinel is gone: the minimum is some visited point's coordinate |
| Bounds.UpperIsAttained | src/las_loader.rs:95-105 | likewise, the maximum is some visited point's coordinate |
| Bounds.LargestExtent | src/las_loader.rs:122-129 | `scale` is at least every axis extent `max - min` and equals one of them |
| Bounds.NormalizedInUnitCube | src/las_loader.rs:128-137 | with `scale > 0`, every normalised coordinate `(p - min) / scale` lies in [0, 1] |
| Bounds.MinimumMapsToZero | src/las_loader.rs:128-137 | on every axis some point is normalised to exactly 0 |
| Bounds.DominantAxisMapsToOne | src/las_loader.rs:128-137 | on the axis of largest extent some point is normalised to exactly 1 |
| PointCloud.Mesh.CountVertices | src/render.rs:205 | the vertex count is at most the length of every attribute and equals one of them |
| PointCloud.AnimationDuration | src/point_cloud.rs:11-17 | a duration exists exactly for I8 keyframes, and it is the last keyframe's time converted from milliseconds to seconds; an empty I8 track is excluded because `unwrap` panics |
| Playback.DefaultControls | src/playback.rs:17-25 | the default entry is at time 0, paused, at speed 1 |
| Playback.RemEuclidInPeriod | src/playback.rs:59 | `rem_euclid` puts the time in `[0, abs(d))` for either sign of time and period, a whole number of periods from the unwrapped time |
| Playback.AdvanceWrapsIntoPeriod | src/playback.rs:56-60 | a playing entry keeps playing at its speed and its new time is `time + speed * dt` wrapped into one period; a paused entry is unchanged |
| Playback.Retained | src/playback.rs:44-63 | the tick adds no key, keeps an entry exactly when its asset exists and has a duration, and leaves kept paused entries unchanged; it asks only that the table's entries' assets have a duration that can be taken, non-zero for playing entries |
| Playback.RetainedTimesInPeriod | src/playback.rs:56-60 | every kept playing entry ends with `0 <= time < abs(duration)`, even for negative speed |
| Playback.SizeKeptIffNothingPruned | src/playback.rs:42-65 | the table's size is unchanged exactly when no entry was pruned |
| Playback.PointCloudPlaybackControls.constructor | src/playback.rs:5-8 | the derived default table is empty |
| Playback.PointCloudPlaybackControls.Controls | src/playback.rs:28-30 | the stored entry for a known handle, the default entry for an unknown one; reading only |
| Playback.PointCloudPlaybackControls.ControlsMut | src/playback.rs:32-34 | afterwards the table holds the handle; an existing entry and the rest of the table are unchanged, otherwise only a default entry is inserted; the returned entry is the stored one |
| Playback.PointCloudPlaybackControls.PlaybackSystem | src/playback.rs:36-68 | the new table is `Retained` of the old one, and the change flag is raised exactly when some kept entry was playing or the size changed |
| Gpu.Overwrite | src/pipeline.rs:596-601 | a write replaces exactly the slots from its offset on, keeps the length and every other slot |
| Gpu.Device.CreateBuffer | src/render.rs:187-198 | a new buffer, distinct from every existing one, of `size / 4` zero slots; no other buffer changes |
| Gpu.Device.CreateBufferWithData | src/render.rs:172-176 | a new buffer holding exactly the given data; no other buffer changes |
| Gpu.Device.CreateTexture | src/pipeline.rs:480 | a new texture; no buffer changes |
| Gpu.Device.CreateBindGroup | src/render.rs:141-149 | a new bind group with the given layout and entries; no buffer changes |
| Gpu.Device.WriteBuffer | src/pipeline.rs:590-601 | only the written buffer changes, at the slots from `offset / 4` on |
| Pipeline.LayoutEntries | src/pipeline.rs:143-191 | the entity layout has one read-only storage binding, the animated one three, numbered 0, 1, 2; the eye-dome image layouts (lines 324-352) have one texture binding, multisampled only in the multisampled layout |
| Pipeline.ShaderDefs | src/pipeline.rs:239-248 | the defines hold "COLORED" iff coloured and "ANIMATED" iff animated, "COLORED" first, nothing else |
| Pipeline.Specialize | src/pipeline.rs:219-318 | three layouts `[view, animated ? animated entity : entity, model]`; vertex and fragment defines both exactly `ShaderDefs(colored, animated)` ("COLORED" first, nothing else); a `Depth32Float` depth test with `Greater` compare and depth writes; multisample count `key.msaa`, every sample; no push constants |
| Pipeline.SpecializeIsInjective | src/pipeline.rs:219-318 | different keys give different pipeline descriptors |
| Pipeline.EyeDomeImageLayoutFor | src/pipeline.rs:369-373 | the multisampled image layout is chosen exactly when `msaa > 1` |
| Pipeline.EyeDomeSpecialize | src/pipeline.rs:364-438 | one layout chosen by `msaa`, defines `["MULTISAMPLED"]` iff `msaa > 1` in both stages, multisample count `msaa`, no depth stencil, one 4-byte fragment push-constant range |
| Pipeline.EyeDomeLayoutAgreesWithSamples | src/pipeline.rs:324-380 | the eye-dome layout's texture is multisampled exactly when the pipeline is, and the define says the same |
| Pipeline.DefaultPlaybackControl | src/pipeline.rs:518-525 | the singular playback resource defaults to playing at speed 5 |
| Pipeline.ViewTargetMatchesPipeline | src/pipeline.rs:469-505 | a memoised view target's bind group has the layout its pipeline expects, one entry per layout entry, and a multisampled texture exactly when its depth texture has more than one sample |
| Pipeline.FirstSizeIsFirstCamera | src/pipeline.rs:461-469 | the size a render target's view target is built for is that of the first sized camera drawing to it, and there is none when no sized camera draws to it |
| Pipeline.SampleCount | src/pipeline.rs:458 | a missing `Msaa` resource means one sample |
| Pipeline.EntryOrInsert | src/pipeline.rs:469-506 | a render target met for the first time gets a new depth texture, bind group and pipeline sized for this camera; one met before keeps its view target |
| Pipeline.MemoisedSkipsUnsized | src/pipeline.rs:462 | a camera without a physical target size leaves the memo as it is |
| Pipeline.InsertedStep | src/pipeline.rs:508 | each sized camera is given its render target's view target |
| Pipeline.QueueViewTargets | src/pipeline.rs:448-511 | exactly the sized cameras get a view target, built for the first size seen for their render target; two cameras get the same view target iff they share a render target; no buffer changes |
| Render.ExtractOne | src/render.rs:40-51 | the extracted pair carries the entity, its handle, its point size and its transform |
| Render.PointCloudExtraction.constructor | src/render.rs:35 | the `Local<usize>` capacity hint starts at 0 |
| Render.PointCloudExtraction.ExtractPointCloud | src/render.rs:33-54 | one extracted pair per queried entity, in query order, and the capacity hint becomes their number |
| Render.EntityLayoutFor | src/render.rs:143-147 | the animated entity layout iff the asset has animation buffers |
| Render.EntityEntries | src/render.rs:127-140 | slot 0 binds the point buffer; slots 1 and 2 are present iff the asset is animated and bind its first and second animation buffer |
| Render.EntityEntriesFitLayout | src/render.rs:127-149 | the entity bind group has one whole-buffer entry per entry of its layout, at the same binding |
| Render.AsU32 | src/render.rs:205 | `as u32` keeps counts below 2^32 and wraps larger ones below 2^32 |
| Render.PreparedPointCloudAsset.constructor | src/render.rs:203-216 | the struct literal: frame 0, clock 0, frame start 0, no bind group yet, the other fields as given |
| Render.PreparedPointCloudAsset.UpdateBindGroup | src/render.rs:122-151 | afterwards the bind group is a new one over the asset's current buffers with the layout matching whether it is animated; no buffer changes |
| Render.KeyOf | src/render.rs:85-89 | the pipeline key is the asset's `colored`, whether it has animation buffers, and the sample count |
| Render.PipelineMatchesBindGroup | src/render.rs:85-91 | the pipeline specialized for an asset's key expects, in its entity slot, the layout of the asset's bind group |
| Render.PrepareAsset | src/render.rs:165-219 | a new point buffer holding the vertex data; two new zero-filled animation buffers of `n * 3 + 1` slots (`n * 3 * 4 + 4` bytes) iff the asset is animated; state at frame 0, clock 0, start 0; `colored` iff the mesh has the engine's colour attribute; a bind group already built; earlier buffers unchanged |
| Render.DrawList | src/render.rs:79-97 | a view's draw list has at most one entry per visible entity |
| Render.DrawListMembers | src/render.rs:79-97 | the draw list holds exactly the visible entities whose handle resolves to a prepared asset, each with its asset's key |
| Render.DrawListAppend | src/render.rs:79-97 | the draw list keeps visibility order: the list of `a + b` is the list of `a` followed by the list of `b` |
| Render.QueuePointCloud | src/render.rs:66-104 | each view receives its draw list iff the list is non-empty, and nothing else receives one |
| Animation.Swapped | src/pipeline.rs:588 | the swap exchanges the two buffers of the pair |
| Animation.Interpolation | src/pipeline.rs:557-559 | the factor is at most 1, and below 1 it is the time elapsed in the keyframe over the keyframe's length |
| Animation.Tick | src/pipeline.rs:554-574 | the keyframe index stays inside the keyframes |
| Animation.TickSteps | src/pipeline.rs:566-574 | before the keyframe's end only the clock moves; at its end the start moves to the clock, the buffers swap, and the index steps by one or wraps to 0 with the clock reset to 0 |
| Animation.WrapKeepsStartTime | src/pipeline.rs:569-574 | on the wrap the frame start keeps the pre-wrap clock while index and clock become 0 |
| Animation.InterpolationSaturatesAfterWrap | src/pipeline.rs:557-559 | in frame 0 after a wrap whose start lies beyond the first keyframe's end, the factor is exactly 1 |
| Animation.InterpolationIsFraction | src/pipeline.rs:557-559 | with the clock between the frame start and the keyframe's end, the factor lies in [0, 1] |
| Animation.FrameView | src/pipeline.rs:550 | the view has `num_points * 3` slots |
| Animation.FrameViewLayout | src/pipeline.rs:576-584 | `view[i * 3 + j]` is point `i`'s displacement times the animation scale on axis `j`; the slots past the keyframe's points are 0 |
| Animation.FlattenFrame | src/pipeline.rs:550-584 | the nested loop fills the view exactly as `FrameView` says |
| Animation.Uploaded | src/pipeline.rs:560-601 | a tick writes only the asset's two animation buffers, and keeps every buffer's length |
| Animation.UploadedSlots | src/pipeline.rs:560-601 | the factor is at slot 0 of the buffer that was next; at a keyframe's end the other buffer gets 0 at slot 0 and the new keyframe's view from slot 1 (byte 4); otherwise it is unchanged |
| Animation.AdvanceClock | src/pipeline.rs:554-565 | the clock advances by `dt * speed` and the factor is written at slot 0 of the next buffer, nothing else |
| Animation.NextKeyframe | src/pipeline.rs:569-602 | the start moves to the clock, the index steps or wraps to 0 with the clock, the pair is swapped, the new next buffer holds 0 then the new keyframe's view, and the bind group is rebuilt over the swapped pair |
| Animation.AnimateAsset | src/pipeline.rs:547-603 | one asset's new state is `Tick` of its old state, its buffers hold what `Uploaded` says, and its bind group is rebuilt exactly when the keyframe ends |
| Animation.TickAnimated | src/pipeline.rs:547-603 | an animated asset is ticked and only its own animation buffers are written |
| Animation.TickAt | src/pipeline.rs:546-604 | one loop step handles asset `i` and leaves every other asset and its buffers alone |
| Animation.UploadedLocal | src/pipeline.rs:560-601 | the writes to an asset's buffers depend only on what those two buffers held |
| Animation.TickedKeepsOthers | src/pipeline.rs:546-604 | writing another asset's buffers does not undo this asset's tick |
| Animation.TickedUpToStep | src/pipeline.rs:546-604 | handling asset `i` extends the handled prefix by one, because the assets' animation buffers are disjoint |
| Animation.PrepareAnimatedAssets | src/pipeline.rs:535-605 | paused: no asset, buffer or id changes; playing: every animated asset is ticked by `dt * speed`, every asset without animation buffers is unchanged, and no other buffer is written |
| ClippingPlanes.DefaultKeepsFrontHalfSpace | src/clippling_planes.rs:21-28 | the default range (0 to +infinity) keeps exactly the points at non-negative signed distance |
| ClippingPlanes.DefaultRanges | src/clippling_planes.rs:44-48 | the default uniform has 16 all-zero slots, none in use |
| ClippingPlanes.CollectClippingPlanes | src/clippling_planes.rs:60-79 | `num_ranges == min(n, 16)`; slot `i` below it holds plane `i` in query order; the rest keep the default; the warning is raised iff `n > 16` |
| ClippingPlanes.ClippingPlaneUniform.constructor | src/clippling_planes.rs:53-54 | the uniform starts at the default value |
| ClippingPlanes.ClippingPlaneUniform.ExtractClippingPlanes | src/clippling_planes.rs:56-81 | the uniform's value becomes the collected planes, with the same guarantees |
| LasLoader.LasExtensionsAre | src/las_loader.rs:80-82 | the accepted extensions are exactly "las" and "laz" |
| LasLoader.Position | src/las_loader.rs:102 | the stored position is `(x, z, y)`: Y and Z exchanged |
| LasLoader.RawPositions | src/las_loader.rs:97-106 | one position per point, in file order |
| LasLoader.ChannelInUnitInterval | src/las_loader.rs:110-112 | a 16-bit channel over 65535 lies in [0, 1] |
| LasLoader.PointColorChannels | src/las_loader.rs:107-118 | with RGB each channel is the 16-bit value over 65535, in [0, 1], in red, green, blue order; without it every channel is the intensity over 100 |
| LasLoader.Colors | src/las_loader.rs:107-121 | one colour per point, in file order |
| LasLoader.NormalizedPositions | src/las_loader.rs:128-137 | every position becomes `(p - min) / scale` for the bounds of all positions |
| LasLoader.ReadPoints | src/las_loader.rs:95-121 | the positions and colours of all points in order, with the running bounds of the positions |
| LasLoader.NormalizePositions | src/las_loader.rs:130-137 | the in-place loop normalises every position |
| LasLoader.Load | src/las_loader.rs:84-147 | a read or header error is returned unchanged; otherwise the asset of the normalised positions and the colours, with no animation |
| LasLoader.LoadedPositionsFillUnitCube | src/las_loader.rs:122-137 | with a positive scale every loaded coordinate lies in [0, 1] |
| LasLoader.OnePositionAndColorPerPoint | src/las_loader.rs:97-121 | positions and colours have one entry per point, so the mesh counts one vertex per point |
| LasLoader.LoadedAssetIsNotColored | src/las_loader.rs:139 | the colour attribute id 1 is not the engine's colour attribute id that preparation checks, so the asset is never prepared as coloured |
| LasLoader.LoadedAssetIsStatic | src/las_loader.rs:140-144 | no animation, no duration, and a zero animation scale |
| LegacyLoader.LegacyPosition | src/loader.rs:69 | the stored position is `(x, y, z)`, with no exchange of axes |
| LegacyLoader.LegacyPositions | src/loader.rs:64-74 | one position per point read, in order |
| LegacyLoader.Intensities | src/loader.rs:76-84 | one scalar colour per point read: its intensity times 0.001 |
| LegacyLoader.PointReader.constructor | src/loader.rs:59-60 | a new reader is at the first point |
| LegacyLoader.PointReader.ReadPoint | src/loader.rs:64-68 | a read returns the point at the cursor and moves past it, or nothing at the end of the file |
| LegacyLoader.PointReader.Rewind | src/loader.rs:76-77 | the corrected colour read starts from the first point again |
| LegacyLoader.TakePositions | src/loader.rs:64-74 | the read takes `min(remaining, 500000)` points from the cursor on, with their running bounds |
| LegacyLoader.TakeIntensities | src/loader.rs:76-84 | the read takes `min(remaining, 500000)` intensities from the cursor on |
| LegacyLoader.LoadAsWritten | src/loader.rs:53-107 | as written: the positions come from the first `n` points and the colours from the points after them |
| LegacyLoader.AsWrittenLosesColors | src/loader.rs:64-84 | as written, a file of at most 500000 points gets every position but no colour |
| LegacyLoader.TwoPointFileLosesColors | src/loader.rs:64-84 | a concrete two-point file that loads two positions and no colour |
| LegacyLoader.NormalizeLegacy | src/loader.rs:86-99 | `scale` is the largest extent and every position becomes `(p - min) / scale` |
| LegacyLoader.Load | src/loader.rs:53-107 | corrected: positions and colours come from the same first `min(n, 500000)` points |
| LegacyLoader.OneColorPerPosition | src/loader.rs:64-99 | corrected: one colour per position, colour `k` is point `k`'s intensity times 0.001, position `k` is point `k` normalised, and in [0, 1] when the scale is positive |
| LegacyLoader.LegacyExtensionsAre | src/loader.rs:108-110 | the accepted extensions are exactly "las" and "laz" |
| OpdLoader.OpdExtensionsAre | src/opd_loader.rs:41-43 | the accepted extension is exactly "opd" |
| OpdLoader.Recentred | src/opd_loader.rs:23-27 | one position per centroid, in order, each moved by `min + (max - min) / 2` |
| OpdLoader.Translate | src/opd_loader.rs:25-27 | the in-place loop subtracts the offset from every position |
| OpdLoader.LoadOpd | src/opd_loader.rs:10-37 | a parse error is returned and no asset produced; otherwise the recentred centroids, the file's keyframes unchanged and the header's scale |
| OpdLoader.RecentredWithinHalfSize | src/opd_loader.rs:23-27 | after recentring every coordinate lies in `[-size/2, size/2]` on its axis |
| OpdLoader.RecentredReachesBothEnds | src/opd_loader.rs:14-27 | on every axis some centroid lands at `-size/2` and some at `+size/2`: the box is symmetric about the origin |
| OpdLoader.RecentredKeepsDifferences | src/opd_loader.rs:25-27 | recentring is a translation: differences between positions are kept, nothing is rescaled |
| OpdLoader.OpdAssetDuration | src/opd_loader.rs:32-36 | a loaded OPD asset with I8 keyframes lasts until its last keyframe's time in seconds |

## Left out

- Floating-point behaviour: `f32` is modelled as `real`, so rounding, NaN and the infinities of arithmetic are not modelled. Only the clipping ranges keep `+infinity`, as a value.
- Divisions the source performs unguarded are preconditions. In the loaders, the largest extent must not be zero; it is zero for a single point, or when all points are at one place.
- `Playback.Tickable`: a playing table entry whose asset's animation lasts 0 ms is excluded, because the source's `rem_euclid` by zero gives NaN. Assets no entry refers to, and paused entries, are not constrained.
- `Animation.Animatable`: the current keyframe must not end at the frame start time, because the source divides by the difference. This excludes the first tick of every track whose first keyframe is at 0 ms, since a prepared asset starts at frame 0 with start time 0. The source handles that tick: `(delta / 0.0).min(1.0)` is 1.0 for `delta >= 0` (infinity, or NaN, which `min` discards), and the keyframe then steps. For a negative `delta` the source writes negative infinity, which a `real` cannot hold.
- `Animation.Animatable`: an animated asset's I8 track must not be empty (the current frame index must lie inside it). With an empty track and playback on, the source's `&frames[asset.current_animation_frame]` (`src/pipeline.rs:554`) indexes slot 0 of the empty track and panics; the model does not cover that panic.
- `Animation.Animatable`: no keyframe may hold more displacements than the asset's `num_points`. With more, the source's `view[i * 3 + j]` indexes past the view (`src/pipeline.rs:582`) and panics; the model does not cover that panic.
- `Playback.RemEuclid`: `f32::rem_euclid` is modelled as the exact truncated remainder plus `abs(d)` when negative; the `f32` rounding that can return exactly `abs(d)` is not.
- Non-I8 keyframe encodings in `prepare_animated_assets` are `todo!()` (`src/pipeline.rs:586`); the model requires I8 keyframes of an animated asset.
- `animation_duration` panics on an empty I8 track. The model excludes such a track for the assets `playback_system` looks up, which are those of the table's entries, and for `PointCloud.AnimationDuration` itself.
- `Animation.Tick`: its own contract states only that the index stays in range. The full step is stated by `Animation.TickSteps` and `Animation.WrapKeepsStartTime`.
- `Render.DrawList`: its own contract states only the length bound. Its membership and order are stated by `Render.DrawListMembers` and `Render.DrawListAppend`.
- The order in which `prepare_animated_assets` and `playback_system` visit a hash map is not modelled: the assets are a sequence, and `retain` visits the table in an arbitrary order, which the result does not depend on.
- `controls_mut` returns a mutable reference into the table. The model returns the stored entry, and edits through the reference are not modelled.
- Matrix maths: `compute_matrix` and `rotation * Vec3::X` are not modelled. A transform is reduced to its translation and its rotated X axis.
- `get_vertex_buffer_data` and `count_vertices` belong to the engine. The model interleaves position and extra attribute per vertex, and counts the shortest attribute.
- Byte-level decoding of LAS/LAZ and OPD files (external `las` and `opd_parser` crates) is not modelled: the loaders take the decoded points or the parse result as input. A per-point decode error, which the loaders `unwrap`, is not modelled.
- The `expect` on opening the reader in `src/loader.rs` is not modelled, and neither are the `println!` and `warn!` output.
- GPU work is not modelled: the real device, texture-cache reuse across frames, the byte casts of `write_buffer`, `prepare_clipping_planes` and `queue_point_cloud_bind_group`.
- `src/render_graph.rs`, `src/lib.rs`, `src/main.rs`, the examples, `src/wpo_loader.rs` (its body is `todo!()`) and the shader programs are not part of this model.
- Integer widths: only `count_vertices() as u32` is written out (`Render.AsU32`). The `u32` counter of the clipping uniform never exceeds 16.

## Findings

| source | as written | input that shows it | evidently intended | confidence | as-written member | corrected member |
|---|---|---|---|---|---|---|
| src/loader.rs:76-84 | the colour read calls `reader.points()` again on the same reader, which continues after the points the position read took, so the colours come from points `n..` instead of `0..n` | a file with the two points `(0,0,0)` and `(1,2,3)`: two positions, no colour | positions and colours from the same first `min(n, 500000)` points, one colour per position | not executed | LegacyLoader.AsWrittenLosesColors | LegacyLoader.OneColorPerPosition |
