/**
  `prepare_animated_assets`: each tick, every animated prepared asset advances
  its animation clock, writes the interpolation factor between the previous
  and the next keyframe into its next animation buffer, and, once the current
  keyframe's end time is reached, steps to the following keyframe (wrapping to
  the first), swaps its two animation buffers, uploads the new keyframe's
  scaled displacements and rebuilds its bind group.
*/
module Animation {
  import opened Geometry
  import opened PointCloud
  import opened Gpu
  import opened Pipeline
  import opened Render

  /** The animation state of one prepared asset: frame index, clock, frame start time and buffer pair. */
  datatype AnimState = AnimState(frame: nat, time: real, start: real, buffers: AnimationBuffers)

  /** How far the animation clock moves in one tick: `time.delta_seconds() * playback.speed`. */
  function TimeStep(dt: real, speed: real): real
  {
    dt * speed
  }

  /** A keyframe's end time, converted from milliseconds to seconds. */
  function FrameEnd(frames: seq<Frame>, k: nat): real
    requires k < |frames|
  {
    frames[k].time / 1000.0
  }

  /** The tick reaches the end of the current keyframe. */
  predicate Crosses(s: AnimState, frames: seq<Frame>, step: real)
    requires s.frame < |frames|
  {
    !(FrameEnd(frames, s.frame) > s.time + step)
  }

  /** `mem::swap(next, prev)`. */
  function Swapped(pair: AnimationBuffers): (r: AnimationBuffers)
    ensures r.prev == pair.next && r.next == pair.prev
  {
    AnimationBuffers(pair.next, pair.prev)
  }

  /**
    The interpolation factor written at slot 0 of the next buffer: the time
    elapsed in the current keyframe over the keyframe's length, clamped at 1.
  */
  function Interpolation(s: AnimState, frames: seq<Frame>, step: real): (r: real)
    requires s.frame < |frames| && FrameEnd(frames, s.frame) != s.start
    ensures r <= 1.0
    ensures r < 1.0 ==> r * (FrameEnd(frames, s.frame) - s.start) == s.time + step - s.start
  {
    var duration := FrameEnd(frames, s.frame) - s.start;
    var delta := s.time + step - s.start;
    MinReal(delta / duration, 1.0)
  }

  /** The state after one tick. */
  function Tick(s: AnimState, frames: seq<Frame>, step: real): (r: AnimState)
    requires s.frame < |frames|
    ensures r.frame < |frames|
  {
    var time := s.time + step;
    if FrameEnd(frames, s.frame) > time then s.(time := time)
    else if s.frame + 1 >= |frames| then AnimState(0, 0.0, time, Swapped(s.buffers))
    else AnimState(s.frame + 1, time, time, Swapped(s.buffers))
  }

  /**
    Within a keyframe the clock advances and nothing else changes; at its end
    the frame start moves to the clock, the index steps by one, and the buffer
    pair is swapped.
  */
  lemma TickSteps(s: AnimState, frames: seq<Frame>, step: real)
    requires s.frame < |frames|
    ensures var r := Tick(s, frames, step);
            !Crosses(s, frames, step) ==> r.frame == s.frame && r.start == s.start && r.buffers == s.buffers && r.time == s.time + step
    ensures var r := Tick(s, frames, step);
            Crosses(s, frames, step) ==>
              && r.start == s.time + step
              && r.buffers.prev == s.buffers.next && r.buffers.next == s.buffers.prev
              && (if s.frame + 1 < |frames| then r.frame == s.frame + 1 && r.time == s.time + step
                  else r.frame == 0 && r.time == 0.0)
  {
  }

  /**
    The wrap resets the frame index and the clock but not the frame start time,
    which keeps the clock reading from before the wrap.
  */
  lemma WrapKeepsStartTime(s: AnimState, frames: seq<Frame>, step: real)
    requires s.frame == |frames| - 1 && Crosses(s, frames, step)
    ensures Tick(s, frames, step) == AnimState(0, 0.0, s.time + step, Swapped(s.buffers))
  {
  }

  lemma QuotientAtLeastOne(a: real, b: real)
    requires b < 0.0 && a <= b
    ensures a / b >= 1.0
  {
    assert a / b * b == a;
  }

  lemma QuotientInUnitInterval(a: real, b: real)
    requires 0.0 <= a <= b && b > 0.0
    ensures 0.0 <= a / b <= 1.0
  {
    assert a / b * b == a;
  }

  /**
    Consequence of the wrap: while the clock is still inside the first
    keyframe, and the frame start left over from the wrap lies beyond that
    keyframe's end, the interpolation factor stays clamped at 1.
  */
  lemma {:induction false} InterpolationSaturatesAfterWrap(s: AnimState, frames: seq<Frame>, step: real)
    requires s.frame == 0 && 0 < |frames| && FrameEnd(frames, 0) < s.start
    requires s.time + step <= FrameEnd(frames, 0)
    ensures Interpolation(s, frames, step) == 1.0
  {
    QuotientAtLeastOne(s.time + step - s.start, FrameEnd(frames, 0) - s.start);
  }

  /** When the clock lies between the frame start and the keyframe's end, the factor is a fraction in [0, 1]. */
  lemma {:induction false} InterpolationIsFraction(s: AnimState, frames: seq<Frame>, step: real)
    requires s.frame < |frames| && s.start <= s.time + step <= FrameEnd(frames, s.frame) && s.start < FrameEnd(frames, s.frame)
    ensures 0.0 <= Interpolation(s, frames, step) <= 1.0
  {
    QuotientInUnitInterval(s.time + step - s.start, FrameEnd(frames, s.frame) - s.start);
  }

  /** Slot `k` of the uploaded view: coordinate `k % 3` of point `k / 3`, scaled, or zero past the keyframe's points. */
  function ViewSlot(ds: seq<Vec3>, scale: Vec3, k: nat): real
  {
    if k / 3 < |ds| then ds[k / 3].Mul(scale).Get(k % 3) else 0.0
  }

  /**
    The displacements uploaded for a keyframe: three slots per point, point
    `i`'s displacement scaled by `animation_scale` axis by axis at `i * 3 + j`,
    zero for the points the keyframe does not cover.
  */
  function FrameView(frame: Frame, scale: Vec3, numPoints: nat): (view: seq<real>)
    requires |frame.displacements| <= numPoints
    ensures |view| == numPoints * 3
  {
    seq(numPoints * 3, k requires 0 <= k < numPoints * 3 => ViewSlot(frame.displacements, scale, k))
  }

  /** Where each scaled displacement lands in the view, and that the rest is zero. */
  lemma FrameViewLayout(frame: Frame, scale: Vec3, numPoints: nat)
    requires |frame.displacements| <= numPoints
    ensures forall i, j :: 0 <= i < |frame.displacements| && 0 <= j < 3 ==>
              FrameView(frame, scale, numPoints)[i * 3 + j] == frame.displacements[i].Mul(scale).Get(j)
    ensures forall k :: |frame.displacements| * 3 <= k < numPoints * 3 ==> FrameView(frame, scale, numPoints)[k] == 0.0
  {
    var ds := frame.displacements;
    forall i, j | 0 <= i < |ds| && 0 <= j < 3
      ensures FrameView(frame, scale, numPoints)[i * 3 + j] == ds[i].Mul(scale).Get(j)
    {
      var k := i * 3 + j;
      assert k / 3 == i && k % 3 == j;
      assert FrameView(frame, scale, numPoints)[k] == ViewSlot(ds, scale, k);
    }
  }

  /** The nested loop that fills `view`, a vector of `num_points * 3` zeros, from the keyframe. */
  method FlattenFrame(frame: Frame, scale: Vec3, numPoints: nat) returns (view: seq<real>)
    requires |frame.displacements| <= numPoints
    ensures view == FrameView(frame, scale, numPoints)
  {
    var ds := frame.displacements;
    var a := new real[numPoints * 3](_ => 0.0);
    for i := 0 to |ds|
      invariant forall k :: 0 <= k < i * 3 ==> a[k] == ViewSlot(ds, scale, k)
      invariant forall k :: i * 3 <= k < a.Length ==> a[k] == 0.0
    {
      var arr := ds[i].Mul(scale);
      for j := 0 to 3
        invariant forall k :: 0 <= k < i * 3 + j ==> a[k] == ViewSlot(ds, scale, k)
        invariant forall k :: i * 3 + j <= k < a.Length ==> a[k] == 0.0
      {
        assert (i * 3 + j) / 3 == i && (i * 3 + j) % 3 == j;
        a[i * 3 + j] := arr.Get(j);
      }
    }
    assert forall k :: |ds| * 3 <= k < a.Length ==> ViewSlot(ds, scale, k) == 0.0;
    view := a[..];
  }

  // ----- one asset -----

  /** The animation state of a prepared animated asset. */
  function StateOf(asset: PreparedPointCloudAsset): AnimState
    reads asset
    requires asset.animationBuffer.Some?
  {
    AnimState(asset.currentAnimationFrame, asset.animationTime, asset.animationFrameStartTime, asset.animationBuffer.value)
  }

  /**
    What a tick asks of an animated asset: I8 keyframes (the wider encodings
    are `todo!()`), a current index inside them, no keyframe with more points
    than the view has room for, and a current keyframe that does not end at
    the frame start time (the interpolation divides by the difference).
  */
  ghost predicate Animatable(asset: PreparedPointCloudAsset)
    reads asset
  {
    && asset.animationBuffer.Some? && asset.frames.Some? && asset.frames.value.I8?
    && asset.currentAnimationFrame < |asset.frames.value.frames|
    && (forall f :: f in asset.frames.value.frames ==> |f.displacements| <= asset.numPoints)
    && FrameEnd(asset.frames.value.frames, asset.currentAnimationFrame) != asset.animationFrameStartTime
  }

  /**
    The buffer contents after one tick's writes: the interpolation factor at
    slot 0 of the next buffer and, when the keyframe ends, a zero at slot 0 of
    the other buffer (the next one once swapped) followed by the new
    keyframe's view from slot 1 (byte offset 4).
  */
  ghost function Uploaded(buffers: map<Buffer, seq<real>>, s: AnimState, frames: seq<Frame>, scale: Vec3,
                          numPoints: nat, step: real): (r: map<Buffer, seq<real>>)
    requires s.frame < |frames| && FrameEnd(frames, s.frame) != s.start
    requires forall f :: f in frames ==> |f.displacements| <= numPoints
    requires s.buffers.prev in buffers && s.buffers.next in buffers && s.buffers.prev != s.buffers.next
    requires |buffers[s.buffers.prev]| >= AnimationSlots(numPoints) && |buffers[s.buffers.next]| >= 1
    ensures r.Keys == buffers.Keys
    ensures forall b :: b in buffers ==> |r[b]| == |buffers[b]|
    ensures forall b :: b in buffers && b != s.buffers.prev && b != s.buffers.next ==> r[b] == buffers[b]
  {
    var next := s.buffers.next;
    var written := buffers[next := Overwrite(buffers[next], 0, [Interpolation(s, frames, step)])];
    if !Crosses(s, frames, step) then written
    else
      var prev := s.buffers.prev;
      var view := FrameView(frames[Tick(s, frames, step).frame], scale, numPoints);
      written[prev := Overwrite(Overwrite(written[prev], 0, [0.0]), 1, view)]
  }

  /** The interpolation factor sits at slot 0 of the buffer that was next; a new keyframe's view lands in the other one. */
  lemma UploadedSlots(buffers: map<Buffer, seq<real>>, s: AnimState, frames: seq<Frame>, scale: Vec3,
                      numPoints: nat, step: real)
    requires s.frame < |frames| && FrameEnd(frames, s.frame) != s.start
    requires forall f :: f in frames ==> |f.displacements| <= numPoints
    requires s.buffers.prev in buffers && s.buffers.next in buffers && s.buffers.prev != s.buffers.next
    requires |buffers[s.buffers.prev]| >= AnimationSlots(numPoints) && |buffers[s.buffers.next]| >= 1
    ensures var r := Uploaded(buffers, s, frames, scale, numPoints, step);
            r[s.buffers.next][0] == Interpolation(s, frames, step)
    ensures var r := Uploaded(buffers, s, frames, scale, numPoints, step);
            !Crosses(s, frames, step) ==> r[s.buffers.prev] == buffers[s.buffers.prev]
    ensures var r := Uploaded(buffers, s, frames, scale, numPoints, step);
            var view := FrameView(frames[Tick(s, frames, step).frame], scale, numPoints);
            Crosses(s, frames, step) ==>
              r[s.buffers.prev][0] == 0.0 && r[s.buffers.prev][1..AnimationSlots(numPoints)] == view
  {
    var r := Uploaded(buffers, s, frames, scale, numPoints, step);
    if Crosses(s, frames, step) {
      var view := FrameView(frames[Tick(s, frames, step).frame], scale, numPoints);
      assert r[s.buffers.prev][1..AnimationSlots(numPoints)] == view;
    }
  }

  /** The first half of the loop body: advance the clock and write the interpolation factor into the next buffer. */
  method AdvanceClock(asset: PreparedPointCloudAsset, device: Device, step: real) returns (currentEnd: real)
    requires device.Valid() && asset.Valid(device) && Animatable(asset)
    modifies asset`animationTime, device
    ensures device.Valid() && asset.Valid(device) && device.nextId == old(device.nextId)
    ensures asset.animationTime == old(asset.animationTime) + step
    ensures currentEnd == FrameEnd(asset.frames.value.frames, asset.currentAnimationFrame)
    ensures var next := asset.animationBuffer.value.next;
            device.buffers == old(device.buffers)[next := Overwrite(old(device.buffers)[next], 0,
                                [Interpolation(old(StateOf(asset)), asset.frames.value.frames, step)])]
  {
    var pair := asset.animationBuffer.value;
    var frames := asset.frames.value.frames;
    ghost var s := StateOf(asset);
    currentEnd := frames[asset.currentAnimationFrame].time / 1000.0;
    asset.animationTime := asset.animationTime + step;
    var duration := currentEnd - asset.animationFrameStartTime;
    var delta := asset.animationTime - asset.animationFrameStartTime;
    var interpolation := MinReal(delta / duration, 1.0);
    assert interpolation == Interpolation(s, frames, step);
    device.WriteBuffer(pair.next, 0, [interpolation]);
  }

  /**
    The second half, run once the keyframe has ended: move the frame start to
    the clock, step the index (wrapping the index and the clock to zero), swap
    the buffer pair, upload the new keyframe into the new next buffer and
    rebuild the bind group.
  */
  method NextKeyframe(asset: PreparedPointCloudAsset, device: Device)
    requires device.Valid() && asset.Valid(device) && asset.animationBuffer.Some? && asset.frames.Some?
    requires asset.currentAnimationFrame < |asset.frames.value.frames|
    requires forall f :: f in asset.frames.value.frames ==> |f.displacements| <= asset.numPoints
    modifies asset`currentAnimationFrame, asset`animationTime, asset`animationFrameStartTime, asset`animationBuffer
    modifies asset`bindGroup, device
    ensures device.Valid() && asset.Valid(device) && device.nextId == old(device.nextId) + 1
    ensures asset.animationFrameStartTime == old(asset.animationTime)
    ensures if old(asset.currentAnimationFrame) + 1 >= |asset.frames.value.frames|
            then asset.currentAnimationFrame == 0 && asset.animationTime == 0.0
            else asset.currentAnimationFrame == old(asset.currentAnimationFrame) + 1 && asset.animationTime == old(asset.animationTime)
    ensures asset.animationBuffer == Some(Swapped(old(asset.animationBuffer.value)))
    ensures var prev := old(asset.animationBuffer.value.prev);
            var view := FrameView(asset.frames.value.frames[asset.currentAnimationFrame], asset.animationScale, asset.numPoints);
            device.buffers == old(device.buffers)[prev := Overwrite(Overwrite(old(device.buffers)[prev], 0, [0.0]), 1, view)]
    ensures asset.bindGroup == Some(BindGroup(old(device.nextId), AnimatedEntityLayout, EntityEntries(asset.buffer, asset.animationBuffer)))
  {
    var pair := asset.animationBuffer.value;
    var frames := asset.frames.value.frames;
    asset.animationFrameStartTime := asset.animationTime;
    asset.currentAnimationFrame := asset.currentAnimationFrame + 1;
    if asset.currentAnimationFrame >= |frames| {
      asset.currentAnimationFrame := 0;
      asset.animationTime := 0.0;
    }
    assert frames[asset.currentAnimationFrame] in frames;
    var view := FlattenFrame(frames[asset.currentAnimationFrame], asset.animationScale, asset.numPoints);
    asset.animationBuffer := Some(Swapped(pair));
    device.WriteBuffer(pair.prev, 0, [0.0]);
    device.WriteBuffer(pair.prev, F32_SIZE, view);
    asset.UpdateBindGroup(device);
  }

  /**
    The body of the loop for one asset whose animation buffers are present:
    the tick's new state is `Tick` of the old one and the buffers hold what
    `Uploaded` says; the bind group is rebuilt exactly when the keyframe ends.
  */
  method AnimateAsset(asset: PreparedPointCloudAsset, device: Device, speed: real, dt: real)
    requires device.Valid() && asset.Valid(device) && Animatable(asset)
    modifies asset`currentAnimationFrame, asset`animationTime, asset`animationFrameStartTime, asset`animationBuffer
    modifies asset`bindGroup, device
    ensures device.Valid() && asset.Valid(device) && asset.animationBuffer.Some?
    ensures StateOf(asset) == Tick(old(StateOf(asset)), asset.frames.value.frames, TimeStep(dt, speed))
    ensures device.buffers == Uploaded(old(device.buffers), old(StateOf(asset)), asset.frames.value.frames,
                                       asset.animationScale, asset.numPoints, TimeStep(dt, speed))
    ensures !Crosses(old(StateOf(asset)), asset.frames.value.frames, TimeStep(dt, speed)) ==>
              asset.bindGroup == old(asset.bindGroup) && device.nextId == old(device.nextId)
    ensures Crosses(old(StateOf(asset)), asset.frames.value.frames, TimeStep(dt, speed)) ==>
              device.nextId == old(device.nextId) + 1 &&
              asset.bindGroup == Some(BindGroup(old(device.nextId), AnimatedEntityLayout, EntityEntries(asset.buffer, asset.animationBuffer)))
  {
    var step := TimeStep(dt, speed);
    var currentEnd := AdvanceClock(asset, device, step);
    if currentEnd > asset.animationTime {
      return;
    }
    NextKeyframe(asset, device);
  }

  // ----- all assets -----

  /** The fields of a prepared asset, as a value. */
  datatype AssetFields = AssetFields(buffer: Buffer, numPoints: nat, bindGroup: Option<BindGroup>,
                                     animationBuffer: Option<AnimationBuffers>, frames: Option<Frames>,
                                     frame: nat, time: real, start: real, scale: Vec3, colored: bool)

  function FieldsOf(a: PreparedPointCloudAsset): AssetFields
    reads a
  {
    AssetFields(a.buffer, a.numPoints, a.bindGroup, a.animationBuffer, a.frames, a.currentAnimationFrame,
                a.animationTime, a.animationFrameStartTime, a.animationScale, a.colored)
  }

  ghost function AllFields(assets: seq<PreparedPointCloudAsset>): (fs: seq<AssetFields>)
    reads set a | a in assets
    ensures |fs| == |assets| && forall k :: 0 <= k < |assets| ==> fs[k] == FieldsOf(assets[k])
  {
    seq(|assets|, k requires 0 <= k < |assets| reads set a | a in assets => FieldsOf(assets[k]))
  }

  /** The two animation buffers of an asset, as a set: the swap leaves it as it is. */
  function PairOf(f: AssetFields): set<Buffer>
  {
    if f.animationBuffer.Some? then {f.animationBuffer.value.prev, f.animationBuffer.value.next} else {}
  }

  /** The prepared assets are different objects. */
  predicate Distinct(assets: seq<PreparedPointCloudAsset>)
  {
    forall i, j :: 0 <= i < |assets| && 0 <= j < |assets| && i != j ==> assets[i] != assets[j]
  }

  /** No two assets share an animation buffer. */
  predicate PairsDisjoint(fs: seq<AssetFields>)
  {
    forall i, j :: 0 <= i < |fs| && 0 <= j < |fs| && i != j ==> PairOf(fs[i]) !! PairOf(fs[j])
  }

  /** `PreparedPointCloudAsset.Valid`, on the fields. */
  predicate Fits(f: AssetFields, buffers: map<Buffer, seq<real>>)
  {
    && f.buffer in buffers
    && (f.animationBuffer.Some? ==>
          var pair := f.animationBuffer.value;
          && pair.prev in buffers && pair.next in buffers
          && pair.prev != pair.next && pair.prev != f.buffer && pair.next != f.buffer
          && |buffers[pair.prev]| == |buffers[pair.next]|
          && |buffers[pair.next]| >= AnimationSlots(f.numPoints))
  }

  lemma ValidIsFits(asset: PreparedPointCloudAsset, device: Device)
    ensures asset.Valid(device) <==> Fits(FieldsOf(asset), device.buffers)
  {
  }

  /** An animated asset, over `buffers`, can be ticked: what `Animatable` and `Valid` ask of it. */
  predicate Ready(f: AssetFields, buffers: map<Buffer, seq<real>>)
  {
    f.animationBuffer.Some? ==>
      && f.frames.Some? && f.frames.value.I8?
      && f.frame < |f.frames.value.frames|
      && (forall fr :: fr in f.frames.value.frames ==> |fr.displacements| <= f.numPoints)
      && FrameEnd(f.frames.value.frames, f.frame) != f.start
      && var pair := f.animationBuffer.value;
      && pair.prev in buffers && pair.next in buffers && pair.prev != pair.next
      && |buffers[pair.prev]| >= AnimationSlots(f.numPoints) && |buffers[pair.next]| >= 1
  }

  function StateOfFields(f: AssetFields): AnimState
    requires f.animationBuffer.Some?
  {
    AnimState(f.frame, f.time, f.start, f.animationBuffer.value)
  }

  /**
    One asset after the tick, `f` over `now`, against the same asset before
    it, `f0` over `before`: an asset without animation buffers is as it was;
    an animated one keeps its other fields, is in state `Tick` of its old
    state, its two buffers hold what `Uploaded` says, and its bind group was
    rebuilt (with the animated layout over the swapped pair) exactly when the
    keyframe ended.
  */
  ghost predicate Ticked(f: AssetFields, now: map<Buffer, seq<real>>, f0: AssetFields, before: map<Buffer, seq<real>>,
                   step: real)
  {
    if f0.animationBuffer.None? then f == f0
    else
      && Ready(f0, before)
      && f.buffer == f0.buffer && f.numPoints == f0.numPoints && f.frames == f0.frames
      && f.scale == f0.scale && f.colored == f0.colored
      && f.animationBuffer.Some?
      && var frames := f0.frames.value.frames;
      && var s0 := StateOfFields(f0);
      && StateOfFields(f) == Tick(s0, frames, step)
      && var r := Uploaded(before, s0, frames, f0.scale, f0.numPoints, step);
      && s0.buffers.prev in now && s0.buffers.next in now
      && now[s0.buffers.prev] == r[s0.buffers.prev] && now[s0.buffers.next] == r[s0.buffers.next]
      && (!Crosses(s0, frames, step) ==> f.bindGroup == f0.bindGroup)
      && (Crosses(s0, frames, step) ==>
            f.bindGroup.Some? && f.bindGroup.value.layout == AnimatedEntityLayout
            && f.bindGroup.value.entries == EntityEntries(f.buffer, f.animationBuffer))
  }

  /** A buffer that is none of the assets' animation buffers. */
  predicate Outside(b: Buffer, fs: seq<AssetFields>)
  {
    forall k :: 0 <= k < |fs| ==> b !in PairOf(fs[k])
  }

  /**
    The loop over the assets has handled the first `i` of them: those are
    `Ticked`, the rest are as they were and so are their buffers, every asset
    is still `Valid`, the same buffers exist with the same lengths, and no
    buffer outside the animation buffers was written.
  */
  ghost predicate TickedUpTo(fs: seq<AssetFields>, now: map<Buffer, seq<real>>, fs0: seq<AssetFields>,
                       before: map<Buffer, seq<real>>, i: nat, step: real)
  {
    && |fs| == |fs0| && i <= |fs0|
    && now.Keys == before.Keys
    && (forall b :: b in before ==> |now[b]| == |before[b]|)
    && (forall k :: 0 <= k < |fs| ==> Fits(fs[k], now))
    && (forall k :: 0 <= k < i ==> Ticked(fs[k], now, fs0[k], before, step))
    && (forall k :: i <= k < |fs0| ==> fs[k] == fs0[k])
    && (forall k, b :: i <= k < |fs0| && b in before && b in PairOf(fs0[k]) ==> now[b] == before[b])
    && (forall b :: b in before && Outside(b, fs0) ==> now[b] == before[b])
  }

  /** One step of the loop: asset `i` is handled and the others' fields and animation buffers are left alone. */
  method TickAt(assets: seq<PreparedPointCloudAsset>, i: nat, device: Device, playback: PointCloudPlaybackControl, dt: real,
                ghost fs0: seq<AssetFields>, ghost before: map<Buffer, seq<real>>)
    requires i < |assets| && device.Valid() && Distinct(assets) && PairsDisjoint(fs0)
    requires forall k :: 0 <= k < |fs0| ==> Ready(fs0[k], before)
    requires TickedUpTo(AllFields(assets), device.buffers, fs0, before, i, TimeStep(dt, playback.speed))
    modifies assets[i], device
    ensures device.Valid()
    ensures TickedUpTo(AllFields(assets), device.buffers, fs0, before, i + 1, TimeStep(dt, playback.speed))
  {
    var asset := assets[i];
    ghost var step := TimeStep(dt, playback.speed);
    ghost var fs := AllFields(assets);
    ghost var now := device.buffers;
    assert FieldsOf(asset) == fs0[i];
    if asset.animationBuffer.Some? {
      ValidIsFits(asset, device);
      TickAnimated(asset, device, playback, dt, fs0[i], before);
      ValidIsFits(asset, device);
    }
    ghost var fs' := AllFields(assets);
    assert fs' == fs[i := FieldsOf(asset)];
    TickedUpToStep(fs, now, fs', device.buffers, fs0, before, i, step);
  }

  /** The animated branch of one step: the asset is `Ticked` and only its own animation buffers are written. */
  method TickAnimated(asset: PreparedPointCloudAsset, device: Device, playback: PointCloudPlaybackControl, dt: real,
                      ghost f0: AssetFields, ghost before: map<Buffer, seq<real>>)
    requires device.Valid() && asset.Valid(device) && asset.animationBuffer.Some?
    requires FieldsOf(asset) == f0 && Ready(f0, before)
    requires forall b :: b in PairOf(f0) ==> b in device.buffers && b in before && device.buffers[b] == before[b]
    modifies asset`currentAnimationFrame, asset`animationTime, asset`animationFrameStartTime, asset`animationBuffer
    modifies asset`bindGroup, device
    ensures device.Valid() && asset.Valid(device)
    ensures Ticked(FieldsOf(asset), device.buffers, f0, before, TimeStep(dt, playback.speed))
    ensures device.buffers.Keys == old(device.buffers.Keys)
    ensures forall b :: b in old(device.buffers) ==> |device.buffers[b]| == |old(device.buffers[b])|
    ensures forall b :: b in old(device.buffers) && b !in PairOf(f0) ==> device.buffers[b] == old(device.buffers[b])
  {
    ghost var now := device.buffers;
    AnimateAsset(asset, device, playback.speed, dt);
    ghost var s0 := StateOfFields(f0);
    UploadedLocal(now, before, s0, f0.frames.value.frames, f0.scale, f0.numPoints, TimeStep(dt, playback.speed));
  }

  /** Handling asset `i` extends `TickedUpTo` by one when only its animation buffers were written. */
  lemma {:induction false} TickedUpToStep(fs: seq<AssetFields>, now: map<Buffer, seq<real>>, fs': seq<AssetFields>,
                                          now': map<Buffer, seq<real>>, fs0: seq<AssetFields>,
                                          before: map<Buffer, seq<real>>, i: nat, step: real)
    requires TickedUpTo(fs, now, fs0, before, i, step) && i < |fs0|
    requires PairsDisjoint(fs0)
    requires |fs'| == |fs0| && fs' == fs[i := fs'[i]] && Ticked(fs'[i], now', fs0[i], before, step) && Fits(fs'[i], now')
    requires now'.Keys == now.Keys && forall b :: b in now ==> |now'[b]| == |now[b]|
    requires forall b :: b in now && b !in PairOf(fs0[i]) ==> now'[b] == now[b]
    ensures TickedUpTo(fs', now', fs0, before, i + 1, step)
  {
    forall k | 0 <= k < i
      ensures Ticked(fs'[k], now', fs0[k], before, step)
    {
      assert PairOf(fs0[k]) !! PairOf(fs0[i]);
      TickedKeepsOthers(fs[k], now, now', fs0[k], before, step);
    }
    forall k, b | i + 1 <= k < |fs0| && b in before && b in PairOf(fs0[k])
      ensures now'[b] == before[b]
    {
      assert PairOf(fs0[k]) !! PairOf(fs0[i]);
    }
  }

  /** `Uploaded` writes an asset's two buffers from what they held before, and nothing else. */
  lemma UploadedLocal(b1: map<Buffer, seq<real>>, b2: map<Buffer, seq<real>>, s: AnimState, frames: seq<Frame>,
                      scale: Vec3, numPoints: nat, step: real)
    requires s.frame < |frames| && FrameEnd(frames, s.frame) != s.start
    requires forall f :: f in frames ==> |f.displacements| <= numPoints
    requires s.buffers.prev in b2 && s.buffers.next in b2 && s.buffers.prev != s.buffers.next
    requires |b2[s.buffers.prev]| >= AnimationSlots(numPoints) && |b2[s.buffers.next]| >= 1
    requires s.buffers.prev in b1 && s.buffers.next in b1
    requires b1[s.buffers.prev] == b2[s.buffers.prev] && b1[s.buffers.next] == b2[s.buffers.next]
    ensures Uploaded(b1, s, frames, scale, numPoints, step)[s.buffers.prev] == Uploaded(b2, s, frames, scale, numPoints, step)[s.buffers.prev]
    ensures Uploaded(b1, s, frames, scale, numPoints, step)[s.buffers.next] == Uploaded(b2, s, frames, scale, numPoints, step)[s.buffers.next]
  {
  }

  /** Writing buffers other than an asset's own animation buffers keeps it `Ticked`. */
  lemma TickedKeepsOthers(f: AssetFields, now: map<Buffer, seq<real>>, now': map<Buffer, seq<real>>, f0: AssetFields,
                          before: map<Buffer, seq<real>>, step: real)
    requires Ticked(f, now, f0, before, step)
    requires forall b :: b in PairOf(f0) ==> b in now' && now'[b] == now[b]
    ensures Ticked(f, now', f0, before, step)
  {
  }

  /**
    `prepare_animated_assets`: nothing happens while playback is paused;
    otherwise every asset is `Ticked` by `dt * speed`, and no buffer outside
    the animation buffers is written.
  */
  method PrepareAnimatedAssets(assets: seq<PreparedPointCloudAsset>, device: Device,
                               playback: PointCloudPlaybackControl, dt: real)
    requires device.Valid() && Distinct(assets) && PairsDisjoint(AllFields(assets))
    requires forall k :: 0 <= k < |assets| ==> assets[k].Valid(device)
    requires forall k :: 0 <= k < |assets| && assets[k].animationBuffer.Some? ==> Animatable(assets[k])
    modifies device, set a | a in assets
    ensures device.Valid()
    ensures forall k :: 0 <= k < |assets| ==> assets[k].Valid(device)
    ensures !playback.playing ==>
              AllFields(assets) == old(AllFields(assets)) && device.buffers == old(device.buffers) && device.nextId == old(device.nextId)
    ensures playback.playing ==>
              TickedUpTo(AllFields(assets), device.buffers, old(AllFields(assets)), old(device.buffers), |assets|,
                         TimeStep(dt, playback.speed))
  {
    if !playback.playing {
      return;
    }
    ghost var fs0 := AllFields(assets);
    ghost var before := device.buffers;
    forall k | 0 <= k < |assets|
      ensures Ready(fs0[k], before) && Fits(fs0[k], before)
    {
      ValidIsFits(assets[k], device);
    }
    for i := 0 to |assets|
      invariant device.Valid()
      invariant TickedUpTo(AllFields(assets), device.buffers, fs0, before, i, TimeStep(dt, playback.speed))
    {
      TickAt(assets, i, device, playback, dt, fs0, before);
    }
    ghost var fs := AllFields(assets);
    forall k | 0 <= k < |assets|
      ensures assets[k].Valid(device)
    {
      assert Fits(fs[k], device.buffers);
      ValidIsFits(assets[k], device);
    }
  }
}
