/**
  The playback controls table: one `{time, playing, speed}` entry per animated
  asset handle, a read accessor that falls back to the default entry, a
  get-or-insert accessor, and the per-tick system that prunes entries whose
  asset is gone or not animated and advances the playing ones, wrapping their
  time into one animation period with `rem_euclid`.
*/
module Playback {
  import opened Geometry
  import opened PointCloud

  datatype PlaybackControls = PlaybackControls(time: real, playing: bool, speed: real)

  /** `PlaybackControls::default()`: at the start, paused, at normal speed. */
  function DefaultControls(): (c: PlaybackControls)
    ensures c.time == 0.0 && !c.playing && c.speed == 1.0
  {
    PlaybackControls(0.0, false, 1.0)
  }

  function Abs(d: real): real { if d < 0.0 then -d else d }

  predicate IsInteger(q: real) { q == q.Floor as real }

  /** Truncation toward zero, which the floating-point remainder `%` uses. */
  function Trunc(q: real): int
  {
    if q >= 0.0 then q.Floor else -((-q).Floor)
  }

  /**
    `f32::rem_euclid`: the truncated remainder `x % d`, shifted up by `|d|`
    when it is negative.
  */
  function RemEuclid(x: real, d: real): real
    requires d != 0.0
  {
    var rem := x - Trunc(x / d) as real * d;
    if rem < 0.0 then rem + Abs(d) else rem
  }

  /** A whole number of periods, divided by the period, is a whole number. */
  lemma PeriodMultiple(y: real, n: int, d: real)
    requires d != 0.0 && y == n as real * d
    ensures IsInteger(y / d)
  {
    assert y / d == n as real;
  }

  lemma TruncFraction(q: real)
    ensures -1.0 < q - Trunc(q) as real < 1.0
  {
  }

  lemma ProductBelow(u: real, d: real)
    requires -1.0 < u < 1.0 && d != 0.0
    ensures -Abs(d) < u * d < Abs(d)
  {
    if d > 0.0 {
      if u >= 0.0 {
        assert u * d <= d * u;
      }
    }
  }

  /** The truncated remainder `x % d` is smaller than the period in magnitude. */
  lemma RemainderBelowPeriod(x: real, d: real)
    requires d != 0.0
    ensures -Abs(d) < x - Trunc(x / d) as real * d < Abs(d)
  {
    var q := x / d;
    var t := Trunc(q) as real;
    assert q * d == x;
    assert x - t * d == (q - t) * d;
    TruncFraction(q);
    ProductBelow(q - t, d);
  }

  lemma ShiftByPeriod(t: int, d: real)
    ensures t as real * d - d == (t - 1) as real * d
    ensures t as real * d + d == (t + 1) as real * d
  {
  }

  /**
    The wrapped time lies in `[0, |d|)` for either sign of `x` and of `d`, and
    differs from `x` by a whole number of periods `d`.
  */
  lemma RemEuclidInPeriod(x: real, d: real)
    requires d != 0.0
    ensures 0.0 <= RemEuclid(x, d) < Abs(d)
    ensures IsInteger((x - RemEuclid(x, d)) / d)
  {
    var t := Trunc(x / d);
    var rem := x - t as real * d;
    var r := RemEuclid(x, d);
    RemainderBelowPeriod(x, d);
    ShiftByPeriod(t, d);
    if rem >= 0.0 {
      assert x - r == t as real * d;
      PeriodMultiple(x - r, t, d);
    } else if d > 0.0 {
      assert r == rem + d;
      assert x - r == (t - 1) as real * d;
      PeriodMultiple(x - r, t - 1, d);
    } else {
      assert r == rem - d;
      assert x - r == (t + 1) as real * d;
      PeriodMultiple(x - r, t + 1, d);
    }
  }

  /**
    What a tick asks of the table's entries: the duration of each entry's
    asset can be taken (an empty I8 track panics in `animation_duration`),
    and a playing entry's duration, by which `rem_euclid` divides, is not
    zero. Assets no entry refers to are never looked up.
  */
  predicate Tickable(m: map<Handle, PlaybackControls>, assets: map<Handle, PointCloudAsset>)
  {
    forall h :: h in m && h in assets ==>
      && HasDurationFrame(assets[h])
      && (m[h].playing && AnimationDuration(assets[h]).Some? ==> AnimationDuration(assets[h]).value != 0.0)
  }

  /** The `retain` closure keeps an entry exactly when its asset exists and has an animation duration. */
  predicate Kept(h: Handle, assets: map<Handle, PointCloudAsset>)
  {
    h in assets && HasDurationFrame(assets[h]) && AnimationDuration(assets[h]).Some?
  }

  /** The animation duration of a kept entry's asset. */
  function Duration(h: Handle, assets: map<Handle, PointCloudAsset>): (d: real)
    requires Kept(h, assets)
    ensures d * 1000.0 == assets[h].animation.value.frames[|assets[h].animation.value.frames| - 1].time
  {
    AnimationDuration(assets[h]).value
  }

  /** The time a playing entry reaches after `dt` seconds, before wrapping. */
  function Unwrapped(c: PlaybackControls, dt: real): real
  {
    c.time + c.speed * dt
  }

  /** One kept entry after a tick of `dt` seconds: a playing entry moves by `speed * dt` and is wrapped. */
  function Advance(c: PlaybackControls, duration: real, dt: real): PlaybackControls
    requires c.playing ==> duration != 0.0
  {
    if c.playing then c.(time := RemEuclid(Unwrapped(c, dt), duration)) else c
  }

  /**
    A playing entry keeps playing at the same speed, and its new time is the
    advanced time wrapped into `[0, |duration|)`, a whole number of periods
    away from it; a paused entry is unchanged.
  */
  lemma AdvanceWrapsIntoPeriod(c: PlaybackControls, duration: real, dt: real)
    requires c.playing ==> duration != 0.0
    ensures !c.playing ==> Advance(c, duration, dt) == c
    ensures c.playing ==> Advance(c, duration, dt).playing && Advance(c, duration, dt).speed == c.speed
    ensures c.playing ==> 0.0 <= Advance(c, duration, dt).time < Abs(duration)
    ensures c.playing ==> IsInteger((Unwrapped(c, dt) - Advance(c, duration, dt).time) / duration)
  {
    if c.playing {
      RemEuclidInPeriod(Unwrapped(c, dt), duration);
    }
  }

  /** The table after one `playback_system` tick. */
  function Retained(m: map<Handle, PlaybackControls>, assets: map<Handle, PointCloudAsset>, dt: real)
    : (r: map<Handle, PlaybackControls>)
    requires Tickable(m, assets)
    ensures r.Keys <= m.Keys
    ensures forall h :: h in m ==> (h in r <==> Kept(h, assets))
    ensures forall h :: h in r && !m[h].playing ==> r[h] == m[h]
  {
    map h | h in m && Kept(h, assets) :: Advance(m[h], Duration(h, assets), dt)
  }

  /** Every entry that was playing and survives the tick ends inside one animation period. */
  lemma RetainedTimesInPeriod(m: map<Handle, PlaybackControls>, assets: map<Handle, PointCloudAsset>, dt: real)
    requires Tickable(m, assets)
    ensures forall h :: h in Retained(m, assets, dt) && m[h].playing ==>
              0.0 <= Retained(m, assets, dt)[h].time < Abs(Duration(h, assets))
  {
    forall h | h in Retained(m, assets, dt) && m[h].playing
      ensures 0.0 <= Retained(m, assets, dt)[h].time < Abs(Duration(h, assets))
    {
      AdvanceWrapsIntoPeriod(m[h], Duration(h, assets), dt);
    }
  }

  /** Some entry that survives the tick was playing. */
  predicate SomeKeptPlaying(m: map<Handle, PlaybackControls>, assets: map<Handle, PointCloudAsset>)
  {
    exists h :: h in m && Kept(h, assets) && m[h].playing
  }

  /** The table keeps its size exactly when no entry is pruned. */
  lemma {:induction false} SizeKeptIffNothingPruned(m: map<Handle, PlaybackControls>, assets: map<Handle, PointCloudAsset>, dt: real)
    requires Tickable(m, assets)
    ensures |Retained(m, assets, dt)| == |m| <==> forall h :: h in m ==> Kept(h, assets)
  {
    var r := Retained(m, assets, dt);
    if forall h :: h in m ==> Kept(h, assets) {
      assert r.Keys == m.Keys;
    } else {
      var h :| h in m && !Kept(h, assets);
      SubsetSize(r.Keys, m.Keys - {h});
    }
  }

  lemma SubsetSize<T>(a: set<T>, b: set<T>)
    requires a <= b
    ensures |a| <= |b|
    decreases b
  {
    if a != {} {
      var x :| x in a;
      SubsetSize(a - {x}, b - {x});
    }
  }

  /** `PointCloudPlaybackControls`: the shared table, keyed by asset handle. */
  class PointCloudPlaybackControls {
    var controls: map<Handle, PlaybackControls>

    /** `#[derive(Default)]`: the empty table. */
    constructor ()
      ensures controls == map[]
    {
      controls := map[];
    }

    /** `controls`: a copy of the entry, or the default entry for an unknown handle; the table is only read. */
    function Controls(handle: Handle): (c: PlaybackControls)
      reads this
      ensures handle in controls ==> c == controls[handle]
      ensures handle !in controls ==> c == DefaultControls()
    {
      if handle in controls then controls[handle] else DefaultControls()
    }

    /**
      `controls_mut`: the entry for `handle`, inserting the default entry first
      when there is none; the entry it returns is the one the caller edits.
    */
    method ControlsMut(handle: Handle) returns (c: PlaybackControls)
      modifies this
      ensures controls.Keys == old(controls.Keys) + {handle}
      ensures handle in old(controls) ==> controls == old(controls)
      ensures handle !in old(controls) ==> controls == old(controls)[handle := DefaultControls()]
      ensures c == controls[handle]
    {
      if handle !in controls {
        controls := controls[handle := DefaultControls()];
      }
      c := controls[handle];
    }

    /**
      `playback_system`: `retain` over the table in the map's own order, then
      raise the change flag when some kept entry played or the size changed.
    */
    method PlaybackSystem(assets: map<Handle, PointCloudAsset>, dt: real) returns (markedChanged: bool)
      requires Tickable(controls, assets)
      modifies this
      ensures controls == Retained(old(controls), assets, dt)
      ensures markedChanged <==> SomeKeptPlaying(old(controls), assets) || |controls| != |old(controls)|
    {
      var changed := false;
      var len := |controls|;
      var kept: map<Handle, PlaybackControls> := map[];
      var visited: set<Handle> := {};
      while visited != controls.Keys
        invariant visited <= controls.Keys
        invariant forall h :: h in kept <==> h in visited && Kept(h, assets)
        invariant forall h :: h in kept ==> kept[h] == Advance(controls[h], Duration(h, assets), dt)
        invariant changed <==> exists h :: h in visited && Kept(h, assets) && controls[h].playing
        decreases |controls.Keys - visited|
      {
        var h :| h in controls.Keys - visited;
        var duration := if h in assets then AnimationDuration(assets[h]) else None;
        assert duration.Some? <==> Kept(h, assets);
        if duration.Some? {
          var c := controls[h];
          assert duration.value == Duration(h, assets);
          if c.playing {
            changed := true;
            var time := c.time + c.speed * dt;
            assert time == Unwrapped(controls[h], dt);
            time := RemEuclid(time, duration.value);
            c := c.(time := time);
          }
          assert c == Advance(controls[h], Duration(h, assets), dt);
          kept := kept[h := c];
        }
        visited := visited + {h};
      }
      ghost var r := Retained(controls, assets, dt);
      assert kept.Keys == r.Keys;
      assert forall h | h in kept :: kept[h] == r[h];
      controls := kept;
      markedChanged := changed || |controls| != len;
    }
  }
}
