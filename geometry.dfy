/**
  Value types shared by the whole plugin: an optional value, the
  three-component vector (glam's `Vec3`/`Vec3A`, and the loaders' `Point`,
  whose `inner: [f32; 3]` is indexed 0..2), component-wise minimum and
  maximum, and the largest finite `f32`, which the loaders use as the
  starting value of their running bounds. Coordinates are `real`: rounding
  is not modelled.
*/
module Geometry {

  datatype Option<+T> = None | Some(value: T)

  datatype Result<+T, +E> = Ok(value: T) | Err(error: E)

  /** The largest finite `f32`, (2 - 2^-23) * 2^127; `f32::MIN` is its negation. */
  const F32_MAX: real := 340282346638528859811704183484516925440.0

  datatype Vec3 = Vec3(x: real, y: real, z: real) {

    /** Component `i`, as `inner[i]` / `v[i]` in the source. */
    function Get(i: nat): real
      requires i < 3
    {
      if i == 0 then x else if i == 1 then y else z
    }

    function Sub(other: Vec3): (r: Vec3)
      ensures forall i :: 0 <= i < 3 ==> r.Get(i) == Get(i) - other.Get(i)
    {
      Vec3(x - other.x, y - other.y, z - other.z)
    }

    function Add(other: Vec3): (r: Vec3)
      ensures forall i :: 0 <= i < 3 ==> r.Get(i) == Get(i) + other.Get(i)
    {
      Vec3(x + other.x, y + other.y, z + other.z)
    }

    /** Component-wise product (glam's `Vec3 * Vec3`). */
    function Mul(other: Vec3): (r: Vec3)
      ensures forall i :: 0 <= i < 3 ==> r.Get(i) == Get(i) * other.Get(i)
    {
      Vec3(x * other.x, y * other.y, z * other.z)
    }

    /** Every component divided by `d` (glam's `Vec3 / f32`). */
    function Div(d: real): (r: Vec3)
      requires d != 0.0
      ensures forall i :: 0 <= i < 3 ==> r.Get(i) == Get(i) / d
    {
      Vec3(x / d, y / d, z / d)
    }

    /** Every component is a finite `f32` value. */
    predicate InF32Range()
    {
      -F32_MAX <= x <= F32_MAX && -F32_MAX <= y <= F32_MAX && -F32_MAX <= z <= F32_MAX
    }
  }

  /** `Vec3::splat(v)` / `[v; 3].into()`. */
  function Splat(v: real): (r: Vec3)
    ensures forall i :: 0 <= i < 3 ==> r.Get(i) == v
  {
    Vec3(v, v, v)
  }

  /** `Vec3::ZERO`, also `Vec3::default()`. */
  const ZERO: Vec3 := Vec3(0.0, 0.0, 0.0)

  function MinReal(a: real, b: real): real { if a <= b then a else b }

  function MaxReal(a: real, b: real): real { if a >= b then a else b }

  function MinNat(a: nat, b: nat): nat { if a <= b then a else b }

  /** `Point::min`: the component-wise minimum of two points. */
  function Min(a: Vec3, b: Vec3): (r: Vec3)
    ensures forall i :: 0 <= i < 3 ==> r.Get(i) <= a.Get(i) && r.Get(i) <= b.Get(i)
    ensures forall i :: 0 <= i < 3 ==> r.Get(i) == a.Get(i) || r.Get(i) == b.Get(i)
  {
    Vec3(MinReal(a.x, b.x), MinReal(a.y, b.y), MinReal(a.z, b.z))
  }

  /** `Point::max`: the component-wise maximum of two points. */
  function Max(a: Vec3, b: Vec3): (r: Vec3)
    ensures forall i :: 0 <= i < 3 ==> r.Get(i) >= a.Get(i) && r.Get(i) >= b.Get(i)
    ensures forall i :: 0 <= i < 3 ==> r.Get(i) == a.Get(i) || r.Get(i) == b.Get(i)
  {
    Vec3(MaxReal(a.x, b.x), MaxReal(a.y, b.y), MaxReal(a.z, b.z))
  }

  /**
    A `GlobalTransform`, reduced to what the plugin reads from it: its
    translation and its rotation applied to the X axis. The matrix maths that
    produce these are not modelled.
  */
  datatype Transform = Transform(translation: Vec3, rotatedX: Vec3)
}
