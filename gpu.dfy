/**
  The render device and queue, reduced to what the plugin relies on: every
  buffer, texture and bind group it creates is a new identity token, and
  `write_buffer` overwrites a run of 4-byte slots of a buffer starting at a
  byte offset. Buffer contents are ghost state, one `real` per `f32` slot.
*/
module Gpu {

  datatype Buffer = Buffer(id: nat)

  /** A texture together with its default view. */
  datatype Texture = Texture(id: nat)

  /** The bind group layouts the two pipelines create once, at start-up. */
  datatype BindGroupLayout =
    | ViewLayout
    | EntityLayout
    | AnimatedEntityLayout
    | ModelLayout
    | EyeDomeImageLayout
    | MultisampledEyeDomeImageLayout

  datatype BindingResource = WholeBuffer(buffer: Buffer) | TextureView(texture: Texture)

  datatype BindGroupEntry = BindGroupEntry(binding: nat, resource: BindingResource)

  datatype BindGroup = BindGroup(id: nat, layout: BindGroupLayout, entries: seq<BindGroupEntry>)

  /** `size_of::<f32>()`. */
  const F32_SIZE: nat := 4

  /** `s` with the slots from `at` on replaced by `data`. */
  function Overwrite(s: seq<real>, at: nat, data: seq<real>): (r: seq<real>)
    requires at + |data| <= |s|
    ensures |r| == |s|
    ensures forall i :: 0 <= i < at ==> r[i] == s[i]
    ensures forall i :: 0 <= i < |data| ==> r[at + i] == data[i]
    ensures forall i :: at + |data| <= i < |s| ==> r[i] == s[i]
  {
    s[..at] + data + s[at + |data|..]
  }

  /** `RenderDevice` and `RenderQueue` together: one id counter for everything created. */
  class Device {
    var nextId: nat
    ghost var buffers: map<Buffer, seq<real>>

    ghost predicate Valid()
      reads this
    {
      forall b :: b in buffers ==> b.id < nextId
    }

    constructor ()
      ensures Valid() && nextId == 0 && buffers == map[]
    {
      nextId := 0;
      buffers := map[];
    }

    /** `create_buffer` without `mapped_at_creation`: a new buffer of `size` bytes, zero-filled. */
    method CreateBuffer(size: nat) returns (b: Buffer)
      requires Valid() && size % F32_SIZE == 0
      modifies this
      ensures Valid() && b !in old(buffers) && b.id == old(nextId) && nextId == old(nextId) + 1
      ensures buffers == old(buffers)[b := seq(size / F32_SIZE, _ => 0.0)]
    {
      b := Buffer(nextId);
      buffers := buffers[b := seq(size / F32_SIZE, _ => 0.0)];
      nextId := nextId + 1;
    }

    /** `create_buffer_with_data`: a new buffer holding `data`. */
    method CreateBufferWithData(data: seq<real>) returns (b: Buffer)
      requires Valid()
      modifies this
      ensures Valid() && b !in old(buffers) && b.id == old(nextId) && nextId == old(nextId) + 1
      ensures buffers == old(buffers)[b := data]
    {
      b := Buffer(nextId);
      buffers := buffers[b := data];
      nextId := nextId + 1;
    }

    /** A new texture; its contents are not tracked. */
    method CreateTexture() returns (t: Texture)
      requires Valid()
      modifies this
      ensures Valid() && t.id == old(nextId) && nextId == old(nextId) + 1 && buffers == old(buffers)
    {
      t := Texture(nextId);
      nextId := nextId + 1;
    }

    /** `create_bind_group`: a new bind group over `entries`, laid out by `layout`. */
    method CreateBindGroup(layout: BindGroupLayout, entries: seq<BindGroupEntry>) returns (g: BindGroup)
      requires Valid()
      modifies this
      ensures Valid() && g == BindGroup(old(nextId), layout, entries) && nextId == old(nextId) + 1
      ensures buffers == old(buffers)
    {
      g := BindGroup(nextId, layout, entries);
      nextId := nextId + 1;
    }

    /**
      `write_buffer(b, offset, bytes)`: the `f32` values `data` replace the
      slots from byte `offset` on; the write must be 4-byte aligned and stay
      inside the buffer.
    */
    method WriteBuffer(b: Buffer, offset: nat, data: seq<real>)
      requires Valid() && b in buffers && offset % F32_SIZE == 0 && offset / F32_SIZE + |data| <= |buffers[b]|
      modifies this
      ensures Valid() && nextId == old(nextId)
      ensures buffers == old(buffers)[b := Overwrite(old(buffers[b]), offset / F32_SIZE, data)]
    {
      buffers := buffers[b := Overwrite(buffers[b], offset / F32_SIZE, data)];
    }
  }
}
