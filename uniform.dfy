/** `Uniform<T>`: a value of type `T` kept in a uniform buffer of its own, with a bind group
    that exposes the whole buffer at binding 0. The buffer's contents are held as the typed
    value they were written from (`bytemuck::cast_slice` of one `T`). */
module Uniforms {
  import opened Wrappers
  import opened Gpu

  /** The usage of every uniform buffer: it can be written by the queue and bound. */
  const UniformUsage: set<BufferUsage> := {CopyDstBuffer, UniformBuffer}

  /** `Uniform::<T>::bind_group_layout_entry(i)`: a uniform-buffer slot at binding `i`, visible
      to every shader stage, whose minimum binding size is the size of `T` (no minimum when
      `T` has size zero). */
  function BindGroupLayoutEntry(i: nat, sizeOfT: nat): (e: LayoutEntry)
    ensures e.binding == i && e.visibility == AllStages && e.ty.UniformSlot?
    ensures e.ty.minBindingSize.Some? <==> sizeOfT > 0
    ensures e.ty.minBindingSize.Some? ==> e.ty.minBindingSize.value == sizeOfT
  {
    LayoutEntry(i, AllStages, UniformSlot(NonZero(sizeOfT)))
  }

  /** `Uniform::<T>::bind_group_layout`: exactly one slot, the entry for binding 0. */
  function BindGroupLayout(sizeOfT: nat): (l: seq<LayoutEntry>)
    ensures l == [BindGroupLayoutEntry(0, sizeOfT)]
  {
    [LayoutEntry(0, AllStages, UniformSlot(NonZero(sizeOfT)))]
  }

  class Uniform<T> {
    /** the value given at creation; `update` does not refresh it */
    var data: T
    /** what the GPU buffer holds */
    var contents: T
    const buffer: BufferId
    const usage: set<BufferUsage>
    const sizeOfT: nat
    const bindGroup: BindGroup

    /** `Uniform::new`: the buffer is created holding `data`, then a bind group over the
        whole buffer against the one-slot layout. */
    constructor(device: Device, data: T, sizeOfT: nat)
      modifies device
      ensures this.data == data && contents == data
      ensures usage == UniformUsage && this.sizeOfT == sizeOfT
      ensures buffer == old(device.handles) && bindGroup.id == buffer + 1
      ensures bindGroup.layout == BindGroupLayout(sizeOfT)
      ensures bindGroup.entries == [BindGroupEntry(0)]
      ensures device.handles == old(device.handles) + 2
      ensures device.textures == old(device.textures) && device.samplers == old(device.samplers)
    {
      var b := device.NewHandle();
      var g := device.NewHandle();
      this.data := data;
      contents := data;
      buffer := b;
      usage := UniformUsage;
      this.sizeOfT := sizeOfT;
      bindGroup := BindGroup(g, BindGroupLayout(sizeOfT), [GroupEntry(0, WholeBuffer(b))]);
    }

    /** `Uniform::update`: the queue overwrites the whole buffer from offset 0 with the new
        value; the cached `data` field keeps the value from creation. */
    method Update(value: T)
      modifies this`contents
      ensures contents == value
      ensures data == old(data)
    {
      contents := value;
    }

    /** `Uniform::bind_group_entry(i)`: the whole buffer at binding `i`; it fills the layout
        entry for the same binding. */
    function BindGroupEntry(i: nat): (e: GroupEntry)
      ensures e.binding == i && e.resource.WholeBuffer? && e.resource.buffer == buffer
      ensures Fits(e.resource, BindGroupLayoutEntry(i, sizeOfT).ty)
    {
      GroupEntry(i, WholeBuffer(buffer))
    }
  }

  /** The bind group built at creation fills the uniform layout. */
  lemma CreatedGroupMatchesLayout<T>(u: Uniform<T>)
    requires u.bindGroup.layout == BindGroupLayout(u.sizeOfT) && u.bindGroup.entries == [u.BindGroupEntry(0)]
    ensures Matches(u.bindGroup.entries, u.bindGroup.layout)
  {
  }

  /** After an update with a different value the cached `data` no longer describes the buffer. */
  method UpdateLeavesDataStale<T(==)>(device: Device, initial: T, next: T, sizeOfT: nat) returns (u: Uniform<T>)
    requires initial != next
    modifies device
    ensures u.contents == next && u.data == initial && u.data != u.contents
  {
    u := new Uniform(device, initial, sizeOfT);
    u.Update(next);
  }
}
