/**
  `wgpu::VertexBufferLayout` as the vertex `desc()` functions build it, and
  what it means for a layout to describe a `#[repr(C)]` struct whose fields
  are `f32` arrays: attributes packed from offset 0, one after the other,
  at shader locations 0, 1, ..., ending at the struct size, which is the
  stride.
 */
module VertexLayout {

  /** The `wgpu::VertexFormat`s the vertices use. */
  datatype VertexFormat = Float32x2 | Float32x3 | Float32x4

  /** `wgpu::VertexStepMode`. */
  datatype VertexStepMode = Vertex | Instance

  /** `wgpu::VertexAttribute`. */
  datatype VertexAttribute = VertexAttribute(offset: nat, format: VertexFormat, shaderLocation: nat)

  /** `wgpu::VertexBufferLayout`. */
  datatype VertexBufferLayout = VertexBufferLayout(
    arrayStride: nat,
    stepMode: VertexStepMode,
    attributes: seq<VertexAttribute>)

  /** `size_of::<[f32; n]>()`. */
  function F32ArraySize(n: nat): nat
  {
    4 * n
  }

  /** The number of bytes a format reads: four per `f32` component. */
  function FormatSize(f: VertexFormat): nat
  {
    match f
    case Float32x2 => F32ArraySize(2)
    case Float32x3 => F32ArraySize(3)
    case Float32x4 => F32ArraySize(4)
  }

  /**
    `size_of` of a `#[repr(C)]` struct whose fields are `[f32; n]` arrays
    of the given lengths: all fields have alignment 4 and sizes that are
    multiples of 4, so there is no padding and the size is the sum.
   */
  function ReprCSize(fields: seq<nat>): nat
  {
    if fields == [] then 0 else F32ArraySize(fields[0]) + ReprCSize(fields[1..])
  }

  /** Where an attribute's bytes end. */
  function End(a: VertexAttribute): nat
  {
    a.offset + FormatSize(a.format)
  }

  /**
    Attributes at locations 0, 1, ... in field order, the first at offset
    0, each starting where the previous one ends, the last ending at the
    stride.
   */
  predicate Packed(d: VertexBufferLayout)
  {
    var attrs := d.attributes;
    && (forall i :: 0 <= i < |attrs| ==> attrs[i].shaderLocation == i)
    && (|attrs| > 0 ==> attrs[0].offset == 0)
    && (forall i :: 0 <= i < |attrs| - 1 ==> End(attrs[i]) == attrs[i + 1].offset)
    && (|attrs| > 0 ==> End(attrs[|attrs| - 1]) == d.arrayStride)
  }

  /**
    The layout covers a struct with `[f32; n]` fields of the given lengths:
    one attribute per field, each reading exactly its field's bytes, and
    the stride is the struct size.
   */
  predicate Describes(d: VertexBufferLayout, fields: seq<nat>)
  {
    && |d.attributes| == |fields|
    && (forall i :: 0 <= i < |fields| ==> FormatSize(d.attributes[i].format) == F32ArraySize(fields[i]))
    && d.arrayStride == ReprCSize(fields)
  }

  /**
    In a packed layout no two attributes overlap: every attribute ends at
    or before the start of any later one.
   */
  lemma {:induction false} PackedNonOverlapping(d: VertexBufferLayout, i: nat, j: nat)
    requires Packed(d)
    requires i < j < |d.attributes|
    ensures End(d.attributes[i]) <= d.attributes[j].offset
    decreases j - i
  {
    if j > i + 1 {
      PackedNonOverlapping(d, i, j - 1);
      assert End(d.attributes[j - 1]) == d.attributes[j].offset;
    }
  }

  /** In a packed layout every attribute lies inside one stride. */
  lemma {:induction false} PackedWithinStride(d: VertexBufferLayout, i: nat)
    requires Packed(d)
    requires i < |d.attributes|
    ensures End(d.attributes[i]) <= d.arrayStride
  {
    var last := |d.attributes| - 1;
    if i < last {
      PackedNonOverlapping(d, i, last);
    }
  }
}
