/**
  The OpenGL buffer wrappers: the size bookkeeping of vertex and index
  buffers and the attribute arithmetic of `VertexArray::set_layout`. The GL
  calls themselves are foreign; a buffer upload is seen through the byte
  count it passes, and `set_layout` through the list of calls it makes.
 */
module GlBuffer {
  import opened Wrappers

  /** `BufferUsage`. */
  datatype BufferUsage = StaticDraw | DynamicDraw | StreamDraw

  /** `size_of::<f32>()` and `size_of::<u32>()`. */
  const F32Size: nat := 4
  const U32Size: nat := 4

  /** `VertexBuffer`: the GL name and the number of floats last uploaded. */
  class VertexBuffer {
    const id: nat
    var size: nat
    var lastUpload: Option<(nat, BufferUsage)>

    /** `VertexBuffer::new`: `id` is the name `glGenBuffers` returned; the size is 0. */
    constructor (id: nat)
      ensures this.id == id && size == 0 && lastUpload == None
    {
      this.id := id;
      size := 0;
      lastUpload := None;
    }

    /** `set_data`: the size becomes the number of floats, uploaded as `size * 4` bytes. */
    method SetData(vertices: seq<real>, usage: BufferUsage) returns (byteCount: nat)
      modifies this
      ensures size == |vertices| && byteCount == size * F32Size
      ensures lastUpload == Some((byteCount, usage))
    {
      size := |vertices|;
      byteCount := size * F32Size;
      lastUpload := Some((byteCount, usage));
    }
  }

  /** `IndexBuffer`: the GL name and the number of indices last uploaded. */
  class IndexBuffer {
    const id: nat
    var size: nat
    var lastUpload: Option<(nat, BufferUsage)>

    /** `IndexBuffer::new`: `id` is the name `glGenBuffers` returned; the size is 0. */
    constructor (id: nat)
      ensures this.id == id && size == 0 && lastUpload == None
    {
      this.id := id;
      size := 0;
      lastUpload := None;
    }

    /** `set_data`: the size becomes the number of indices, uploaded as `size * 4` bytes. */
    method SetData(indices: seq<nat>, usage: BufferUsage) returns (byteCount: nat)
      modifies this
      ensures size == |indices| && byteCount == size * U32Size
      ensures lastUpload == Some((byteCount, usage))
    {
      size := |indices|;
      byteCount := size * U32Size;
      lastUpload := Some((byteCount, usage));
    }
  }

  /** `DataType`. */
  datatype DataType = Float | UnsignedInt | UnsignedByte

  /** The size in bytes of one component of the given type. */
  function ElementSize(t: DataType): nat
  {
    match t
    case Float => 4
    case UnsignedInt => 4
    case UnsignedByte => 1
  }

  /** `f32` and `u32` take 4 bytes, `u8` one. */
  lemma ElementSizes()
    ensures ElementSize(Float) == 4 && ElementSize(UnsignedInt) == 4 && ElementSize(UnsignedByte) == 1
  {
  }

  /** `layout.iter().sum()`, taken from the back so that prefixes extend one element at a time. */
  function Sum(s: seq<nat>): nat
  {
    if s == [] then 0 else Sum(s[..|s| - 1]) + s[|s| - 1]
  }

  /** The GL calls `set_layout` makes. */
  datatype GlCall =
    | VertexAttribPointer(index: nat, size: nat, componentType: DataType, normalized: bool, stride: nat, offset: nat)
    | EnableVertexAttribArray(index: nat)

  /** The byte offset of attribute `i`: the element size times the sizes before it. */
  function Offset(layout: seq<nat>, t: DataType, i: nat): nat
    requires i <= |layout|
  {
    ElementSize(t) * Sum(layout[..i])
  }

  /** The stride of a layout: the element size times the sum of all sizes. */
  function Stride(layout: seq<nat>, t: DataType): nat
  {
    ElementSize(t) * Sum(layout)
  }

  /**
    Adding one more element to the summed prefix adds its size.
   */
  lemma SumPrefixStep(layout: seq<nat>, i: nat)
    requires i < |layout|
    ensures Sum(layout[..i + 1]) == Sum(layout[..i]) + layout[i]
  {
    assert layout[..i + 1][..i] == layout[..i];
  }

  /**
    The last attribute ends exactly at the stride: its offset plus its
    size in bytes is the stride.
   */
  lemma LastAttributeEndsAtStride(layout: seq<nat>, t: DataType)
    requires |layout| > 0
    ensures Offset(layout, t, |layout| - 1) + ElementSize(t) * layout[|layout| - 1] == Stride(layout, t)
  {
    SumPrefixStep(layout, |layout| - 1);
    assert layout[..|layout|] == layout;
  }

  /**
    Attributes do not overlap: each one ends at or before the offset of
    any later one, and ends exactly where the next one starts.
   */
  lemma {:induction false} AttributesContiguous(layout: seq<nat>, t: DataType, i: nat, j: nat)
    requires i < j <= |layout|
    ensures Offset(layout, t, i) + ElementSize(t) * layout[i] <= Offset(layout, t, j)
    ensures j == i + 1 ==> Offset(layout, t, i) + ElementSize(t) * layout[i] == Offset(layout, t, j)
    decreases j - i
  {
    SumPrefixStep(layout, i);
    if j > i + 1 {
      AttributesContiguous(layout, t, i, j - 1);
      SumPrefixStep(layout, j - 1);
    }
  }

  /** `VertexArray`: the GL name of the vertex array object. */
  class VertexArray {
    const id: nat

    /** `VertexArray::new`: `id` is the name `glGenVertexArrays` returned. */
    constructor (id: nat)
      ensures this.id == id
    {
      this.id := id;
    }

    /**
      `set_layout(layout, type_, normalized)`: for each element, in order,
      one attribute pointer with index `i`, component count `layout[i]`,
      component type always `FLOAT` whatever `type_` is, the stride of the
      whole layout and the offset of the sizes before it, each followed by
      enabling attribute `i`.
     */
    method SetLayout(layout: seq<nat>, dataType: DataType, normalized: bool) returns (calls: seq<GlCall>)
      ensures |calls| == 2 * |layout|
      ensures forall i :: 0 <= i < |layout| ==>
                calls[2 * i] == VertexAttribPointer(i, layout[i], Float, normalized, Stride(layout, dataType), Offset(layout, dataType, i))
      ensures forall i :: 0 <= i < |layout| ==> calls[2 * i + 1] == EnableVertexAttribArray(i)
    {
      var offset := 0;
      var sizeOf := ElementSize(dataType);
      var stride := Sum(layout) * sizeOf;
      calls := [];
      var i := 0;
      while i < |layout|
        invariant 0 <= i <= |layout|
        invariant offset == Offset(layout, dataType, i)
        invariant |calls| == 2 * i
        invariant forall j :: 0 <= j < i ==>
                    calls[2 * j] == VertexAttribPointer(j, layout[j], Float, normalized, stride, Offset(layout, dataType, j))
        invariant forall j :: 0 <= j < i ==> calls[2 * j + 1] == EnableVertexAttribArray(j)
      {
        calls := calls + [VertexAttribPointer(i, layout[i], Float, normalized, stride, offset), EnableVertexAttribArray(i)];
        SumPrefixStep(layout, i);
        offset := offset + layout[i] * sizeOf;
        i := i + 1;
      }
    }
  }
}
