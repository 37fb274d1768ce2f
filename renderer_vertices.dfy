/** The vertex types of the 3D renderer and their `desc()` layouts. */
module RendererVertices {
  import opened VertexLayout

  /** The fields of `ColorVertex`: `position: [f32; 3]`, `color: [f32; 4]`. */
  const ColorVertexFields: seq<nat> := [3, 4]

  /** The fields of `UvVertex`: `position: [f32; 3]`, `uv: [f32; 2]`. */
  const UvVertexFields: seq<nat> := [3, 2]

  /** `ColorVertex::desc()`. */
  function ColorVertexDesc(): VertexBufferLayout
  {
    VertexBufferLayout(ReprCSize(ColorVertexFields), Vertex, [
      VertexAttribute(0, Float32x3, 0),
      VertexAttribute(F32ArraySize(3), Float32x4, 1)])
  }

  /** `UvVertex::desc()`. */
  function UvVertexDesc(): VertexBufferLayout
  {
    VertexBufferLayout(ReprCSize(UvVertexFields), Vertex, [
      VertexAttribute(0, Float32x3, 0),
      VertexAttribute(F32ArraySize(3), Float32x2, 1)])
  }

  /** `ColorVertex`: offsets 0 and 12 at locations 0 and 1, stride 28, packed, per vertex. */
  lemma ColorVertexLayout()
    ensures ColorVertexDesc().arrayStride == 28 && ColorVertexDesc().stepMode == Vertex
    ensures ColorVertexDesc().attributes[0].offset == 0 && ColorVertexDesc().attributes[1].offset == 12
    ensures Packed(ColorVertexDesc()) && Describes(ColorVertexDesc(), ColorVertexFields)
  {
  }

  /** `UvVertex`: offsets 0 and 12 at locations 0 and 1, stride 20, packed, per vertex. */
  lemma UvVertexLayout()
    ensures UvVertexDesc().arrayStride == 20 && UvVertexDesc().stepMode == Vertex
    ensures UvVertexDesc().attributes[0].offset == 0 && UvVertexDesc().attributes[1].offset == 12
    ensures Packed(UvVertexDesc()) && Describes(UvVertexDesc(), UvVertexFields)
  {
  }
}
