/** The vertex types of the 2D renderer and their `desc()` layouts. */
module Renderer2DVertices {
  import opened VertexLayout

  /** The fields of `ColorVertex`: `position: [f32; 3]`, `color: [f32; 4]`. */
  const ColorVertexFields: seq<nat> := [3, 4]

  /** The fields of `UvVertex`: `position: [f32; 3]`, `uv: [f32; 2]`. */
  const UvVertexFields: seq<nat> := [3, 2]

  /** The fields of `UvColorVertex`: `position`, `uv`, `color`. */
  const UvColorVertexFields: seq<nat> := [3, 2, 4]

  /** `ColorVertex::desc()`. */
  function ColorVertexDesc(): VertexBufferLayout
  {
    VertexBufferLayout(ReprCSize(ColorVertexFields), Vertex, [
      VertexAttribute(0, Float32x3, 0),
      VertexAttribute(F32ArraySize(3), Float32x4, 1)])
  }

  /** `UvVertex::desc()`. */
  function UvVertexDesc(): VertexBufferLayout
  {
    VertexBufferLayout(ReprCSize(UvVertexFields), Vertex, [
      VertexAttribute(0, Float32x3, 0),
      VertexAttribute(F32ArraySize(3), Float32x2, 1)])
  }

  /** `UvColorVertex::desc()`. */
  function UvColorVertexDesc(): VertexBufferLayout
  {
    VertexBufferLayout(ReprCSize(UvColorVertexFields), Vertex, [
      VertexAttribute(0, Float32x3, 0),
      VertexAttribute(F32ArraySize(3), Float32x2, 1),
      VertexAttribute(F32ArraySize(3) + F32ArraySize(2), Float32x4, 2)])
  }

  /** `ColorVertex`: offsets 0 and 12 at locations 0 and 1, stride 28, packed, per vertex. */
  lemma ColorVertexLayout()
    ensures ColorVertexDesc().arrayStride == 28 && ColorVertexDesc().stepMode == Vertex
    ensures ColorVertexDesc().attributes[0].offset == 0 && ColorVertexDesc().attributes[1].offset == 12
    ensures Packed(ColorVertexDesc()) && Describes(ColorVertexDesc(), ColorVertexFields)
  {
  }

  /** `UvVertex`: offsets 0 and 12 at locations 0 and 1, stride 20, packed, per vertex. */
  lemma UvVertexLayout()
    ensures UvVertexDesc().arrayStride == 20 && UvVertexDesc().stepMode == Vertex
    ensures UvVertexDesc().attributes[0].offset == 0 && UvVertexDesc().attributes[1].offset == 12
    ensures Packed(UvVertexDesc()) && Describes(UvVertexDesc(), UvVertexFields)
  {
  }

  /** `UvColorVertex`: offsets 0, 12 and 20 at locations 0, 1 and 2, stride 36, packed, per vertex. */
  lemma UvColorVertexLayout()
    ensures UvColorVertexDesc().arrayStride == 36 && UvColorVertexDesc().stepMode == Vertex
    ensures UvColorVertexDesc().attributes[0].offset == 0
    ensures UvColorVertexDesc().attributes[1].offset == 12
    ensures UvColorVertexDesc().attributes[2].offset == 20
    ensures Packed(UvColorVertexDesc()) && Describes(UvColorVertexDesc(), UvColorVertexFields)
  {
  }
}
