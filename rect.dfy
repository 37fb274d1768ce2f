/**
  The 2D `Rect` renderable: a colour with a dirty flag and lazily created
  render information. Only the colour uniform of the render information is
  modelled; buffers, the model-matrix uniform and the draw call are GPU
  plumbing, except for the number of indices drawn.
 */
module RectRenderable {
  import opened Wrappers

  /** `[f32; 4]` as four reals. */
  type Color = (real, real, real, real)

  /** `RECT_VERTICES` holds four vertices. */
  const RectVertexCount: nat := 4

  /** `RECT_INDICES`: the two triangles A B C and A C D. */
  const RectIndices: seq<nat> := [0, 1, 2, 0, 2, 3]

  /** Every index names one of the four vertices, each vertex is used, and a draw uses six. */
  lemma RectIndicesWellFormed()
    ensures |RectIndices| == 6
    ensures forall i :: 0 <= i < |RectIndices| ==> RectIndices[i] < RectVertexCount
    ensures forall v :: 0 <= v < RectVertexCount ==> v in RectIndices
  {
  }

  /** `RectRenderInfo`, seen through the value held by its colour uniform. */
  datatype RectRenderInfo = RectRenderInfo(colorUniform: Color)

  class Rect {
    var color: Color
    var dirtyColor: bool
    var renderInfo: Option<RectRenderInfo>

    /** A clean flag means the uniform already holds the colour. */
    ghost predicate Valid()
      reads this
    {
      renderInfo.Some? && !dirtyColor ==> renderInfo.value.colorUniform == color
    }

    /** `Rect::new`: the colour, the flag up, no render information. */
    constructor (color: Color)
      ensures Valid()
      ensures this.color == color && dirtyColor && renderInfo.None?
    {
      this.color := color;
      dirtyColor := true;
      renderInfo := None;
    }

    /** `set_color`: `color()` then returns the new colour; raises the flag. */
    method SetColor(c: Color)
      requires Valid()
      modifies this
      ensures Valid()
      ensures CurrentColor() == c && dirtyColor && renderInfo == old(renderInfo)
    {
      color := c;
      dirtyColor := true;
    }

    /** `color()`. */
    function CurrentColor(): Color
      reads this
    {
      color
    }

    /**
      `render`: creates the render information iff it was absent
      (`created`, its uniform starting at the current colour), uploads the
      colour to the uniform iff the flag was up (`uploaded`), clears the
      flag, and draws all of `RECT_INDICES`.
     */
    method Render() returns (indexCount: nat, created: bool, uploaded: bool)
      requires Valid()
      modifies this
      ensures Valid()
      ensures created <==> old(renderInfo).None?
      ensures uploaded <==> old(dirtyColor)
      ensures old(renderInfo).Some? && !old(dirtyColor) ==> renderInfo == old(renderInfo)
      ensures renderInfo == Some(RectRenderInfo(color)) && !dirtyColor
      ensures color == old(color)
      ensures indexCount == |RectIndices| == 6
    {
      created := renderInfo.None?;
      if created {
        renderInfo := Some(RectRenderInfo(color));
      }
      uploaded := dirtyColor;
      if uploaded {
        renderInfo := Some(renderInfo.value.(colorUniform := color));
        dirtyColor := false;
      }
      indexCount := |RectIndices|;
    }
  }

  /**
    The first render creates the render information and uploads the
    colour; a second render does neither; after `set_color` the next render
    uploads again without creating anything.
   */
  method RenderUploadsOnlyWhenDirty(c: Color, c': Color)
    returns (first: (bool, bool), second: (bool, bool), third: (bool, bool), shown: Color)
    ensures first == (true, true) && second == (false, false) && third == (false, true)
    ensures shown == c'
  {
    var rect := new Rect(c);
    var n, created, uploaded := rect.Render();
    first := (created, uploaded);
    n, created, uploaded := rect.Render();
    second := (created, uploaded);
    rect.SetColor(c');
    n, created, uploaded := rect.Render();
    third := (created, uploaded);
    shown := rect.renderInfo.value.colorUniform;
  }
}
