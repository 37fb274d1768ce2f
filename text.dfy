/**
  The `Text` renderable: setters raise dirty flags, and `render` pushes the
  dirty parts into a lazily created glyph buffer. Floating-point fields are
  `real`s; the glyph layout itself, and the GPU calls, are not modelled:
  the glyph buffer is seen through what was last handed to it, and the
  outcome of the two fallible GPU calls at the end of `render` is a
  parameter.
 */
module TextRenderable {
  import opened Wrappers

  /** What the glyph buffer was last given: text with its depth, bounds, metrics. */
  datatype GlyphBuffer = GlyphBuffer(
    text: Option<(string, real)>,
    bounds: Option<(real, real)>,
    metrics: (real, real))

  /** The buffer calls `render` makes: `set_text`, `set_size`, `set_metrics`. */
  datatype BufferCall = SetBufferText | SetBufferSize | SetBufferMetrics

  /** `initialize`: a new buffer with metrics 32 / 40 and nothing else set. */
  const InitialBuffer: GlyphBuffer := GlyphBuffer(None, None, (32.0, 40.0))

  class Text {
    var textBuffer: Option<GlyphBuffer>
    var text: string
    var bounds: (real, real)
    var fontSize: real
    var lineHeight: real
    var advancedText: bool
    var lastZ: real
    var dirtyMetrics: bool
    var dirtyText: bool
    var dirtyBounds: bool

    /**
      The buffer is behind only where a flag says so: without a buffer all
      flags are up; a clean part of the buffer equals the field it shows.
     */
    ghost predicate Valid()
      reads this
    {
      && (textBuffer.None? ==> dirtyText && dirtyBounds && dirtyMetrics)
      && (textBuffer.Some? && !dirtyText ==>
            textBuffer.value.text.Some? && textBuffer.value.text.value.0 == text)
      && (textBuffer.Some? && !dirtyBounds ==> textBuffer.value.bounds == Some(bounds))
      && (textBuffer.Some? && !dirtyMetrics ==> textBuffer.value.metrics == (fontSize, lineHeight))
    }

    /** `Text::new`: every flag up, no buffer, last depth 0. */
    constructor (text: string, bounds: (real, real), fontSize: real, lineHeight: real)
      ensures Valid()
      ensures this.text == text && this.bounds == bounds
      ensures this.fontSize == fontSize && this.lineHeight == lineHeight
      ensures !advancedText && lastZ == 0.0 && textBuffer == None
      ensures dirtyMetrics && dirtyText && dirtyBounds
    {
      textBuffer := None;
      this.text := text;
      this.bounds := bounds;
      this.fontSize := fontSize;
      this.lineHeight := lineHeight;
      advancedText := false;
      lastZ := 0.0;
      dirtyMetrics, dirtyText, dirtyBounds := true, true, true;
    }

    /** `set_font_size`: stores the size and raises only the metrics flag. */
    method SetFontSize(size: real)
      requires Valid()
      modifies this
      ensures Valid()
      ensures FontSize() == size && dirtyMetrics
      ensures dirtyText == old(dirtyText) && dirtyBounds == old(dirtyBounds)
      ensures text == old(text) && bounds == old(bounds) && lineHeight == old(lineHeight)
      ensures advancedText == old(advancedText) && lastZ == old(lastZ) && textBuffer == old(textBuffer)
    {
      fontSize := size;
      dirtyMetrics := true;
    }

    /** `set_line_height`: stores the height and raises only the metrics flag. */
    method SetLineHeight(height: real)
      requires Valid()
      modifies this
      ensures Valid()
      ensures LineHeight() == height && dirtyMetrics
      ensures dirtyText == old(dirtyText) && dirtyBounds == old(dirtyBounds)
      ensures text == old(text) && bounds == old(bounds) && fontSize == old(fontSize)
      ensures advancedText == old(advancedText) && lastZ == old(lastZ) && textBuffer == old(textBuffer)
    {
      lineHeight := height;
      dirtyMetrics := true;
    }

    /** `set_advanced_text_shaping`: stores the choice and raises the text flag. */
    method SetAdvancedTextShaping(advanced: bool)
      requires Valid()
      modifies this
      ensures Valid()
      ensures AdvancedTextShaping() == advanced && dirtyText
      ensures dirtyMetrics == old(dirtyMetrics) && dirtyBounds == old(dirtyBounds)
      ensures text == old(text) && bounds == old(bounds)
      ensures fontSize == old(fontSize) && lineHeight == old(lineHeight)
      ensures lastZ == old(lastZ) && textBuffer == old(textBuffer)
    {
      advancedText := advanced;
      dirtyText := true;
    }

    /** `set_text`: `text()` then returns the new text; raises the text flag. */
    method SetText(newText: string)
      requires Valid()
      modifies this
      ensures Valid()
      ensures CurrentText() == newText && dirtyText
      ensures dirtyMetrics == old(dirtyMetrics) && dirtyBounds == old(dirtyBounds)
      ensures bounds == old(bounds) && fontSize == old(fontSize) && lineHeight == old(lineHeight)
      ensures advancedText == old(advancedText) && lastZ == old(lastZ) && textBuffer == old(textBuffer)
    {
      text := newText;
      dirtyText := true;
    }

    /** `set_size`: `size()` then returns the new bounds; raises the bounds flag. */
    method SetSize(size: (real, real))
      requires Valid()
      modifies this
      ensures Valid()
      ensures CurrentSize() == size && dirtyBounds
      ensures dirtyMetrics == old(dirtyMetrics) && dirtyText == old(dirtyText)
      ensures text == old(text) && fontSize == old(fontSize) && lineHeight == old(lineHeight)
      ensures advancedText == old(advancedText) && lastZ == old(lastZ) && textBuffer == old(textBuffer)
    {
      bounds := size;
      dirtyBounds := true;
    }

    /** `font_size()`. */
    function FontSize(): real
      reads this
    {
      fontSize
    }

    /** `line_height()`. */
    function LineHeight(): real
      reads this
    {
      lineHeight
    }

    /** `advanced_text_shaping()`. */
    function AdvancedTextShaping(): bool
      reads this
    {
      advancedText
    }

    /** `text()`. */
    function CurrentText(): string
      reads this
    {
      text
    }

    /** `size()`. */
    function CurrentSize(): (real, real)
      reads this
    {
      bounds
    }

    /**
      `render` at depth `z`; `gpuError` is the error, if any, of the text
      renderer's prepare and render calls, which `?` passes on. The buffer
      is created (`created`) only if absent; otherwise the old buffer is
      kept and only its dirty parts are set again. A depth change marks the
      text dirty; `calls` lists the buffer setters called, one per flag that
      was up; the buffer is reshaped iff some flag was up. Afterwards every
      flag is down and the buffer shows the current text, bounds and
      metrics. Only a successful pass records `z` as the last depth.
     */
    method Render(z: real, gpuError: Option<string>)
      returns (r: Result<Unit, string>, created: bool, calls: seq<BufferCall>, reshaped: bool)
      requires Valid()
      modifies this
      ensures Valid()
      ensures created <==> old(textBuffer).None?
      ensures var textCall := old(dirtyText) || old(lastZ) != z;
              var base := if old(textBuffer).Some? then old(textBuffer).value else InitialBuffer;
              && textBuffer == Some(GlyphBuffer(
                   if textCall then Some((text, z)) else base.text,
                   if old(dirtyBounds) then Some(bounds) else base.bounds,
                   if old(dirtyMetrics) then (fontSize, lineHeight) else base.metrics))
              && calls == (if textCall then [SetBufferText] else [])
                          + (if old(dirtyBounds) then [SetBufferSize] else [])
                          + (if old(dirtyMetrics) then [SetBufferMetrics] else [])
      ensures textBuffer.Some? && !dirtyText && !dirtyBounds && !dirtyMetrics
      ensures old(textBuffer).Some? && !old(dirtyMetrics) ==> textBuffer.value.metrics == old(textBuffer).value.metrics
      ensures textBuffer.value.bounds == Some(bounds) && textBuffer.value.metrics == (fontSize, lineHeight)
      ensures textBuffer.value.text.Some? && textBuffer.value.text.value.0 == text
      ensures old(dirtyText) || old(lastZ) != z ==> textBuffer.value.text == Some((text, z))
      ensures reshaped <==> old(dirtyText) || old(dirtyBounds) || old(dirtyMetrics) || old(lastZ) != z
      ensures gpuError.None? ==> r == Ok(Unit) && lastZ == z
      ensures gpuError.Some? ==> r == Err(gpuError.value) && lastZ == old(lastZ)
      ensures text == old(text) && bounds == old(bounds) && fontSize == old(fontSize)
      ensures lineHeight == old(lineHeight) && advancedText == old(advancedText)
    {
      created := textBuffer.None?;
      var buffer := if created then InitialBuffer else textBuffer.value;
      calls := [];
      if lastZ != z {
        dirtyText := true;
      }
      reshaped := dirtyText || dirtyBounds || dirtyMetrics;
      if dirtyText {
        buffer := buffer.(text := Some((text, z)));
        calls := calls + [SetBufferText];
        dirtyText := false;
      }
      if dirtyBounds {
        buffer := buffer.(bounds := Some(bounds));
        calls := calls + [SetBufferSize];
        dirtyBounds := false;
      }
      if dirtyMetrics {
        buffer := buffer.(metrics := (fontSize, lineHeight));
        calls := calls + [SetBufferMetrics];
        dirtyMetrics := false;
      }
      textBuffer := Some(buffer);
      if gpuError.Some? {
        return Err(gpuError.value), created, calls, reshaped;
      }
      lastZ := z;
      r := Ok(Unit);
    }
  }

  /**
    A first render of a new text shapes it; rendering again at the same
    depth with nothing set in between does not shape again, while a new
    depth does.
   */
  method RenderShapesOnlyWhenDirty(content: string, bounds: (real, real), z: real, z': real)
    returns (first: bool, second: bool, third: bool)
    requires z' != z
    ensures first && !second && third
  {
    var t := new Text(content, bounds, 32.0, 40.0);
    var r1, r2, r3, c1, c2, c3, k1, k2, k3;
    r1, c1, k1, first := t.Render(z, None);
    r2, c2, k2, second := t.Render(z, None);
    r3, c3, k3, third := t.Render(z', None);
  }
}
