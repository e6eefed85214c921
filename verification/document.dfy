/** The single meme being edited: canvas size, optional background picture,
    the two text blocks, the shared style and the drag state, with the
    operations the page's event handlers perform on them. */
module Documents {
  import opened Styles
  import opened TextLayout
  import opened AspectFit
  import opened Pointer

  /** A text block: its string, its alignment anchor x and its vertical centre y. */
  datatype TextBlock = TextBlock(text: string, x: real, y: real)

  /** A decoded background picture, by its pixel size. */
  datatype Picture = Picture(width: int, height: int)

  datatype Option<T> = None | Some(value: T)

  /** What is painted under the text: the generated default background, or
      the picture drawn into a rectangle. */
  datatype Background = Generated | Image(rect: Rect)

  /** One rendering: canvas size, background and the text paint calls of the
      top block followed by those of the bottom block. */
  datatype Frame = Frame(width: int, height: int, background: Background, ops: seq<PaintOp>)

  /** Every field of a document at one moment. */
  datatype DocState = DocState(image: Option<Picture>, width: int, height: int,
                               top: TextBlock, bottom: TextBlock, style: Style,
                               dragTarget: Target)

  const DefaultWidth: int := 800
  const DefaultHeight: int := 600
  /** Distance in pixels kept between a block placed by the proportional rule and the canvas edge. */
  const Margin: int := 60
  /** The top block's y in a fresh or cleared document. */
  const DefaultTopY: real := 80.0

  /** The top block's y on a canvas of height h: 8% of the height, but at least the margin. */
  function TopY(h: int): (y: real)
    ensures y >= Margin as real && y >= h as real * 0.08
    ensures y == Margin as real || y == h as real * 0.08
  {
    if Margin as real >= h as real * 0.08 then Margin as real else h as real * 0.08
  }

  /** The bottom block's y on a canvas of height h: 92% of the height, but at
      least the margin above the bottom edge. */
  function BottomY(h: int): (y: real)
    ensures y <= (h - Margin) as real && y <= h as real * 0.92
    ensures y == (h - Margin) as real || y == h as real * 0.92
  {
    if (h - Margin) as real <= h as real * 0.92 then (h - Margin) as real else h as real * 0.92
  }

  /** The two placements mirror each other: the bottom block sits as far from
      the bottom edge as the top block from the top edge. */
  lemma PlacementMirrors(h: int)
    ensures BottomY(h) == h as real - TopY(h)
  {
  }

  /** The top block is placed above (or level with) the bottom block exactly
      when the canvas is at least twice the margin high. */
  lemma PlacementOrdered(h: int)
    ensures TopY(h) <= BottomY(h) <==> h >= 2 * Margin
  {
  }

  /** From a height of 750 pixels on the proportional rule wins; below it the margin does. */
  lemma PlacementRegimes(h: int)
    ensures h >= 750 ==> TopY(h) == h as real * 0.08 && BottomY(h) == h as real * 0.92
    ensures h < 750 ==> TopY(h) == Margin as real && BottomY(h) == (h - Margin) as real
  {
  }

  class Document {
    var image: Option<Picture>
    var width: int
    var height: int
    var top: TextBlock
    var bottom: TextBlock
    var style: Style
    /** The block being dragged; a module-level variable of the page script. */
    var dragTarget: Target

    /** The canvas has a positive size, and while a picture is loaded the
        canvas has exactly the picture's size. */
    ghost predicate Valid()
      reads this
    {
      width > 0 && height > 0 &&
      (image.Some? ==> image.value == Picture(width, height))
    }

    function State(): (s: DocState)
      reads this
    {
      DocState(image, width, height, top, bottom, style, dragTarget)
    }

    /** The page's start-up state on a canvas of canvasW x canvasH pixels:
        no picture, empty texts centred horizontally, the top block at
        y = 80 and the bottom one 60 pixels above the bottom edge. */
    constructor (canvasW: int, canvasH: int)
      requires canvasW > 0 && canvasH > 0
      ensures Valid()
      ensures State() == DocState(None, canvasW, canvasH,
                                  TextBlock("", canvasW as real / 2.0, DefaultTopY),
                                  TextBlock("", canvasW as real / 2.0, (canvasH - Margin) as real),
                                  DefaultStyle, NoTarget)
    {
      image := None;
      width, height := canvasW, canvasH;
      top := TextBlock("", canvasW as real / 2.0, DefaultTopY);
      bottom := TextBlock("", canvasW as real / 2.0, (canvasH - Margin) as real);
      style := DefaultStyle;
      dragTarget := NoTarget;
    }

    /** A picture finished loading: the canvas takes its size and both blocks
        are re-placed by the proportional rule; texts and style are kept. */
    method LoadImage(pic: Picture)
      requires Valid() && pic.width > 0 && pic.height > 0
      modifies this
      ensures Valid()
      ensures State() == old(State()).(
                image := Some(pic), width := pic.width, height := pic.height,
                top := old(top).(x := pic.width as real / 2.0, y := TopY(pic.height)),
                bottom := old(bottom).(x := pic.width as real / 2.0, y := BottomY(pic.height)))
    {
      image := Some(pic);
      width := pic.width;
      height := pic.height;
      top := top.(x := width as real / 2.0, y := TopY(height));
      bottom := bottom.(x := width as real / 2.0, y := BottomY(height));
    }

    method SetTopText(t: string)
      modifies this
      ensures State() == old(State()).(top := old(top).(text := t))
    {
      top := top.(text := t);
    }

    method SetBottomText(t: string)
      modifies this
      ensures State() == old(State()).(bottom := old(bottom).(text := t))
    {
      bottom := bottom.(text := t);
    }

    method SetFontFamily(f: string)
      modifies this
      ensures State() == old(State()).(style := old(style).(fontFamily := f))
    {
      style := style.(fontFamily := f);
    }

    method SetFontSize(n: int)
      modifies this
      ensures State() == old(State()).(style := old(style).(fontSize := n))
    {
      style := style.(fontSize := n);
    }

    method SetTextColor(c: string)
      modifies this
      ensures State() == old(State()).(style := old(style).(textColor := c))
    {
      style := style.(textColor := c);
    }

    method SetStrokeColor(c: string)
      modifies this
      ensures State() == old(State()).(style := old(style).(strokeColor := c))
    {
      style := style.(strokeColor := c);
    }

    method SetStrokeWidth(n: int)
      modifies this
      ensures State() == old(State()).(style := old(style).(strokeWidth := n))
    {
      style := style.(strokeWidth := n);
    }

    method SetLetterSpacing(n: int)
      modifies this
      ensures State() == old(State()).(style := old(style).(letterSpacing := n))
    {
      style := style.(letterSpacing := n);
    }

    method SetAlign(a: string)
      modifies this
      ensures State() == old(State()).(style := old(style).(align := a))
    {
      style := style.(align := a);
    }

    method SetShadow(on: bool)
      modifies this
      ensures State() == old(State()).(style := old(style).(shadow := on))
    {
      style := style.(shadow := on);
    }

    /** Mouse button pressed: the block near the pointer (top first) becomes
        the drag target; a press near neither leaves the target as it was. */
    method MouseDown(clientX: real, clientY: real, rect: ClientRect)
      requires rect.width > 0.0 && rect.height > 0.0
      modifies this
      ensures var hit := Locate(MousePos(clientX, clientY, rect, old(width), old(height)).y,
                                old(top).y, old(bottom).y, old(style).fontSize);
              State() == old(State()).(dragTarget := if hit == NoTarget then old(dragTarget) else hit)
    {
      var p := MousePos(clientX, clientY, rect, width, height);
      var threshold := Threshold(style.fontSize);
      if Abs(p.y - top.y) < threshold {
        dragTarget := TopBlock;
      } else if Abs(p.y - bottom.y) < threshold {
        dragTarget := BottomBlock;
      }
    }

    /** Mouse moved: with no drag target nothing changes; otherwise the
        target block's anchor moves to the pointer and nothing else changes. */
    method MouseMove(clientX: real, clientY: real, rect: ClientRect)
      requires rect.width > 0.0 && rect.height > 0.0
      modifies this
      ensures old(dragTarget) == NoTarget ==> State() == old(State())
      ensures var p := MousePos(clientX, clientY, rect, old(width), old(height));
              old(dragTarget) == TopBlock ==>
                State() == old(State()).(top := old(top).(x := p.x, y := p.y))
      ensures var p := MousePos(clientX, clientY, rect, old(width), old(height));
              old(dragTarget) == BottomBlock ==>
                State() == old(State()).(bottom := old(bottom).(x := p.x, y := p.y))
    {
      if dragTarget == NoTarget {
        return;
      }
      var p := MousePos(clientX, clientY, rect, width, height);
      if dragTarget == TopBlock {
        top := top.(x := p.x, y := p.y);
      } else {
        bottom := bottom.(x := p.x, y := p.y);
      }
    }

    /** Mouse button released or pointer left the canvas: the drag ends. */
    method EndDrag()
      modifies this
      ensures State() == old(State()).(dragTarget := NoTarget)
    {
      dragTarget := NoTarget;
    }

    /** Double click: which text field to focus for editing, by the same
        vertical test as a drag; the document is not changed. */
    method DoubleClick(clientX: real, clientY: real, rect: ClientRect) returns (focus: Target)
      requires rect.width > 0.0 && rect.height > 0.0
      ensures focus == TopBlock <==>
                Near(MousePos(clientX, clientY, rect, width, height).y, top.y, style.fontSize)
      ensures focus == BottomBlock <==>
                !Near(MousePos(clientX, clientY, rect, width, height).y, top.y, style.fontSize) &&
                Near(MousePos(clientX, clientY, rect, width, height).y, bottom.y, style.fontSize)
    {
      var p := MousePos(clientX, clientY, rect, width, height);
      var threshold := Threshold(style.fontSize);
      if Abs(p.y - top.y) < threshold {
        focus := TopBlock;
      } else if Abs(p.y - bottom.y) < threshold {
        focus := BottomBlock;
      } else {
        focus := NoTarget;
      }
    }

    /** Clear: no picture, an 800 x 600 canvas, empty texts at the default
        anchors and the default style. A drag in progress is not touched. */
    method Clear()
      modifies this
      ensures Valid()
      ensures State() == DocState(None, 800, 600, TextBlock("", 400.0, 80.0),
                                  TextBlock("", 400.0, 540.0), DefaultStyle, old(dragTarget))
    {
      image := None;
      width := DefaultWidth;
      height := DefaultHeight;
      top := top.(text := "");
      bottom := bottom.(text := "");
      top := top.(x := width as real / 2.0);
      bottom := bottom.(x := width as real / 2.0);
      top := top.(y := DefaultTopY);
      bottom := bottom.(y := (height - Margin) as real);
      style := DefaultStyle;
    }

    /** Use the generated background again; the canvas keeps its size. */
    method UseDefaultBackground()
      requires Valid()
      modifies this
      ensures Valid()
      ensures State() == old(State()).(image := None)
    {
      image := None;
    }

    /** Put both blocks back at the proportional placement for the current
        canvas, keeping texts and style. */
    method ResetPositions()
      modifies this
      ensures State() == old(State()).(
                top := old(top).(x := old(width) as real / 2.0, y := TopY(old(height))),
                bottom := old(bottom).(x := old(width) as real / 2.0, y := BottomY(old(height))))
    {
      top := top.(x := width as real / 2.0);
      bottom := bottom.(x := width as real / 2.0);
      top := top.(y := TopY(height));
      bottom := bottom.(y := BottomY(height));
    }

    /** One rendering of the document; topWidths and bottomWidths are the
        measured glyph widths of the two texts under the current style. A
        loaded picture always covers the whole canvas, because the canvas
        has the picture's size. */
    method Render(topWidths: seq<real>, bottomWidths: seq<real>) returns (frame: Frame)
      requires Valid()
      requires |topWidths| == |top.text| && |bottomWidths| == |bottom.text|
      ensures frame.width == width && frame.height == height
      ensures image.None? ==> frame.background == Generated
      ensures image.Some? ==>
                frame.background == Image(Rect(0.0, 0.0, width as real, height as real))
      ensures frame.ops == Trace(top.text, topWidths, top.x, top.y, style)
                           + Trace(bottom.text, bottomWidths, bottom.x, bottom.y, style)
    {
      var background := Generated;
      if image.Some? {
        background := Image(Fit(image.value.width, image.value.height, width, height));
        FitSameSize(width, height);
      }
      var topOps := DrawTextWithSpacing(top.text, topWidths, top.x, top.y, style);
      var bottomOps := DrawTextWithSpacing(bottom.text, bottomWidths, bottom.x, bottom.y, style);
      frame := Frame(width, height, background, topOps + bottomOps);
    }
  }

  /** A cleared document renders the generated background on an 800 x 600
      canvas and paints no text at all. */
  method ClearedRendersBackgroundOnly(d: Document) returns (frame: Frame)
    modifies d
    ensures frame == Frame(800, 600, Generated, [])
  {
    d.Clear();
    frame := d.Render([], []);
  }

  /** Loading a 400 x 300 picture places the top block at y = 60 and the
      bottom block at y = 240, both at x = 200. */
  method LoadSmallPicture(d: Document)
    requires d.Valid()
    modifies d
    ensures d.width == 400 && d.height == 300
    ensures d.top.x == 200.0 && d.top.y == 60.0
    ensures d.bottom.x == 200.0 && d.bottom.y == 240.0
  {
    d.LoadImage(Picture(400, 300));
  }
}
