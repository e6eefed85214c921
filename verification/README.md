# Meme generator core, modelled in Dafny

The meme generator is a single-page script. A user loads a picture, or keeps a
generated background, and places two upper-case captions on it: a top text and a
bottom text. Both captions share one style: font, size, colours, outline width,
letter spacing, alignment and drop shadow. The user drags the captions with the
mouse and exports the canvas as a PNG file. This project models the part of the
script that has behaviour worth stating:

- **Letter-spaced text layout** (module `TextLayout`). A caption is split into code
  points, and each glyph has a measured width. The script works out the width of
  the whole run and where the run starts for the alignment mode. It then walks the
  glyphs with a cursor. For each glyph it makes an outline call (only when the
  stroke width is positive) and then a fill call. Both calls get the same x, the
  cursor plus half the glyph's width. Painting is modelled as the trace of those
  calls (`Stroke` / `Fill`), each with the position argument the script passes. The loop is the
  method `DrawTextWithSpacing`, which is proved equal to the function `Trace`.
- **Aspect fit of the background picture** (module `AspectFit`). This is the
  rectangle the picture is drawn into: it keeps the picture's proportions, fills one
  canvas axis and is centred on the other.
- **Pointer handling** (module `Pointer`). `MousePos` maps a page position to canvas
  pixels, with a separate scale factor on each axis. The hit test looks only at
  vertical distance, with a threshold of 0.8 × font size, and checks the top caption
  first.
- **The document** (module `Documents`). The class `Document` holds the script's
  shared state and one method for each event handler that changes it. That state is
  the optional picture, the canvas size, the two captions, the style and the
  drag target. The handlers are: picture loaded, text and style inputs, mouse
  down/move/up/leave, double click, clear, default background, reset positions and
  render.

Coordinates are exact `real`s. Canvas and picture sizes and the numeric style
settings are `int`s, because the canvas size is an integer and the sliders go through
`parseInt`. The script computes in IEEE doubles, so its results match these only up to
rounding.

The background fit is a "contain" fit. The picture lies inside the canvas and fills
one axis. It never overflows the canvas to cover it. The model follows the code here.
The canvas is resized to the picture whenever a picture loads, and only clearing
changes the canvas size again (clearing also drops the picture). So while a picture
is loaded, the canvas has the picture's size (`Document.Valid`), and the fit always
covers the whole canvas at offset (0, 0). `Document.Render` states this.

## Model

| member | source | states |
|---|---|---|
| `TextLayout.TotalWidth` | Memes/script.js:81-83 | the run's width; a single glyph has no gap, so its width is the glyph's own; non-negative widths and spacing give a non-negative width. `TotalWidthGrowsWithSpacing` and `RunExtent` relate it to spacing and to the traced glyphs |
| `TextLayout.Trace` | Memes/script.js:76-99 | the calls that paint one text block: none for empty text, and n or 2n calls for n code points. `DrawTextWithSpacing` computes it; `TraceGlyphs` and `TracePlacement` pin it down call by call |
| `TextLayout.StartX` | Memes/script.js:85-87 | "center" puts the run's midpoint at the anchor, "right" its right end, any other value its left end |
| `TextLayout.DrawTextWithSpacing` | Memes/script.js:75-100 | the paint loop with its cursor yields exactly the call trace `Trace` of the text, widths, anchor and style (nothing for empty text) |
| `TextLayout.TraceGlyphs` | Memes/script.js:76-99 | empty text yields no calls; otherwise there is exactly one fill per code point, in order, and one stroke per code point if and only if the stroke width is positive; the trace has n or 2n calls |
| `TextLayout.TracePlacement` | Memes/script.js:89-98 | glyph j is filled at start + Σ_{i<j} width_i + j × spacing + width_j / 2 on the block's y; with outlines on, its stroke is at the same point immediately before the fill |
| `TextLayout.OpsLength` | Memes/script.js:92-99 | each glyph contributes one call, or two with outlines |
| `TextLayout.OpsAt` | Memes/script.js:92-99 | glyph j's fill is its last call and sits at the glyph's centre; its stroke, when outlines are on, is the call right before it |
| `TextLayout.OpsFills` | Memes/script.js:92-99 | the fills of the first i glyphs spell the first i code points, in order |
| `TextLayout.OpsStrokes` | Memes/script.js:92-99 | the strokes of the first i glyphs spell the first i code points when outlines are on, and are absent otherwise |
| `TextLayout.PenClosedForm` | Memes/script.js:89-98 | the cursor before glyph i equals start plus the widths of the earlier glyphs plus i gaps |
| `TextLayout.PenAfterRun` | Memes/script.js:83-98 | after the loop the cursor equals start + total width + spacing |
| `TextLayout.RunExtent` | Memes/script.js:83-98 | the first glyph's left edge is the start; the last glyph's right edge is start + total width |
| `TextLayout.AlignmentAnchorsRun` | Memes/script.js:83-99 | measured from the first traced glyph x minus half its width to the last traced glyph x plus half its width, the run spans the total width; its midpoint (center), right end (right) or left end (otherwise) is the anchor x |
| `TextLayout.TotalWidthGrowsWithSpacing` | Memes/script.js:82-83 | for two or more glyphs, more letter spacing gives a strictly wider run |
| `AspectFit.Fit` | Memes/script.js:138-151 | the draw rectangle lies within the canvas; `FitContained`, `FitKeepsRatio` and `FitSameSize` state its proportions, the filled axis and the centring |
| `AspectFit.FitContained` | Memes/script.js:138-151 | the rectangle keeps the picture's proportions; it fills the width and is centred vertically when the picture is relatively wider, and otherwise fills the height and is centred horizontally; it lies within the canvas |
| `AspectFit.FitKeepsRatio` | Memes/script.js:138-151 | drawn width / drawn height equals the picture's width / height |
| `AspectFit.FitSameSize` | Memes/script.js:138-151 | a picture of the canvas's own size is drawn over the whole canvas |
| `Pointer.MousePos` | Memes/script.js:229-234 | page position to canvas pixels, one scale factor per axis; mapping the result back to the page gives the original position. `MousePosCorners` pins the corners |
| `Pointer.MousePosRoundTrip` | Memes/script.js:229-234 | mapping a page position into canvas pixels and back gives the same position |
| `Pointer.MousePosCorners` | Memes/script.js:229-234 | the displayed corners of the canvas map to (0, 0) and (width, height) |
| `Pointer.Locate` | Memes/script.js:239-241 | the top block when it is within the threshold, even if the bottom block is too; the bottom block only when the top one is out of range; otherwise none |
| `Pointer.LocateNonPositiveFont` | Memes/script.js:239-241 | with a font size of zero or less no block can be grabbed |
| `Pointer.NearBand` | Memes/script.js:239-241 | a block is grabbed exactly inside the open band y ± 0.8 × font size |
| `Documents.TopY` | Memes/script.js:175 | the top y is the larger of 60 and 8% of the height |
| `Documents.BottomY` | Memes/script.js:177 | the bottom y is the smaller of height − 60 and 92% of the height |
| `Documents.PlacementMirrors` | Memes/script.js:174-177 | the bottom block is as far from the bottom edge as the top block is from the top edge |
| `Documents.PlacementOrdered` | Memes/script.js:174-177 | the top block is placed at or above the bottom block exactly when the height is at least 120 |
| `Documents.PlacementRegimes` | Memes/script.js:174-177 | from a height of 750 the 8%/92% rule applies, below it the 60-pixel margin |
| `Documents.Document.constructor` | Memes/script.js:26-52 | start-up state: no picture, empty texts at x = width/2, top y = 80, bottom y = height − 60, default style, no drag |
| `Documents.Document.LoadImage` | Memes/script.js:168-178 | the canvas takes the picture's size; both blocks move to x = W/2, the top to y = max(60, 0.08H), the bottom to y = min(H − 60, 0.92H); texts, style and drag state are kept |
| `Documents.Document.SetTopText` | Memes/script.js:185-188 | only the top text changes |
| `Documents.Document.SetBottomText` | Memes/script.js:189-192 | only the bottom text changes |
| `Documents.Document.SetFontFamily` | Memes/script.js:193-196 | only the style's font family changes |
| `Documents.Document.SetFontSize` | Memes/script.js:197-200 | only the style's font size changes |
| `Documents.Document.SetTextColor` | Memes/script.js:201-204 | only the style's fill colour changes |
| `Documents.Document.SetStrokeColor` | Memes/script.js:205-208 | only the style's outline colour changes |
| `Documents.Document.SetStrokeWidth` | Memes/script.js:209-212 | only the style's outline width changes |
| `Documents.Document.SetLetterSpacing` | Memes/script.js:213-216 | only the style's letter spacing changes |
| `Documents.Document.SetAlign` | Memes/script.js:217-220 | only the style's alignment changes |
| `Documents.Document.SetShadow` | Memes/script.js:221-224 | only the style's shadow switch changes |
| `Documents.Document.MouseDown` | Memes/script.js:236-242 | the drag target becomes the block the hit test finds at the mapped pointer; on a miss it is left unchanged; nothing else changes |
| `Documents.Document.MouseMove` | Memes/script.js:244-255 | without a drag target nothing changes; otherwise only the target block's x and y become the mapped pointer position |
| `Documents.Document.EndDrag` | Memes/script.js:257-258 | mouse up and mouse leave set the drag target to none and change nothing else |
| `Documents.Document.DoubleClick` | Memes/script.js:261-271 | the text field to focus is the top one when the pointer is near the top block, the bottom one only when it is near the bottom block and not the top one; the document is unchanged |
| `Documents.Document.Clear` | Memes/script.js:281-303 | no picture, 800 × 600 canvas, empty texts at x = 400, top y = 80, bottom y = 540, default style (Impact, 64, 6, 0, center, shadow on) |
| `Documents.Document.UseDefaultBackground` | Memes/script.js:305-308 | only the picture is dropped; the canvas keeps its size |
| `Documents.Document.ResetPositions` | Memes/script.js:312-318 | both blocks move to x = W/2 and the top/bottom y rules for the current height; texts and style are kept |
| `Documents.Document.Render` | Memes/script.js:131-160 | the frame has the canvas size; it shows the generated background without a picture and the picture over the whole canvas with one; its paint calls are the top block's trace followed by the bottom block's |
| `Documents.ClearedRendersBackgroundOnly` | Memes/script.js:281-303 | after clearing, a rendering is the generated background on 800 × 600 with no text calls |
| `Documents.LoadSmallPicture` | Memes/script.js:168-178 | loading a 400 × 300 picture places both blocks at x = 200, with the top at y = 60 and the bottom at y = 240 |

## Left out

- DOM lookup and listener registration (Memes/script.js:3-23 and the `addEventListener` calls) are glue. Each handler is modelled only by its effect on the document.
- `applyTextStyle` (Memes/script.js:55-73) sets 2D-context properties, including the fixed shadow parameters. `lineJoin`, `clearRect` and `drawImage` are canvas side effects too. A frame records the background rectangle and the glyph calls only.
- Glyph alignment inside the canvas: `applyTextStyle` sets `textAlign` to the style's alignment (Memes/script.js:57), and nothing resets it before the glyph calls (Memes/script.js:96-97). So the canvas centres each glyph on the traced x only for "center". For "left" a drawn glyph starts at the traced x, and for "right" it ends there. The model records each call's x argument, not the drawn pixels, so the actual drawn extent of a left- or right-aligned run is half a glyph off from the extent `AlignmentAnchorsRun` states.
- `measureText`: glyph widths are inputs, with `widths[i]` the measured width of `text[i]` under the current font.
- `drawDefaultBackground` (Memes/script.js:103-128) paints a gradient and unseeded random dots. A frame records it only as `Generated`.
- Picture decoding is left out: object URLs, the asynchronous `onload` and the case of no file chosen. `LoadImage` models the effect once the picture's size is known. A picture of zero width or height is excluded, because the model keeps the canvas at a positive size. The script would give a canvas without pixels there, and a 0 × 0 picture even makes the fit compute NaN.
- PNG export (`toDataURL` and the download link, Memes/script.js:274-279) is a library call plus I/O.
- Upper-casing of typed text and `parseInt` of slider values (including NaN) are string coercions at the input boundary. The setters take the already converted value.
- `text || ''`: a missing text is not modelled. Texts are always strings.
- `fitToScreen` (Memes/script.js:321-324) only renders again. The automatic re-render after each handler is not modelled; `Render` is called explicitly instead.
- The unused variables `scale` and `drawing` and the `selected` flags (Memes/script.js:27-28, 34, 40) are never read. They are left out.
- Pointer events on a canvas shown at zero width or height are excluded (`rect.width > 0`, `rect.height > 0`). The script would divide by zero there.
- The canvas's size before any picture or clear comes from the page markup, which is not part of this model. The constructor takes it as a parameter.
- IEEE-754 rounding: all arithmetic is exact. For example, the threshold is exactly 0.8 × font size, and h × (w / h) is exactly w.
