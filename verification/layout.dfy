/** Letter-spaced text layout: how one text block is turned into a sequence
    of glyph paint operations. The canvas is not modelled; painting is the
    trace of stroke and fill calls the layout would make, and each glyph's
    measured width is an input. */
module TextLayout {
  import opened Styles

  /** One call into the 2D context: outline or fill one glyph, with (x, y) the
      position argument passed to strokeText or fillText. */
  datatype PaintOp = Stroke(ch: char, x: real, y: real) | Fill(ch: char, x: real, y: real)

  /** A laid-out run of glyphs: the code points, their widths, where the
      first glyph starts, the vertical centre, the extra gap between glyphs
      and whether outlines are painted. */
  datatype Run = Run(glyphs: string, widths: seq<real>, startX: real, y: real,
                     spacing: real, stroke: bool)

  predicate WellFormed(r: Run) { |r.glyphs| == |r.widths| }

  /** Left fold of the widths, in the order the script's reduce adds them. */
  function Sum(ws: seq<real>): (total: real)
  {
    if |ws| == 0 then 0.0 else Sum(ws[..|ws| - 1]) + ws[|ws| - 1]
  }

  /** Width of the whole run: the glyph widths plus one gap between each
      pair of neighbouring glyphs. */
  function TotalWidth(ws: seq<real>, spacing: real): (width: real)
    ensures |ws| == 1 ==> width == ws[0]
    ensures |ws| > 0 && spacing >= 0.0 && (forall i :: 0 <= i < |ws| ==> ws[i] >= 0.0) ==> width >= 0.0
  {
    SumNonNegative(ws);
    assert |ws| == 1 ==> ws[..0] == [] && Sum(ws) == Sum(ws[..0]) + ws[0] == ws[0];
    Sum(ws) + spacing * ((|ws| - 1) as real)
  }

  /** Non-negative widths add up to a non-negative sum. */
  lemma {:induction false} SumNonNegative(ws: seq<real>)
    ensures (forall i :: 0 <= i < |ws| ==> ws[i] >= 0.0) ==> Sum(ws) >= 0.0
  {
    if |ws| > 0 {
      SumNonNegative(ws[..|ws| - 1]);
    }
  }

  /** Where the run starts, given the anchor x and the alignment mode. */
  function StartX(x: real, totalWidth: real, align: string): (start: real)
    ensures align == "center" ==> start + totalWidth / 2.0 == x
    ensures align == "right" ==> start + totalWidth == x
    ensures align != "center" && align != "right" ==> start == x
  {
    if align == "center" then x - totalWidth / 2.0
    else if align == "right" then x - totalWidth
    else x
  }

  /** The cursor before glyph i: each glyph advances it by its width plus the spacing. */
  function Pen(r: Run, i: nat): (cursor: real)
    requires WellFormed(r) && i <= |r.glyphs|
  {
    if i == 0 then r.startX else Pen(r, i - 1) + r.widths[i - 1] + r.spacing
  }

  /** The horizontal centre at which glyph i is painted. */
  function Center(r: Run, i: nat): (cx: real)
    requires WellFormed(r) && i < |r.glyphs|
  {
    Pen(r, i) + r.widths[i] / 2.0
  }

  /** The calls for one glyph: the outline first (when enabled), then the fill. */
  function GlyphOps(ch: char, cx: real, y: real, stroke: bool): (ops: seq<PaintOp>)
  {
    (if stroke then [Stroke(ch, cx, y)] else []) + [Fill(ch, cx, y)]
  }

  /** The calls made for the first i glyphs of the run. */
  function Ops(r: Run, i: nat): (ops: seq<PaintOp>)
    requires WellFormed(r) && i <= |r.glyphs|
  {
    if i == 0 then []
    else Ops(r, i - 1) + GlyphOps(r.glyphs[i - 1], Center(r, i - 1), r.y, r.stroke)
  }

  /** How many calls each glyph gets. */
  function PerGlyph(r: Run): (k: nat)
  {
    if r.stroke then 2 else 1
  }

  /** The run for `text` anchored at (x, y) under `style`. */
  function RunOf(text: string, widths: seq<real>, x: real, y: real, style: Style): (r: Run)
  {
    var spacing := style.letterSpacing as real;
    Run(text, widths, StartX(x, TotalWidth(widths, spacing), style.align), y,
        spacing, style.strokeWidth > 0)
  }

  /** Every call made to paint `text`; empty text paints nothing. */
  function Trace(text: string, widths: seq<real>, x: real, y: real, style: Style): (ops: seq<PaintOp>)
    requires |widths| == |text|
    ensures |text| == 0 ==> ops == []
    ensures |ops| == |text| * (if style.strokeWidth > 0 then 2 else 1)
  {
    OpsLength(RunOf(text, widths, x, y, style), |text|);
    if |text| == 0 then [] else Ops(RunOf(text, widths, x, y, style), |text|)
  }

  /** The code points of the fill calls, in call order. */
  function Fills(ops: seq<PaintOp>): (chars: string)
  {
    if |ops| == 0 then []
    else Fills(ops[..|ops| - 1]) + (if ops[|ops| - 1].Fill? then [ops[|ops| - 1].ch] else [])
  }

  /** The code points of the stroke calls, in call order. */
  function Strokes(ops: seq<PaintOp>): (chars: string)
  {
    if |ops| == 0 then []
    else Strokes(ops[..|ops| - 1]) + (if ops[|ops| - 1].Stroke? then [ops[|ops| - 1].ch] else [])
  }

  /** Paints one text block: measures nothing itself (widths[i] is the measured
      width of text[i]), computes the total width and the start from the
      alignment, then walks the glyphs with a cursor. */
  method DrawTextWithSpacing(text: string, widths: seq<real>, x: real, y: real, style: Style)
    returns (ops: seq<PaintOp>)
    requires |widths| == |text|
    ensures ops == Trace(text, widths, x, y, style)
  {
    ops := [];
    if |text| == 0 {
      return;
    }
    var spacing := style.letterSpacing as real;
    var totalWidth := TotalWidth(widths, spacing);
    var startX := StartX(x, totalWidth, style.align);
    ghost var r := Run(text, widths, startX, y, spacing, style.strokeWidth > 0);
    var cursor := startX;
    var i := 0;
    while i < |text|
      invariant 0 <= i <= |text|
      invariant cursor == Pen(r, i)
      invariant ops == Ops(r, i)
    {
      var ch := text[i];
      var w := widths[i];
      if style.strokeWidth > 0 {
        ops := ops + [Stroke(ch, cursor + w / 2.0, y)];
      }
      ops := ops + [Fill(ch, cursor + w / 2.0, y)];
      cursor := cursor + w + spacing;
      i := i + 1;
    }
  }

  // ---------------------------------------------------------------------
  // Properties of the layout

  lemma SumStep(ws: seq<real>, i: nat)
    requires i < |ws|
    ensures Sum(ws[..i + 1]) == Sum(ws[..i]) + ws[i]
  {
    assert ws[..i + 1][..i] == ws[..i];
  }

  /** The cursor before glyph i is the start plus the widths of the glyphs
      before it plus one gap for each of them. */
  lemma {:induction false} PenClosedForm(r: Run, i: nat)
    requires WellFormed(r) && i <= |r.glyphs|
    ensures Pen(r, i) == r.startX + Sum(r.widths[..i]) + r.spacing * (i as real)
  {
    if i == 0 {
      assert r.widths[..0] == [];
    } else {
      PenClosedForm(r, i - 1);
      SumStep(r.widths, i - 1);
      assert r.spacing * (i as real) == r.spacing * ((i - 1) as real) + r.spacing;
    }
  }

  /** After the loop the cursor has passed the whole run and one trailing gap. */
  lemma PenAfterRun(r: Run)
    requires WellFormed(r)
    ensures Pen(r, |r.glyphs|) == r.startX + TotalWidth(r.widths, r.spacing) + r.spacing
  {
    PenClosedForm(r, |r.glyphs|);
    assert r.widths[..|r.widths|] == r.widths;
    var n := |r.widths| as real;
    assert r.spacing * n == r.spacing * (n - 1.0) + r.spacing;
  }

  /** The first glyph's left edge is the start and the last glyph's right edge
      is the start plus the total width. */
  lemma RunExtent(r: Run)
    requires WellFormed(r) && |r.glyphs| > 0
    ensures Center(r, 0) - r.widths[0] / 2.0 == r.startX
    ensures Center(r, |r.glyphs| - 1) + r.widths[|r.glyphs| - 1] / 2.0
            == r.startX + TotalWidth(r.widths, r.spacing)
  {
    var n := |r.glyphs|;
    PenClosedForm(r, n - 1);
    assert r.widths[..n] == r.widths;
    SumStep(r.widths, n - 1);
  }

  /** The alignment mode anchors the traced run at x. The run is measured
      from the first traced glyph position minus half its width to the last
      traced position plus half its width. Its midpoint is at x for "center",
      its right end for "right" and its left end otherwise. */
  lemma AlignmentAnchorsRun(text: string, widths: seq<real>, x: real, y: real, style: Style)
    requires |widths| == |text| > 0
    ensures var r := RunOf(text, widths, x, y, style);
            var left := Center(r, 0) - widths[0] / 2.0;
            var right := Center(r, |text| - 1) + widths[|text| - 1] / 2.0;
            && right - left == TotalWidth(widths, style.letterSpacing as real)
            && (style.align == "center" ==> (left + right) / 2.0 == x)
            && (style.align == "right" ==> right == x)
            && (style.align != "center" && style.align != "right" ==> left == x)
  {
    RunExtent(RunOf(text, widths, x, y, style));
  }

  /** For two or more glyphs, a larger letter spacing makes a strictly wider run. */
  lemma TotalWidthGrowsWithSpacing(ws: seq<real>, s1: real, s2: real)
    requires |ws| >= 2 && s1 < s2
    ensures TotalWidth(ws, s1) < TotalWidth(ws, s2)
  {
    var k := (|ws| - 1) as real;
    assert (s2 - s1) * k >= s2 - s1 > 0.0;
    assert s2 * k - s1 * k == (s2 - s1) * k;
  }

  /** Each glyph contributes PerGlyph calls. */
  lemma {:induction false} OpsLength(r: Run, i: nat)
    requires WellFormed(r) && i <= |r.glyphs|
    ensures |Ops(r, i)| == i * PerGlyph(r)
  {
    if i > 0 {
      OpsLength(r, i - 1);
    }
  }

  /** Glyph j's fill is its last call and sits at the glyph's centre and the
      run's y; when outlines are on, its stroke comes immediately before it,
      at the same place. */
  lemma {:induction false} OpsAt(r: Run, i: nat, j: nat)
    requires WellFormed(r) && j < i <= |r.glyphs|
    ensures |Ops(r, i)| == i * PerGlyph(r)
    ensures Ops(r, i)[PerGlyph(r) * j + PerGlyph(r) - 1] == Fill(r.glyphs[j], Center(r, j), r.y)
    ensures r.stroke ==> Ops(r, i)[2 * j] == Stroke(r.glyphs[j], Center(r, j), r.y)
  {
    OpsLength(r, i);
    OpsLength(r, i - 1);
    var k := PerGlyph(r);
    if j < i - 1 {
      OpsAt(r, i - 1, j);
      assert k * j + k - 1 < (i - 1) * k by {
        assert k * j + k == k * (j + 1);
        assert j + 1 <= i - 1;
      }
    } else {
      assert |Ops(r, i - 1)| == k * j;
    }
  }

  lemma {:induction false} FillsAppend(a: seq<PaintOp>, b: seq<PaintOp>)
    ensures Fills(a + b) == Fills(a) + Fills(b)
  {
    if |b| > 0 {
      assert (a + b)[..|a + b| - 1] == a + b[..|b| - 1];
      FillsAppend(a, b[..|b| - 1]);
    } else {
      assert a + b == a;
    }
  }

  lemma {:induction false} StrokesAppend(a: seq<PaintOp>, b: seq<PaintOp>)
    ensures Strokes(a + b) == Strokes(a) + Strokes(b)
  {
    if |b| > 0 {
      assert (a + b)[..|a + b| - 1] == a + b[..|b| - 1];
      StrokesAppend(a, b[..|b| - 1]);
    } else {
      assert a + b == a;
    }
  }

  /** One glyph's calls fill that glyph once, and stroke it once when outlines are on. */
  lemma GlyphOpsChars(ch: char, cx: real, y: real, stroke: bool)
    ensures Fills(GlyphOps(ch, cx, y, stroke)) == [ch]
    ensures Strokes(GlyphOps(ch, cx, y, stroke)) == if stroke then [ch] else []
  {
    var g := GlyphOps(ch, cx, y, stroke);
    if stroke {
      assert g == [Stroke(ch, cx, y), Fill(ch, cx, y)];
      var first := g[..1];
      assert first == [Stroke(ch, cx, y)] && first[..0] == [];
      assert Fills(first) == Fills(first[..0]) == [];
      assert Strokes(first) == Strokes(first[..0]) + [ch] == [ch];
      assert Fills(g) == Fills(first) + [ch];
      assert Strokes(g) == Strokes(first);
    } else {
      assert g == [Fill(ch, cx, y)];
      assert g[..0] == [];
    }
  }

  /** Appending one glyph's calls appends that glyph to the fills. */
  lemma FillsStep(prev: seq<PaintOp>, ch: char, cx: real, y: real, stroke: bool)
    ensures Fills(prev + GlyphOps(ch, cx, y, stroke)) == Fills(prev) + [ch]
  {
    FillsAppend(prev, GlyphOps(ch, cx, y, stroke));
    GlyphOpsChars(ch, cx, y, stroke);
  }

  /** Appending one glyph's calls appends that glyph to the strokes when outlines are on. */
  lemma StrokesStep(prev: seq<PaintOp>, ch: char, cx: real, y: real, stroke: bool)
    ensures Strokes(prev + GlyphOps(ch, cx, y, stroke)) == Strokes(prev) + (if stroke then [ch] else [])
  {
    StrokesAppend(prev, GlyphOps(ch, cx, y, stroke));
    GlyphOpsChars(ch, cx, y, stroke);
  }

  /** The fills of the first i glyphs spell those glyphs, in order. */
  lemma {:induction false} OpsFills(r: Run, i: nat)
    requires WellFormed(r) && i <= |r.glyphs|
    ensures Fills(Ops(r, i)) == r.glyphs[..i]
  {
    if i == 0 {
      assert r.glyphs[..0] == [];
    } else {
      OpsFills(r, i - 1);
      FillsStep(Ops(r, i - 1), r.glyphs[i - 1], Center(r, i - 1), r.y, r.stroke);
      assert r.glyphs[..i] == r.glyphs[..i - 1] + [r.glyphs[i - 1]];
    }
  }

  /** The strokes of the first i glyphs spell those glyphs when outlines are
      on, and are absent otherwise. */
  lemma {:induction false} OpsStrokes(r: Run, i: nat)
    requires WellFormed(r) && i <= |r.glyphs|
    ensures Strokes(Ops(r, i)) == if r.stroke then r.glyphs[..i] else []
  {
    if i == 0 {
      assert r.glyphs[..0] == [];
    } else {
      OpsStrokes(r, i - 1);
      StrokesStep(Ops(r, i - 1), r.glyphs[i - 1], Center(r, i - 1), r.y, r.stroke);
      assert r.glyphs[..i] == r.glyphs[..i - 1] + [r.glyphs[i - 1]];
    }
  }

  /** Painting a text block: no calls for empty text; otherwise exactly one
      fill per code point in left-to-right order, and a stroke per code point
      if and only if the stroke width is positive. */
  lemma TraceGlyphs(text: string, widths: seq<real>, x: real, y: real, style: Style)
    requires |widths| == |text|
    ensures |text| == 0 ==> Trace(text, widths, x, y, style) == []
    ensures Fills(Trace(text, widths, x, y, style)) == text
    ensures Strokes(Trace(text, widths, x, y, style)) == if style.strokeWidth > 0 then text else []
    ensures |Trace(text, widths, x, y, style)| == |text| * (if style.strokeWidth > 0 then 2 else 1)
  {
    if |text| > 0 {
      var r := RunOf(text, widths, x, y, style);
      OpsFills(r, |text|);
      OpsStrokes(r, |text|);
      OpsLength(r, |text|);
      assert text[..|text|] == text;
    }
  }

  /** The horizontal centre of glyph j written out: the run's start, the
      widths of the glyphs before it, one gap for each of them, and half of
      its own width. */
  function GlyphX(text: string, widths: seq<real>, x: real, style: Style, j: nat): (cx: real)
    requires |widths| == |text| && j < |text|
  {
    var spacing := style.letterSpacing as real;
    StartX(x, TotalWidth(widths, spacing), style.align)
      + Sum(widths[..j]) + spacing * (j as real) + widths[j] / 2.0
  }

  /** Glyph j of a painted text block is filled at GlyphX on the block's y;
      with a positive stroke width its outline is painted at the same point
      immediately before. */
  lemma TracePlacement(text: string, widths: seq<real>, x: real, y: real, style: Style, j: nat)
    requires |widths| == |text| && j < |text|
    ensures style.strokeWidth > 0 ==>
              && |Trace(text, widths, x, y, style)| == 2 * |text|
              && Trace(text, widths, x, y, style)[2 * j] == Stroke(text[j], GlyphX(text, widths, x, style, j), y)
              && Trace(text, widths, x, y, style)[2 * j + 1] == Fill(text[j], GlyphX(text, widths, x, style, j), y)
    ensures style.strokeWidth <= 0 ==>
              && |Trace(text, widths, x, y, style)| == |text|
              && Trace(text, widths, x, y, style)[j] == Fill(text[j], GlyphX(text, widths, x, style, j), y)
  {
    var r := RunOf(text, widths, x, y, style);
    assert Trace(text, widths, x, y, style) == Ops(r, |text|);
    OpsAt(r, |text|, j);
    PenClosedForm(r, j);
    assert Center(r, j) == GlyphX(text, widths, x, style, j);
  }
}
