/** Fitting the background picture into the canvas while keeping its
    proportions: the picture fills one axis exactly and is centred on the
    other, so it always lies inside the canvas. */
module AspectFit {

  /** The rectangle the picture is drawn into: offset and size, in canvas pixels. */
  datatype Rect = Rect(x: real, y: real, w: real, h: real)

  /** The draw rectangle for an image of imgW x imgH pixels on a canvas of
      canvasW x canvasH pixels. A picture relatively wider than the canvas
      takes the full width and is centred vertically; otherwise it takes the
      full height and is centred horizontally. */
  function Fit(imgW: int, imgH: int, canvasW: int, canvasH: int): (r: Rect)
    requires imgW > 0 && imgH > 0 && canvasW > 0 && canvasH > 0
    ensures 0.0 <= r.x && 0.0 <= r.y
    ensures r.x + r.w <= canvasW as real && r.y + r.h <= canvasH as real
  {
    var w := canvasW as real;
    var h := canvasH as real;
    var imgRatio := imgW as real / imgH as real;
    var canvasRatio := w / h;
    if imgRatio > canvasRatio then
      var drawH := w / imgRatio;
      Rect(0.0, (h - drawH) / 2.0, w, drawH)
    else
      var drawW := h * imgRatio;
      Rect((w - drawW) / 2.0, 0.0, drawW, h)
  }

  /** The fitted rectangle keeps the picture's proportions, fills the canvas
      along the axis where the picture is relatively longer, is centred on the
      other axis and lies within the canvas. */
  lemma FitContained(imgW: int, imgH: int, canvasW: int, canvasH: int)
    requires imgW > 0 && imgH > 0 && canvasW > 0 && canvasH > 0
    ensures var r := Fit(imgW, imgH, canvasW, canvasH);
            && r.w > 0.0 && r.h > 0.0
            && r.w * (imgH as real) == r.h * (imgW as real)
            && (imgW * canvasH > imgH * canvasW ==>
                  r.w == canvasW as real && r.x == 0.0 && r.y == (canvasH as real - r.h) / 2.0)
            && (imgW * canvasH <= imgH * canvasW ==>
                  r.h == canvasH as real && r.y == 0.0 && r.x == (canvasW as real - r.w) / 2.0)
            && 0.0 <= r.x && 0.0 <= r.y
            && r.x + r.w <= canvasW as real && r.y + r.h <= canvasH as real
  {
  }

  /** The drawn width over the drawn height is the picture's own ratio. */
  lemma FitKeepsRatio(imgW: int, imgH: int, canvasW: int, canvasH: int)
    requires imgW > 0 && imgH > 0 && canvasW > 0 && canvasH > 0
    ensures var r := Fit(imgW, imgH, canvasW, canvasH);
            r.h > 0.0 && r.w / r.h == (imgW as real) / (imgH as real)
  {
  }

  /** A picture whose size equals the canvas size is drawn over the whole canvas. */
  lemma FitSameSize(w: int, h: int)
    requires w > 0 && h > 0
    ensures Fit(w, h, w, h) == Rect(0.0, 0.0, w as real, h as real)
  {
  }
}
