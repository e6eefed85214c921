/** Pointer handling: mapping a pointer position from the page into canvas
    pixels, and deciding which text block a pointer is over. */
module Pointer {

  /** Which text block a drag (or a double click) concerns; `NoTarget` is the
      script's null. */
  datatype Target = NoTarget | TopBlock | BottomBlock

  /** The canvas's bounding box on the page, in display pixels. */
  datatype ClientRect = ClientRect(left: real, top: real, width: real, height: real)

  datatype Point = Point(x: real, y: real)

  /** Page position to canvas position: the canvas may be shown at a size
      other than its pixel size, so each axis is scaled by its own factor. */
  function MousePos(clientX: real, clientY: real, rect: ClientRect, canvasW: int, canvasH: int): (p: Point)
    requires rect.width > 0.0 && rect.height > 0.0
    ensures canvasW > 0 && canvasH > 0 ==>
              ToClient(p, rect, canvasW, canvasH) == Point(clientX, clientY)
  {
    Point((clientX - rect.left) * (canvasW as real / rect.width),
          (clientY - rect.top) * (canvasH as real / rect.height))
  }

  /** Canvas position back to page position. */
  function ToClient(p: Point, rect: ClientRect, canvasW: int, canvasH: int): (c: Point)
    requires canvasW > 0 && canvasH > 0
  {
    Point(p.x * (rect.width / canvasW as real) + rect.left,
          p.y * (rect.height / canvasH as real) + rect.top)
  }

  /** Mapping a page position into the canvas and back gives the position back. */
  lemma MousePosRoundTrip(clientX: real, clientY: real, rect: ClientRect, canvasW: int, canvasH: int)
    requires rect.width > 0.0 && rect.height > 0.0 && canvasW > 0 && canvasH > 0
    ensures ToClient(MousePos(clientX, clientY, rect, canvasW, canvasH), rect, canvasW, canvasH)
            == Point(clientX, clientY)
  {
  }

  /** The canvas's displayed corners map to the canvas's pixel corners. */
  lemma MousePosCorners(rect: ClientRect, canvasW: int, canvasH: int)
    requires rect.width > 0.0 && rect.height > 0.0
    ensures MousePos(rect.left, rect.top, rect, canvasW, canvasH) == Point(0.0, 0.0)
    ensures MousePos(rect.left + rect.width, rect.top + rect.height, rect, canvasW, canvasH)
            == Point(canvasW as real, canvasH as real)
  {
  }

  function Abs(r: real): (a: real)
  {
    if r < 0.0 then -r else r
  }

  /** The vertical distance within which a pointer grabs a text block. */
  function Threshold(fontSize: int): (t: real)
  {
    fontSize as real * 0.8
  }

  /** A pointer at height py is over a block centred at height blockY. Only
      the vertical distance counts. */
  predicate Near(py: real, blockY: real, fontSize: int)
  {
    Abs(py - blockY) < Threshold(fontSize)
  }

  /** The block under the pointer: the top block whenever it is near, even if
      the bottom block is near too; the bottom block only when the top one is
      not near; otherwise none. */
  function Locate(py: real, topY: real, bottomY: real, fontSize: int): (t: Target)
    ensures t == TopBlock <==> Near(py, topY, fontSize)
    ensures t == BottomBlock <==> !Near(py, topY, fontSize) && Near(py, bottomY, fontSize)
    ensures t == NoTarget <==> !Near(py, topY, fontSize) && !Near(py, bottomY, fontSize)
  {
    if Abs(py - topY) < Threshold(fontSize) then TopBlock
    else if Abs(py - bottomY) < Threshold(fontSize) then BottomBlock
    else NoTarget
  }

  /** With a font size of zero or less nothing can ever be grabbed. */
  lemma LocateNonPositiveFont(py: real, topY: real, bottomY: real, fontSize: int)
    requires fontSize <= 0
    ensures Locate(py, topY, bottomY, fontSize) == NoTarget
  {
  }

  /** A block is grabbed exactly within the open band of half-height
      0.8 x fontSize around its y. */
  lemma NearBand(py: real, blockY: real, fontSize: int)
    ensures Near(py, blockY, fontSize) <==>
              blockY - Threshold(fontSize) < py < blockY + Threshold(fontSize)
  {
  }
}
