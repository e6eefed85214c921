/** The shared text style of a meme: one record applied identically to the
    top and the bottom text block. */
module Styles {

  /** Text appearance. Sizes and spacing are whole pixels, as the sliders
      deliver them; `align` is kept as the string the alignment selector
      sends, because anything other than "center" or "right" lays text out
      from the left edge. Colours are CSS colour strings. */
  datatype Style = Style(
    fontFamily: string,
    fontSize: int,
    textColor: string,
    strokeColor: string,
    strokeWidth: int,
    letterSpacing: int,
    align: string,
    shadow: bool)

  /** The style a fresh or cleared document starts with. */
  const DefaultStyle: Style :=
    Style("Impact", 64, "#ffffff", "#000000", 6, 0, "center", true)
}
