/** The integer geometry types of the toolkit's math API (`Point`, `Size`, `Rect`). */
module Geometry {

  datatype Point = Point(x: int, y: int)

  /** `Size()` is the zero size; negative components are representable (`Size{-1, -1}`
      is used as "no maximum"). */
  datatype Size = Size(width: int, height: int)

  const DefaultSize: Size := Size(0, 0)
  const Origin: Point := Point(0, 0)

  /** A rectangle by its edges; the constructor `Rect(x, y, size)` of the math API sets
      `right = x + width` and `bottom = y + height`. */
  datatype Rect = Rect(left: int, top: int, right: int, bottom: int) {
    function Width(): int { right - left }
    function Height(): int { bottom - top }
  }

  function RectAt(x: int, y: int, s: Size): (r: Rect)
    ensures r.left == x && r.top == y
    ensures r.Width() == s.width && r.Height() == s.height
  {
    Rect(x, y, x + s.width, y + s.height)
  }
}
