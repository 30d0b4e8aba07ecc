/** Core Graphics rectangles, over exact reals instead of CGFloat. */
module Geometry {

  /** An optional value: a closure result, a weak reference that may be gone, a snapshot that may be missing. */
  datatype Option<T> = None | Some(value: T)

  function Max(a: real, b: real): real { if a >= b then a else b }

  function Min(a: real, b: real): real { if a <= b then a else b }

  function Abs(a: real): real { if a >= 0.0 then a else -a }

  /**
   * A CGRect. The origin and the size are stored as given, so the size may be
   * negative; the accessors `width`, `height` and `maxY` answer for the
   * standardized rectangle, as Core Graphics does.
   */
  datatype Rect = Rect(x: real, y: real, width: real, height: real) {

    /** CGRect.width */
    function Width(): (w: real)
      ensures w >= 0.0 && (width >= 0.0 ==> w == width)
    {
      Abs(width)
    }

    /** CGRect.height */
    function Height(): (h: real)
      ensures h >= 0.0 && (height >= 0.0 ==> h == height)
    {
      Abs(height)
    }

    /** CGRect.maxY: the larger of the two horizontal edges. */
    function MaxY(): (m: real)
      ensures m >= y && m >= y + height
      ensures m == y || m == y + height
    {
      Max(y, y + height)
    }

    /** CGRect.midY */
    function MidY(): real { y + height / 2.0 }

    /** The same rectangle moved vertically; this is what `center.y += dy` does to the frame. */
    function ShiftedY(dy: real): Rect { this.(y := y + dy) }

    /** The same rectangle seen from a coordinate space whose origin is at (-dx, -dy). */
    function Translated(dx: real, dy: real): Rect { this.(x := x + dx, y := y + dy) }
  }
}
