/**
 * The geometry of the pen's arrowhead icon, as `drawNew` selects it.
 *
 * The icon is the closed polygon centre -> left wing -> apex -> right wing.
 * Each vertex is given in polar form around the centre: a length as a
 * multiple of half the icon's width, and an angle in degrees. Computing the
 * points (`distanceAngle`) and filling the canvas are not modelled.
 */
module Icon {

  /** Which end of the arrow sits on the pen's position (`penPoint`). */
  datatype PenPoint = Tip | Middle

  datatype Option<T> = None | Some(value: T)

  /** A vertex of the icon relative to its centre. */
  datatype Polar = Polar(scale: real, angle: int)

  datatype Arrow = Arrow(apex: Polar, left: Polar, right: Polar)

  /**
   * The direction the icon is drawn along: `facing || heading`. A missing
   * `facing`, and a `facing` of 0 (falsy in JavaScript), fall back to the
   * pen's own heading.
   */
  function Direction(facing: Option<int>, heading: int): (d: int)
    ensures facing == None || facing == Some(0) ==> d == heading
    ensures facing.Some? && facing.value != 0 ==> d == facing.value
  {
    match facing
    case None => heading
    case Some(f) => if f != 0 then f else heading
  }

  /** The arrowhead for a pivot convention and a direction. */
  function ArrowFor(pivot: PenPoint, direction: int): (a: Arrow)
    ensures a.apex.scale == 3.0 / 4.0
    ensures a.left.scale == a.right.scale > 0.0
    ensures a.left.angle - direction == direction - a.right.angle
  {
    match pivot
    case Tip =>
      Arrow(Polar(0.75, direction - 180), Polar(1.0, direction + 195), Polar(1.0, direction - 195))
    case Middle =>
      Arrow(Polar(0.75, direction), Polar(0.33, direction + 230), Polar(0.33, direction - 230))
  }

  /** The arrow turned by `delta` degrees about its centre. */
  function Rotated(a: Arrow, delta: int): Arrow
  {
    Arrow(Polar(a.apex.scale, a.apex.angle + delta),
          Polar(a.left.scale, a.left.angle + delta),
          Polar(a.right.scale, a.right.angle + delta))
  }

  /** Turning the direction turns the whole icon rigidly with it. */
  lemma ArrowTurnsWithDirection(pivot: PenPoint, direction: int, delta: int)
    ensures ArrowFor(pivot, direction + delta) == Rotated(ArrowFor(pivot, direction), delta)
  {
  }

  /**
   * The two conventions put the apex at the same distance but on opposite
   * sides of the centre: with `Tip` the apex trails the direction, with
   * `Middle` it leads; and the `Tip` wings spread wider and further out.
   */
  lemma PivotsOpposite(direction: int)
    ensures ArrowFor(Middle, direction).apex.angle - ArrowFor(Tip, direction).apex.angle == 180
    ensures ArrowFor(Middle, direction).apex.scale == ArrowFor(Tip, direction).apex.scale
    ensures ArrowFor(Tip, direction).left.scale > ArrowFor(Middle, direction).left.scale
    ensures ArrowFor(Tip, direction).apex.angle == direction - 180
    ensures ArrowFor(Middle, direction).apex.angle == direction
  {
  }
}
