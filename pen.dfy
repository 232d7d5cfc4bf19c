/** The live pen of the drawing demos. The pen remembers the canvas point of the
    last sample (`this.x`, `this.y`); each new sample is drawn as a stroke from
    that point, or as a dot when the pen has no usable last point. */
module Pen {
  import opened Base
  import opened Records

  /** A canvas coordinate as JavaScript holds it: `null` (no last point), `NaN`
      (`undefined + offset`, a record without `x`), or a number. */
  datatype Coord = Null | NaN | At(v: int)

  /** JavaScript truthiness: `null`, `NaN` and `0` are falsy. */
  predicate Truthy(c: Coord)
  {
    c.At? && c.v != 0
  }

  /** `a || b`. */
  function OrElse(a: Coord, b: Coord): Coord
  {
    if Truthy(a) then a else b
  }

  /** `info.x + offset` and `info.y + offset`: a record without coordinates gives
      `NaN` for both. */
  function CanvasX(r: Record, offset: int): Coord
  {
    if HasXY(r) then At(r.pose.x + offset) else NaN
  }

  function CanvasY(r: Record, offset: int): Coord
  {
    if HasXY(r) then At(r.pose.y + offset) else NaN
  }

  /** One `moveTo(fromX, fromY); lineTo(toX, toY); stroke()`. */
  datatype Stroke = Stroke(fromX: Coord, fromY: Coord, toX: Coord, toY: Coord)

  /** The stroke `draw` makes from the pen at `(x, y)` to `(toX, toY)`: each
      start coordinate is the pen's if that is truthy, the target's otherwise. */
  function StrokeTo(x: Coord, y: Coord, toX: Coord, toY: Coord): (s: Stroke)
    ensures s.toX == toX && s.toY == toY
    ensures Truthy(x) ==> s.fromX == x
    ensures !Truthy(x) ==> s.fromX == toX
    ensures Truthy(y) ==> s.fromY == y
    ensures !Truthy(y) ==> s.fromY == toY
  {
    Stroke(OrElse(x, toX), OrElse(y, toY), toX, toY)
  }

  /** After a reset (`x = y = null`) the next stroke is a dot at its target. */
  lemma StrokeAfterReset(toX: Coord, toY: Coord)
    ensures StrokeTo(Null, Null, toX, toY) == Stroke(toX, toY, toX, toY)
  {
  }

  /** After a record without coordinates (`NaN` for both) the next stroke is a
      dot at its target as well. */
  lemma StrokeAfterAngleRecord(toX: Coord, toY: Coord)
    ensures StrokeTo(NaN, NaN, toX, toY) == Stroke(toX, toY, toX, toY)
  {
  }

  /** A stroke continues from the last point exactly when that point is truthy
      in both coordinates; a last point on the canvas's zero line is mistaken
      for no point at all and the stroke starts at its target instead. */
  lemma StrokeContinues(x: int, y: int, toX: Coord, toY: Coord)
    ensures StrokeTo(At(x), At(y), toX, toY).fromX == (if x != 0 then At(x) else toX)
    ensures StrokeTo(At(x), At(y), toX, toY).fromY == (if y != 0 then At(y) else toY)
  {
  }

  /** The pen fields `this.x` and `this.y` of a drawing controller. */
  class PenState {
    var x: Coord
    var y: Coord

    /** `this.x = null; this.y = null` in the constructor. */
    constructor ()
      ensures x == Null && y == Null
    {
      x, y := Null, Null;
    }

    /** The pen part of `draw`: a stroke from the last point, which the target
        then replaces. */
    method DrawTo(toX: Coord, toY: Coord) returns (s: Stroke)
      modifies this
      ensures s == StrokeTo(old(x), old(y), toX, toY)
      ensures x == toX && y == toY
    {
      s := StrokeTo(x, y, toX, toY);
      x, y := toX, toY;
    }

    /** `drawFinish` and `replayDrawFinish`: forget the last point. */
    method Finish()
      modifies this
      ensures x == Null && y == Null
    {
      x, y := Null, Null;
    }
  }
}
