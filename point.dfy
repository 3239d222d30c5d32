/** Point.swift: a point read along an axis. */
module AxisPoint {
  import opened CoreGraphics

  /**
   * `Point(axis:cgPoint:)` stores the point unchanged; `offset` is the coordinate
   * along `axis` and `crossOffset` the other one.
   */
  datatype Point = Point(axis: Axis, cgPoint: CGPoint) {

    function Offset(): real {
      match axis
      case X => cgPoint.x
      case Y => cgPoint.y
    }

    function CrossOffset(): real {
      match axis
      case X => cgPoint.y
      case Y => cgPoint.x
    }

    /** The `offset` setter. */
    function WithOffset(value: real): (p: Point)
      ensures p.axis == axis && p.Offset() == value && p.CrossOffset() == CrossOffset()
    {
      match axis
      case X => Point(axis, cgPoint.(x := value))
      case Y => Point(axis, cgPoint.(y := value))
    }

    /** The `crossOffset` setter. */
    function WithCrossOffset(value: real): (p: Point)
      ensures p.axis == axis && p.CrossOffset() == value && p.Offset() == Offset()
    {
      match axis
      case X => Point(axis, cgPoint.(y := value))
      case Y => Point(axis, cgPoint.(x := value))
    }
  }

  /** `Point(axis:offset:crossOffset:)` */
  function MakePoint(axis: Axis, offset: real, crossOffset: real): (p: Point)
    ensures p.axis == axis && p.Offset() == offset && p.CrossOffset() == crossOffset
  {
    match axis
    case X => Point(axis, CGPoint(offset, crossOffset))
    case Y => Point(axis, CGPoint(crossOffset, offset))
  }

  /** A point is determined by its axis, offset and cross offset. */
  lemma MakePointFromParts(p: Point)
    ensures MakePoint(p.axis, p.Offset(), p.CrossOffset()) == p
  {
  }

  /** Along `x` the offset is `x`; along `y` it is `y`. */
  lemma AxisComponents(c: CGPoint)
    ensures Point(X, c).Offset() == c.x && Point(X, c).CrossOffset() == c.y
    ensures Point(Y, c).Offset() == c.y && Point(Y, c).CrossOffset() == c.x
  {
  }

  /** The same `CGPoint` read along the other axis swaps offset and cross offset. */
  lemma OtherAxisSwaps(c: CGPoint)
    ensures Point(X, c).Offset() == Point(Y, c).CrossOffset()
    ensures Point(X, c).CrossOffset() == Point(Y, c).Offset()
  {
  }
}
