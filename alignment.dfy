/** Alignment.swift: placing a size inside a parent rectangle. */
module Alignments {
  import opened CoreGraphics

  /** An option set over a 64-bit raw value; `contains` tests that all of a member's bits are set. */
  datatype Alignment = Alignment(rawValue: bv64) {

    predicate Contains(member: Alignment) {
      rawValue & member.rawValue == member.rawValue
    }

    /** The set literal `[a, b]` is the union of its members. */
    function Union(other: Alignment): Alignment {
      Alignment(rawValue | other.rawValue)
    }

    /** `point(for:in:)` */
    function PointFor(size: CGSize, rect: CGRect): CGPoint {
      CGPoint(CalculateX(size, rect), CalculateY(size, rect))
    }

    /** Centred when `horizontalCenter` is set, else right-aligned when `right` is set, else at `minX`. */
    function CalculateX(size: CGSize, rect: CGRect): real {
      if Contains(HorizontalCenter) then rect.MinX() + (rect.Width() - size.width) * 0.5
      else if Contains(Right) then rect.MaxX() - size.width
      else rect.MinX()
    }

    /** Centred when `verticalCenter` is set, else bottom-aligned when `bottom` is set, else at `minY`. */
    function CalculateY(size: CGSize, rect: CGRect): real {
      if Contains(VerticalCenter) then rect.MinY() + (rect.Height() - size.height) * 0.5
      else if Contains(Bottom) then rect.MaxY() - size.height
      else rect.MinY()
    }
  }

  const Left := Alignment(1 << 0)
  const Right := Alignment(1 << 1)
  const HorizontalCenter := Alignment(1 << 2)
  const Top := Alignment(1 << 3)
  const Bottom := Alignment(1 << 4)
  const VerticalCenter := Alignment(1 << 5)

  /** The empty set `[]`, the default alignment of every layout. */
  const NoAlignment := Alignment(0)

  /** The six flags are the bits 0 to 5, so no flag contains another. */
  lemma FlagsAreDistinctBits()
    ensures Left.rawValue == 1 && Right.rawValue == 2 && HorizontalCenter.rawValue == 4
    ensures Top.rawValue == 8 && Bottom.rawValue == 16 && VerticalCenter.rawValue == 32
    ensures !Left.Contains(Right) && !Right.Contains(HorizontalCenter) && !HorizontalCenter.Contains(Left)
    ensures !Top.Contains(Bottom) && !Bottom.Contains(VerticalCenter) && !VerticalCenter.Contains(Top)
  {
  }

  /** The horizontal position is the one chosen by the centre flag, then the right flag, then the left edge. */
  lemma HorizontalRule(a: Alignment, size: CGSize, rect: CGRect)
    ensures a.Contains(HorizontalCenter) ==> a.PointFor(size, rect).x == rect.MinX() + (rect.Width() - size.width) * 0.5
    ensures !a.Contains(HorizontalCenter) && a.Contains(Right) ==> a.PointFor(size, rect).x == rect.MaxX() - size.width
    ensures !a.Contains(HorizontalCenter) && !a.Contains(Right) ==> a.PointFor(size, rect).x == rect.MinX()
  {
  }

  /** The vertical position is the one chosen by the centre flag, then the bottom flag, then the top edge. */
  lemma VerticalRule(a: Alignment, size: CGSize, rect: CGRect)
    ensures a.Contains(VerticalCenter) ==> a.PointFor(size, rect).y == rect.MinY() + (rect.Height() - size.height) * 0.5
    ensures !a.Contains(VerticalCenter) && a.Contains(Bottom) ==> a.PointFor(size, rect).y == rect.MaxY() - size.height
    ensures !a.Contains(VerticalCenter) && !a.Contains(Bottom) ==> a.PointFor(size, rect).y == rect.MinY()
  {
  }

  /** The centre flag wins over both edge flags of its dimension. */
  lemma CenterWins(a: Alignment, size: CGSize, rect: CGRect)
    ensures a.Union(HorizontalCenter).Union(Left).Union(Right).PointFor(size, rect).x
         == a.Union(HorizontalCenter).PointFor(size, rect).x
    ensures a.Union(VerticalCenter).Union(Top).Union(Bottom).PointFor(size, rect).y
         == a.Union(VerticalCenter).PointFor(size, rect).y
  {
  }

  /** `left` and `top` are the defaults: adding them never changes the point. */
  lemma LeftAndTopHaveNoEffect(a: Alignment, size: CGSize, rect: CGRect)
    ensures a.Union(Left).PointFor(size, rect) == a.PointFor(size, rect)
    ensures a.Union(Top).PointFor(size, rect) == a.PointFor(size, rect)
  {
  }

  /** `x` depends only on the horizontal flags and `y` only on the vertical ones. */
  lemma DimensionsAreIndependent(a: Alignment, b: Alignment, size: CGSize, rect: CGRect)
    ensures a.Contains(HorizontalCenter) == b.Contains(HorizontalCenter) && a.Contains(Right) == b.Contains(Right)
      ==> a.PointFor(size, rect).x == b.PointFor(size, rect).x
    ensures a.Contains(VerticalCenter) == b.Contains(VerticalCenter) && a.Contains(Bottom) == b.Contains(Bottom)
      ==> a.PointFor(size, rect).y == b.PointFor(size, rect).y
  {
  }

  /** With no flag set the origin is the parent's `(minX, minY)`. */
  lemma DefaultIsTopLeft(size: CGSize, rect: CGRect)
    ensures NoAlignment.PointFor(size, rect) == CGPoint(rect.MinX(), rect.MinY())
  {
  }
}
