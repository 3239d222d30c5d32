/** Insets.swift: edge insets and shrinking a rectangle by them. */
module EdgeInsets {
  import opened CoreGraphics

  datatype Insets = Insets(top: real, left: real, bottom: real, right: real)

  /** `Insets.zero`, which is also `Insets()` with every argument defaulted. */
  const Zero := Insets(0.0, 0.0, 0.0, 0.0)

  /** `Insets(equal:)` */
  function EqualInsets(value: real): (i: Insets)
    ensures i.top == value && i.left == value && i.bottom == value && i.right == value
  {
    Insets(value, value, value, value)
  }

  /** Edgewise sum of two insets. */
  function Sum(a: Insets, b: Insets): Insets {
    Insets(a.top + b.top, a.left + b.left, a.bottom + b.bottom, a.right + b.right)
  }

  /**
   * `CGRect.inset(by:)`: the origin moves right by `left` and down by `top`; the
   * (standardised) width loses `left + right` and the height `top + bottom`. The
   * result is not clamped, so it may have a negative size.
   */
  function InsetRect(rect: CGRect, insets: Insets): (r: CGRect)
    ensures r.origin.x - insets.left == rect.origin.x && r.origin.y - insets.top == rect.origin.y
    ensures r.size.width + insets.left + insets.right == rect.Width()
    ensures r.size.height + insets.top + insets.bottom == rect.Height()
  {
    Rect(
      rect.origin.x + insets.left,
      rect.origin.y + insets.top,
      rect.Width() - insets.left - insets.right,
      rect.Height() - insets.top - insets.bottom)
  }

  /** The default initialiser and `Insets.zero` give four zero edges. */
  lemma ZeroHasZeroEdges()
    ensures Zero == Insets(0.0, 0.0, 0.0, 0.0) && Zero == EqualInsets(0.0)
  {
  }

  /** Insetting by `.zero` is the identity on a rectangle of non-negative size. */
  lemma InsetByZero(rect: CGRect)
    requires HasNonNegativeSize(rect)
    ensures InsetRect(rect, Zero) == rect
  {
  }

  /**
   * Insetting by `a` and then by `b` is one inset by `a + b`, as long as the first
   * step leaves a non-negative size (otherwise the standardised read of the
   * intermediate width or height flips its sign).
   */
  lemma InsetTwice(rect: CGRect, a: Insets, b: Insets)
    requires HasNonNegativeSize(InsetRect(rect, a))
    ensures InsetRect(InsetRect(rect, a), b) == InsetRect(rect, Sum(a, b))
  {
  }

  /** The standardised read is why composition needs that requirement: a zero inset of a flipped rectangle is not the identity. */
  lemma InsetOfFlippedRect()
    ensures InsetRect(InsetRect(Rect(0.0, 0.0, 10.0, 10.0), Insets(0.0, 20.0, 0.0, 0.0)), Zero)
         != InsetRect(Rect(0.0, 0.0, 10.0, 10.0), Sum(Insets(0.0, 20.0, 0.0, 0.0), Zero))
  {
  }

  /** Insets larger than the rectangle give a negative size: nothing is clamped. */
  lemma InsetIsNotClamped()
    ensures InsetRect(Rect(0.0, 0.0, 10.0, 10.0), EqualInsets(6.0)).size == CGSize(-2.0, -2.0)
  {
  }
}
