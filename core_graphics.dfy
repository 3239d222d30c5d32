/**
 * The CoreGraphics values the layouts compute with. `CGFloat` is modelled as `real`.
 *
 * CoreGraphics reads a rectangle's `width`, `height`, `minX`, `maxX`, `minY` and
 * `maxY` from its standardised form (a negative stored width or height is read as
 * its absolute value, and the extremes are swapped accordingly), while `size` and
 * `origin` are the stored values.
 */
module CoreGraphics {

  /** The main axis of a stack (Axis.swift is not part of this model; these are the two cases the sources switch over). */
  datatype Axis = X | Y

  datatype CGPoint = CGPoint(x: real, y: real)

  datatype CGSize = CGSize(width: real, height: real)

  /** `CGSize.zero` */
  const ZeroSize := CGSize(0.0, 0.0)

  datatype CGRect = CGRect(origin: CGPoint, size: CGSize) {

    function Width(): real {
      if size.width < 0.0 then -size.width else size.width
    }

    function Height(): real {
      if size.height < 0.0 then -size.height else size.height
    }

    function MinX(): real {
      if size.width < 0.0 then origin.x + size.width else origin.x
    }

    function MaxX(): real {
      if size.width < 0.0 then origin.x else origin.x + size.width
    }

    function MinY(): real {
      if size.height < 0.0 then origin.y + size.height else origin.y
    }

    function MaxY(): real {
      if size.height < 0.0 then origin.y else origin.y + size.height
    }
  }

  /** `CGRect(x:y:width:height:)` */
  function Rect(x: real, y: real, width: real, height: real): CGRect {
    CGRect(CGPoint(x, y), CGSize(width, height))
  }

  predicate HasNonNegativeSize(r: CGRect) {
    r.size.width >= 0.0 && r.size.height >= 0.0
  }

  /** Standardised accessors agree with the stored values on a rectangle of non-negative size. */
  lemma StandardAccessors(r: CGRect)
    requires HasNonNegativeSize(r)
    ensures r.Width() == r.size.width && r.Height() == r.size.height
    ensures r.MinX() == r.origin.x && r.MaxX() == r.origin.x + r.size.width
    ensures r.MinY() == r.origin.y && r.MaxY() == r.origin.y + r.size.height
  {
  }
}
