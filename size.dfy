/** Size.swift: a size read along an axis. */
module AxisSize {
  import opened CoreGraphics

  /**
   * `Size(axis:cgSize:)` stores the size unchanged; `length` is the extent along
   * `axis` and `crossLength` the other one.
   */
  datatype Size = Size(axis: Axis, cgSize: CGSize) {

    function Length(): real {
      match axis
      case X => cgSize.width
      case Y => cgSize.height
    }

    function CrossLength(): real {
      match axis
      case X => cgSize.height
      case Y => cgSize.width
    }

    /** The `length` setter. */
    function WithLength(value: real): (s: Size)
      ensures s.axis == axis && s.Length() == value && s.CrossLength() == CrossLength()
    {
      match axis
      case X => Size(axis, cgSize.(width := value))
      case Y => Size(axis, cgSize.(height := value))
    }

    /** The `crossLength` setter. */
    function WithCrossLength(value: real): (s: Size)
      ensures s.axis == axis && s.CrossLength() == value && s.Length() == Length()
    {
      match axis
      case X => Size(axis, cgSize.(height := value))
      case Y => Size(axis, cgSize.(width := value))
    }
  }

  /** `Size(axis:length:crossLength:)` */
  function MakeSize(axis: Axis, length: real, crossLength: real): (s: Size)
    ensures s.axis == axis && s.Length() == length && s.CrossLength() == crossLength
  {
    match axis
    case X => Size(axis, CGSize(length, crossLength))
    case Y => Size(axis, CGSize(crossLength, length))
  }

  /** A size is determined by its axis, length and cross length. */
  lemma MakeSizeFromParts(s: Size)
    ensures MakeSize(s.axis, s.Length(), s.CrossLength()) == s
  {
  }

  /** Along `x` the length is the width; along `y` it is the height. */
  lemma AxisComponents(c: CGSize)
    ensures Size(X, c).Length() == c.width && Size(X, c).CrossLength() == c.height
    ensures Size(Y, c).Length() == c.height && Size(Y, c).CrossLength() == c.width
  {
  }

  /** The same `CGSize` read along the other axis swaps length and cross length. */
  lemma OtherAxisSwaps(c: CGSize)
    ensures Size(X, c).Length() == Size(Y, c).CrossLength()
    ensures Size(X, c).CrossLength() == Size(Y, c).Length()
  {
  }
}
