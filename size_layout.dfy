/** SizeLayout.swift, the size computation: a fixed or parent-derived width and height, or one of the sizing options. */
module SizeLayoutSizing {
  import opened Wrappers
  import opened CoreGraphics

  /** `SizeLayout.SizeOption` */
  datatype SizeOption = UseChildSize | SquareByWidth | SquareByHeight

  /**
   * `calculateSize(in:)`: with no option, each stored dimension or else the
   * parent's; with an option, the child's own size or a square on one of the
   * parent's sides. `childSize` is the child's `calculateSize(in: rect)`.
   */
  function SizeLayoutSize(width: Option<real>, height: Option<real>, option: Option<SizeOption>,
                          rect: CGRect, childSize: CGSize): (r: CGSize)
    ensures option == None && width.Some? ==> r.width == width.value
    ensures option == None && width.None? ==> r.width == rect.Width()
    ensures option == None && height.Some? ==> r.height == height.value
    ensures option == None && height.None? ==> r.height == rect.Height()
    ensures option == Some(UseChildSize) ==> r == childSize
    ensures option == Some(SquareByWidth) ==> r.width == r.height == rect.Width()
    ensures option == Some(SquareByHeight) ==> r.width == r.height == rect.Height()
  {
    match option
    case None => CGSize(width.GetOr(rect.Width()), height.GetOr(rect.Height()))
    case Some(UseChildSize) => childSize
    case Some(SquareByWidth) => CGSize(rect.Width(), rect.Width())
    case Some(SquareByHeight) => CGSize(rect.Height(), rect.Height())
  }

  /** With an option set, the stored width and height play no part. */
  lemma OptionIgnoresStoredDimensions(w1: Option<real>, h1: Option<real>, w2: Option<real>, h2: Option<real>,
                                      option: SizeOption, rect: CGRect, childSize: CGSize)
    ensures SizeLayoutSize(w1, h1, Some(option), rect, childSize) == SizeLayoutSize(w2, h2, Some(option), rect, childSize)
  {
  }

  /** Only `useChildSize` depends on the child. */
  lemma OnlyUseChildSizeAsksTheChild(width: Option<real>, height: Option<real>, option: Option<SizeOption>,
                                     rect: CGRect, c1: CGSize, c2: CGSize)
    requires option != Some(UseChildSize)
    ensures SizeLayoutSize(width, height, option, rect, c1) == SizeLayoutSize(width, height, option, rect, c2)
  {
  }
}

/** SizeLayout.swift, the initialisers and the layout. */
module SizeLayouts {
  import opened Wrappers
  import opened CoreGraphics
  import opened AxisSize
  import opened Alignments
  import opened LayoutProtocol
  import opened SizeLayoutSizing
  import opened Layouts

  /** `init(child:side:alignment:)` */
  function SizeWithSide(child: Node, side: real, alignment: Alignment): Node {
    SizeWithWidthAndHeight(child, side, side, alignment)
  }

  /** `init(child:cgSize:alignment:)` */
  function SizeWithCGSize(child: Node, cgSize: CGSize, alignment: Alignment): Node {
    SizeWithWidthAndHeight(child, cgSize.width, cgSize.height, alignment)
  }

  /** `init(child:size:alignment:)`: a zero width or height is not stored, so that dimension comes from the parent. */
  function SizeWithSize(child: Node, size: Size, alignment: Alignment): (n: Node)
    ensures n.SizeNode? && n.child == child && n.option == None && n.alignment == alignment
    ensures n.width == (if size.cgSize.width == 0.0 then None else Some(size.cgSize.width))
    ensures n.height == (if size.cgSize.height == 0.0 then None else Some(size.cgSize.height))
  {
    var cgSize := size.cgSize;
    var width := if cgSize.width == 0.0 then None else Some(cgSize.width);
    var height := if cgSize.height == 0.0 then None else Some(cgSize.height);
    SizeNode(child, width, height, None, alignment)
  }

  /** `init(child:alignment:)` */
  function SizeOfParent(child: Node, alignment: Alignment): Node {
    SizeNode(child, None, None, None, alignment)
  }

  /** `init(child:option:alignment:)` */
  function SizeWithOption(child: Node, option: SizeOption, alignment: Alignment): Node {
    SizeNode(child, None, None, Some(option), alignment)
  }

  /** `init(child:width:alignment:)` */
  function SizeWithWidth(child: Node, width: Option<real>, alignment: Alignment): Node {
    SizeNode(child, width, None, None, alignment)
  }

  /** `init(child:height:alignment:)` */
  function SizeWithHeight(child: Node, height: Option<real>, alignment: Alignment): Node {
    SizeNode(child, None, height, None, alignment)
  }

  /** `init(child:width:height:alignment:)` */
  function SizeWithWidthAndHeight(child: Node, width: real, height: real, alignment: Alignment): Node {
    SizeNode(child, Some(width), Some(height), None, alignment)
  }

  /** A square layout asks for `side` by `side` whatever the parent and the child. */
  lemma SideIsSquare(child: Node, side: real, alignment: Alignment, rect: CGRect)
    ensures Measure(SizeWithSide(child, side, alignment), rect) == CGSize(side, side)
  {
  }

  /** A layout with a `CGSize` asks for exactly that size. */
  lemma CGSizeIsKept(child: Node, cgSize: CGSize, alignment: Alignment, rect: CGRect)
    ensures Measure(SizeWithCGSize(child, cgSize, alignment), rect) == cgSize
  {
  }

  /**
   * With `init(size:)` a zero component takes the parent's dimension and a
   * non-zero one is kept; a zero length therefore does not make an empty layout.
   */
  lemma ZeroComponentTakesParent(child: Node, size: Size, alignment: Alignment, rect: CGRect)
    ensures var r := Measure(SizeWithSize(child, size, alignment), rect);
            && r.width == (if size.cgSize.width == 0.0 then rect.Width() else size.cgSize.width)
            && r.height == (if size.cgSize.height == 0.0 then rect.Height() else size.cgSize.height)
  {
  }

  /** Without stored dimensions or option the layout asks for the whole (standardised) parent. */
  lemma PlainTakesParent(child: Node, alignment: Alignment, rect: CGRect)
    ensures Measure(SizeOfParent(child, alignment), rect) == CGSize(rect.Width(), rect.Height())
  {
  }

  /** `useChildSize` asks for exactly what the child asks for. */
  lemma UseChildSizeDelegates(child: Node, alignment: Alignment, rect: CGRect)
    ensures Measure(SizeWithOption(child, UseChildSize, alignment), rect) == Measure(child, rect)
  {
  }

  /**
   * `layout(in:)`: the child is laid out in the layout's own size at the alignment
   * point in the parent, and what the child returns is returned.
   */
  lemma SizeLayoutPlacesChild(n: Node, rect: CGRect)
    requires n.SizeNode?
    ensures var size := SizeLayoutSize(n.width, n.height, n.option, rect, Measure(n.child, rect));
            Place(n, rect) == Place(n.child, CGRect(n.alignment.PointFor(size, rect), size))
  {
  }

  /** A leaf inside a size layout is given the layout's size at the alignment point. */
  lemma LeafGetsAlignedSize(id: nat, width: Option<real>, height: Option<real>, option: Option<SizeOption>,
                            alignment: Alignment, rect: CGRect)
    ensures var n := SizeNode(ElementLeaf(id), width, height, option, alignment);
            var size := Measure(n, rect);
            Place(n, rect).writes == [Write(id, CGRect(alignment.PointFor(size, rect), size))]
            && Place(n, rect).rect == CGRect(alignment.PointFor(size, rect), size)
  {
  }
}
