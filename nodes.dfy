/**
 * The tree of layouts. Each constructor is one `Layout` of the library (plus the
 * two leaf elements the library's tests lay out); `Measure` is `calculateSize(in:)`
 * and `Place` is `layout(in:)`, whose only effect is the log of leaf assignments.
 */
module Layouts {
  import opened Wrappers
  import opened CoreGraphics
  import opened AxisPoint
  import opened AxisSize
  import opened EdgeInsets
  import opened Alignments
  import opened LayoutProtocol
  import opened StackAlgorithm
  import opened SizeLayoutSizing
  import opened ZLayoutSizing
  import opened TextLayoutSizing
  import opened ImageLayoutSizing
  import opened ButtonLayoutSizing

  datatype Node =
      /** `Element` (Tests/Element.swift): asks for the whole parent and records where it was put. */
    | ElementLeaf(id: nat)
      /** `SizedElement`: asks for `fixedSize` and records it at the origin it was given. */
    | SizedElementLeaf(id: nat, fixedSize: CGSize)
      /** `SizeLayout` */
    | SizeNode(child: Node, width: Option<real>, height: Option<real>, option: Option<SizeOption>, alignment: Alignment)
      /** `InsetLayout` */
    | InsetNode(child: Node, insets: Insets)
      /** `ZLayout` */
    | ZNode(children: seq<Node>)
      /** `StackLayout` */
    | StackNode(axis: Axis, elements: seq<LayoutElement<Node>>, convertOffset: Option<real -> real>)
      /** `TextLayout` */
    | TextNode(textElement: TextElement<Node>, alignment: Alignment, options: TextSizeOption)
      /** `ImageLayout` */
    | ImageNode(imageElement: ImageElement<Node>, alignment: Alignment)
      /** `ButtonLayout` */
    | ButtonNode(buttonElement: ButtonElement<Node>, imageSize: Option<CGSize>, insets: Insets,
                 buttonOption: Option<ButtonSizeOption>, alignment: Alignment)
      /** `Block` (StackLayoutBuilder.swift) */
    | BlockNode(child: Node, length: Option<real>, offset: real, crossOffset: real, flexible: Flexible)

  /** `calculateSize(in:)` */
  function Measure(n: Node, rect: CGRect): CGSize
    decreases n, 1
  {
    match n
    case ElementLeaf(_) => rect.size
    case SizedElementLeaf(_, fixedSize) => fixedSize
    case SizeNode(child, width, height, option, _) => SizeLayoutSize(width, height, option, rect, Measure(child, rect))
    case InsetNode(child, insets) => Measure(child, InsetRect(rect, insets))
    case ZNode(children) => LargestByArea(seq(|children|, i requires 0 <= i < |children| => Measure(children[i], rect)), rect.size)
    case StackNode(axis, elements, convertOffset) =>
      StackCalculateSize(axis, elements, ChildSizes(n, rect), Converter(convertOffset), rect)
    case TextNode(element, _, options) => TextSize(element, options, rect)
    case ImageNode(element, _) => ImageSize(element, rect)
    case ButtonNode(element, imageSize, insets, option, _) => ButtonSize(element, imageSize, insets, option, rect)
    case BlockNode(child, _, _, _, _) => Measure(child, rect)
  }

  /** The size each element of a stack asks for in the stack's rectangle. */
  function ChildSizes(n: Node, rect: CGRect): (r: seq<CGSize>)
    requires n.StackNode?
    ensures |r| == |n.elements| && forall i :: 0 <= i < |r| ==> r[i] == Measure(n.elements[i].child, rect)
    decreases n, 0
  {
    seq(|n.elements|, i requires 0 <= i < |n.elements| => Measure(n.elements[i].child, rect))
  }

  /** A child laid out in the rectangle its parent computed: the parent's size, at the alignment point. */
  function AlignedRect(alignment: Alignment, size: CGSize, rect: CGRect): CGRect {
    CGRect(alignment.PointFor(size, rect), size)
  }

  /** The walk of a stack in `rect`. */
  function StackWalk(n: Node, rect: CGRect): (w: Walk)
    requires n.StackNode?
    ensures w.axis == n.axis && |w.ms| == |n.elements|
    decreases n, 1
  {
    var ms := Measurements(n.axis, n.elements, ChildSizes(n, rect), Converter(n.convertOffset), rect);
    Walk(n.axis, ms, Point(n.axis, rect.origin), Size(n.axis, rect.size).CrossLength(), Placer(n))
  }

  /** `layout(in:)` of a stack's element `i` (the element's own `layout(in:)` delegates to its child). */
  function Placer(n: Node): (nat, CGRect) -> Placement
    requires n.StackNode?
    decreases n, 0
  {
    (i: nat, r: CGRect) => if i < |n.elements| then Place(n.elements[i].child, r) else Placement(r, [])
  }

  /** The walk lays element `k` out by that element's own `layout(in:)`. */
  lemma StackWalkPlaces(n: Node, rect: CGRect, k: nat)
    requires n.StackNode? && k < |n.elements|
    ensures StackWalk(n, rect).Placed(k) == Place(n.elements[k].child, StackWalk(n, rect).Container(k))
  {
  }

  /** A stack's placement: at the parent's origin, sized by its walk, with its elements' writes in order. */
  lemma StackPlacement(n: Node, rect: CGRect)
    requires n.StackNode?
    ensures Place(n, rect) == Placement(CGRect(rect.origin, StackWalk(n, rect).LayoutedSize().cgSize),
                                        StackWalk(n, rect).Writes(|n.elements|))
  {
  }

  /** `layout(in:)` */
  function Place(n: Node, rect: CGRect): Placement
    decreases n, 2
  {
    match n
    case ElementLeaf(id) => Placement(rect, [Write(id, CGRect(rect.origin, rect.size))])
    case SizedElementLeaf(id, fixedSize) => Placement(rect, [Write(id, CGRect(rect.origin, fixedSize))])
    case SizeNode(child, _, _, _, alignment) => Place(child, AlignedRect(alignment, Measure(n, rect), rect))
    case InsetNode(child, insets) => Place(child, InsetRect(rect, insets))
    case ZNode(children) =>
      Placement(CGRect(rect.origin, Measure(n, rect)),
                Flatten(seq(|children|, i requires 0 <= i < |children| => Place(children[i], rect).writes)))
    case StackNode(_, _, _) =>
      var w := StackWalk(n, rect);
      Placement(CGRect(rect.origin, w.LayoutedSize().cgSize), w.Writes(|w.ms|))
    case TextNode(element, alignment, _) => Place(element.view, AlignedRect(alignment, Measure(n, rect), rect))
    case ImageNode(element, alignment) => Place(element.view, AlignedRect(alignment, Measure(n, rect), rect))
    case ButtonNode(element, _, _, _, alignment) => Place(element.view, AlignedRect(alignment, Measure(n, rect), rect))
    case BlockNode(child, _, _, _, _) => Place(child, rect)
  }

  /**
   * `layout(in:)` as the library runs it: a `ZLayout` lays its children out one
   * after another in a loop, a `StackLayout` walks its elements (`LayoutStack`),
   * and every other layout computes its child's rectangle and delegates.
   */
  method LayoutNode(n: Node, rect: CGRect) returns (p: Placement)
    ensures p == Place(n, rect)
    decreases n, 1
  {
    match n
    case ElementLeaf(id) =>
      p := Placement(rect, [Write(id, CGRect(rect.origin, Measure(n, rect)))]);
    case SizedElementLeaf(id, _) =>
      p := Placement(rect, [Write(id, CGRect(rect.origin, Measure(n, rect)))]);
    case SizeNode(child, _, _, _, alignment) =>
      var size := Measure(n, rect);
      var origin := alignment.PointFor(size, rect);
      p := LayoutNode(child, CGRect(origin, size));
    case InsetNode(child, insets) =>
      p := LayoutNode(child, InsetRect(rect, insets));
    case ZNode(children) =>
      var writes: seq<Write> := [];
      for index := 0 to |children|
        invariant writes == Flatten(seq(index, i requires 0 <= i < index => Place(children[i], rect).writes))
      {
        var placed := LayoutNode(children[index], rect);
        ghost var logs := seq(index, i requires 0 <= i < index => Place(children[i], rect).writes);
        FlattenSnoc(logs, placed.writes);
        assert logs + [placed.writes] == seq(index + 1, i requires 0 <= i < index + 1 => Place(children[i], rect).writes);
        writes := writes + placed.writes;
      }
      p := Placement(CGRect(rect.origin, Measure(n, rect)), writes);
    case StackNode(axis, elements, convertOffset) =>
      p := LayoutStack(axis, elements, convertOffset, rect);
    case TextNode(element, alignment, _) =>
      var size := Measure(n, rect);
      p := LayoutNode(element.view, CGRect(alignment.PointFor(size, rect), size));
    case ImageNode(element, alignment) =>
      var size := Measure(n, rect);
      p := LayoutNode(element.view, CGRect(alignment.PointFor(size, rect), size));
    case ButtonNode(element, _, _, _, alignment) =>
      var size := Measure(n, rect);
      p := LayoutNode(element.view, CGRect(alignment.PointFor(size, rect), size));
    case BlockNode(child, _, _, _, _) =>
      p := LayoutNode(child, rect);
  }

  /**
   * `StackLayout.layout(in:)` and `layoutElements(in:)`: the cursor starts at the
   * origin; for each measurement it moves by the element's offset, takes the
   * element's cross offset from the origin, lays the element out in a container as
   * long as its measurement and as long across as the parent, and moves on by the
   * length the element reports. The cursor is always the origin plus the walk's
   * advance so far.
   */
  method LayoutStack(axis: Axis, elements: seq<LayoutElement<Node>>, convertOffset: Option<real -> real>, rect: CGRect)
    returns (p: Placement)
    ensures p == Place(StackNode(axis, elements, convertOffset), rect)
    decreases StackNode(axis, elements, convertOffset), 0
  {
    var n := StackNode(axis, elements, convertOffset);
    var measurements := AllMeasurements(axis, elements, ChildSizes(n, rect), Converter(convertOffset), rect);
    ghost var w := StackWalk(n, rect);
    assert measurements == w.ms;
    var origin := Point(axis, rect.origin);
    var current := origin;
    var layoutedSizes: seq<Size> := [];
    var writes: seq<Write> := [];
    var size := Size(axis, rect.size);
    assert origin == w.origin && size.CrossLength() == w.crossLength;
    for index := 0 to |measurements|
      invariant current.axis == axis
      invariant current.Offset() == origin.Offset() + w.Advance(index)
      invariant layoutedSizes == w.PlacedSizes(index)
      invariant writes == w.Writes(index)
    {
      var measurement := measurements[index];
      current := current.WithOffset(current.Offset() + measurement.point.Offset());
      current := current.WithCrossOffset(origin.CrossOffset() + measurement.point.CrossOffset());
      var containerSize := MakeSize(axis, measurement.size.Length(), size.CrossLength());
      CursorContainer(w, index, current);
      var elementRect := LayoutNode(elements[index].child, CGRect(current.cgPoint, containerSize.cgSize));
      StackWalkPlaces(n, rect, index);
      var elementSize := Size(axis, elementRect.rect.size);
      CursorStep(w, index, current, layoutedSizes, writes, elementRect);
      current := current.WithOffset(current.Offset() + elementSize.Length());
      layoutedSizes := layoutedSizes + [elementSize];
      writes := writes + elementRect.writes;
    }
    var layoutedSize := MakeSize(axis, current.Offset() - origin.Offset(), MaxCrossLength(layoutedSizes, size.CrossLength()));
    assert layoutedSize == w.LayoutedSize();
    p := Placement(CGRect(rect.origin, layoutedSize.cgSize), writes);
    StackPlacement(n, rect);
  }
}
