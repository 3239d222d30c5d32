/**
 * StackLayoutBuilder.swift: the `Block` modifiers that annotate a layout with its
 * stack parameters, and the builder that turns a list of layouts into element
 * factories for `StackLayout(axis:make:)`.
 */
module StackLayoutBuilder {
  import opened Wrappers
  import opened CoreGraphics
  import opened AxisPoint
  import opened AxisSize
  import opened Alignments
  import opened LayoutProtocol
  import opened StackAlgorithm
  import opened Layouts
  import opened SizeLayouts
  import opened StackLayouts

  /** `self as? Block ?? .init(child: self)`: a block is kept, any other layout is wrapped with the defaults. */
  function AsBlock(layout: Node): (b: Node)
    ensures b.BlockNode?
    ensures layout.BlockNode? ==> b == layout
    ensures !layout.BlockNode? ==> b.child == layout && b.length == None && b.offset == 0.0
                                   && b.crossOffset == 0.0 && b.flexible == NotFlexible
  {
    if layout.BlockNode? then layout else BlockNode(layout, None, 0.0, 0.0, NotFlexible)
  }

  /** `length(_:)`: sets the block's length and keeps its other fields. */
  function WithLength(layout: Node, value: real): (b: Node)
    ensures b.BlockNode? && b.length == Some(value)
    ensures b.child == AsBlock(layout).child && b.offset == AsBlock(layout).offset && b.crossOffset == AsBlock(layout).crossOffset && b.flexible == AsBlock(layout).flexible
  {
    var block := AsBlock(layout);
    block.(length := Some(value))
  }

  /** `offset(_:)`: sets the block's offset and keeps its other fields. */
  function WithOffset(layout: Node, value: real): (b: Node)
    ensures b.BlockNode? && b.offset == value
    ensures b.child == AsBlock(layout).child && b.length == AsBlock(layout).length && b.crossOffset == AsBlock(layout).crossOffset && b.flexible == AsBlock(layout).flexible
  {
    var block := AsBlock(layout);
    block.(offset := value)
  }

  /** `crossOffset(_:)`: sets the block's cross offset and keeps its other fields. */
  function WithCrossOffset(layout: Node, value: real): (b: Node)
    ensures b.BlockNode? && b.crossOffset == value
    ensures b.child == AsBlock(layout).child && b.length == AsBlock(layout).length && b.offset == AsBlock(layout).offset && b.flexible == AsBlock(layout).flexible
  {
    var block := AsBlock(layout);
    block.(crossOffset := value)
  }

  /** `flexible(_:)`: sets the block's flexibility and keeps its other fields. */
  function WithFlexible(layout: Node, value: Flexible): (b: Node)
    ensures b.BlockNode? && b.flexible == value
    ensures b.child == AsBlock(layout).child && b.length == AsBlock(layout).length && b.offset == AsBlock(layout).offset && b.crossOffset == AsBlock(layout).crossOffset
  {
    var block := AsBlock(layout);
    block.(flexible := value)
  }

  /** Each modifier writes its own field only: on a layout that is not a block, the others are the defaults. */
  lemma ModifiersSetOneField(layout: Node, v: real, f: Flexible)
    requires !layout.BlockNode?
    ensures WithLength(layout, v) == BlockNode(layout, Some(v), 0.0, 0.0, NotFlexible)
    ensures WithOffset(layout, v) == BlockNode(layout, None, v, 0.0, NotFlexible)
    ensures WithCrossOffset(layout, v) == BlockNode(layout, None, 0.0, v, NotFlexible)
    ensures WithFlexible(layout, f) == BlockNode(layout, None, 0.0, 0.0, f)
  {
  }

  /** Writing the same field twice keeps the last value. */
  lemma LastWriteWins(layout: Node, a: real, b: real, f: Flexible, g: Flexible)
    ensures WithLength(WithLength(layout, a), b) == WithLength(layout, b)
    ensures WithOffset(WithOffset(layout, a), b) == WithOffset(layout, b)
    ensures WithCrossOffset(WithCrossOffset(layout, a), b) == WithCrossOffset(layout, b)
    ensures WithFlexible(WithFlexible(layout, f), g) == WithFlexible(layout, g)
  {
  }

  /** Writes to different fields commute. */
  lemma DifferentFieldsCommute(layout: Node, l: real, o: real, c: real, f: Flexible)
    ensures WithOffset(WithLength(layout, l), o) == WithLength(WithOffset(layout, o), l)
    ensures WithCrossOffset(WithLength(layout, l), c) == WithLength(WithCrossOffset(layout, c), l)
    ensures WithFlexible(WithLength(layout, l), f) == WithLength(WithFlexible(layout, f), l)
    ensures WithCrossOffset(WithOffset(layout, o), c) == WithOffset(WithCrossOffset(layout, c), o)
    ensures WithFlexible(WithOffset(layout, o), f) == WithOffset(WithFlexible(layout, f), o)
    ensures WithFlexible(WithCrossOffset(layout, c), f) == WithCrossOffset(WithFlexible(layout, f), c)
  {
  }

  /**
   * `make(from:axis:)`: a block without a length keeps its child; with a length the
   * child is wrapped in a size layout of that length and no cross length.
   */
  function MakeFromBlock(block: Node, axis: Axis): (e: LayoutElement<Node>)
    requires block.BlockNode?
  {
    match block.length
    case None => LayoutElement(block.child, MakePoint(axis, block.offset, block.crossOffset), block.flexible)
    case Some(length) =>
      LayoutElement(SizeWithSize(block.child, MakeSize(axis, length, 0.0), NoAlignment),
                    MakePoint(axis, block.offset, block.crossOffset), block.flexible)
  }

  /** The factory `buildBlock` makes for one layout. */
  function MakeElement(layout: Node, axis: Axis): LayoutElement<Node> {
    if layout.BlockNode? then MakeFromBlock(layout, axis)
    else LayoutElement(layout, MakePoint(axis, 0.0, 0.0), NotFlexible)
  }

  /** `buildBlock(_:)`: one factory per layout, in order. */
  function BuildBlock(layouts: seq<Node>): (r: seq<Axis -> LayoutElement<Node>>)
    ensures |r| == |layouts| && forall i, axis :: 0 <= i < |layouts| ==> r[i](axis) == MakeElement(layouts[i], axis)
  {
    seq(|layouts|, i requires 0 <= i < |layouts| => (axis: Axis) => MakeElement(layouts[i], axis))
  }

  /**
   * A block gives the stack the element the corresponding `append` call adds:
   * without a length, the plain `append`; with one, `append(_:length:)`.
   */
  lemma BlockMatchesAppend(block: Node, axis: Axis)
    requires block.BlockNode?
    ensures block.length.None? ==>
              MakeElement(block, axis) == PlainElement(axis, block.child, block.offset, block.crossOffset, block.flexible)
    ensures block.length.Some? ==>
              MakeElement(block, axis) == LengthElement(axis, block.child, block.length.value, block.offset,
                                                        block.crossOffset, block.flexible)
  {
  }

  /** A layout that is not a block is appended as is, with no offsets and no flexibility. */
  lemma LayoutMatchesAppend(layout: Node, axis: Axis)
    requires !layout.BlockNode?
    ensures MakeElement(layout, axis) == PlainElement(axis, layout, 0.0, 0.0, NotFlexible)
  {
  }

  /** `Block.layout(in:)` and `Block.calculateSize(in:)` are the child's. */
  lemma BlockDelegates(layout: Node, rect: CGRect)
    requires layout.BlockNode?
    ensures Place(layout, rect) == Place(layout.child, rect)
    ensures Measure(layout, rect) == Measure(layout.child, rect)
  {
  }

  /** A stack built from layouts has one element per layout, in order. */
  method BuildStack(axis: Axis, layouts: seq<Node>) returns (stack: StackLayout)
    ensures fresh(stack) && stack.axis == axis && stack.convertOffset == None
    ensures |stack.elements| == |layouts|
    ensures forall i :: 0 <= i < |layouts| ==> stack.elements[i] == MakeElement(layouts[i], axis)
  {
    stack := new StackLayout.FromBuilder(axis, BuildBlock(layouts));
  }
}
