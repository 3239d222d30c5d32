/** InsetsLayout.swift: a child laid out and measured in the parent shrunk by insets. */
module InsetLayouts {
  import opened CoreGraphics
  import opened EdgeInsets
  import opened LayoutProtocol
  import opened Layouts

  /** `init(child:insets:)`, and `inset(by:)` on any layout. */
  function InsetBy(child: Node, insets: Insets): Node {
    InsetNode(child, insets)
  }

  /** `init(child:dx:dy:)`, and `insetBy(dx:dy:)` on any layout: `dy` top and bottom, `dx` left and right. */
  function InsetByD(child: Node, dx: real, dy: real): (n: Node)
    ensures n.InsetNode? && n.child == child
    ensures n.insets.top == n.insets.bottom == dy && n.insets.left == n.insets.right == dx
  {
    InsetNode(child, Insets(dy, dx, dy, dx))
  }

  /** `layout(in:)` and `calculateSize(in:)` hand the child the shrunk rectangle and return what it returns. */
  lemma InsetDelegates(child: Node, insets: Insets, rect: CGRect)
    ensures Place(InsetBy(child, insets), rect) == Place(child, InsetRect(rect, insets))
    ensures Measure(InsetBy(child, insets), rect) == Measure(child, InsetRect(rect, insets))
  {
  }

  /**
   * `child.inset(by: a).inset(by: b)` lays the child out and measures it exactly
   * as one inset by the edgewise sum, as long as the outer shrink (by `b`) leaves
   * a non-negative size; the sign of the parent's size and of the inner shrink's
   * result plays no part.
   */
  lemma NestedInsetsAdd(child: Node, a: Insets, b: Insets, rect: CGRect)
    requires HasNonNegativeSize(InsetRect(rect, b))
    ensures Place(InsetBy(InsetBy(child, a), b), rect) == Place(InsetBy(child, Sum(b, a)), rect)
    ensures Measure(InsetBy(InsetBy(child, a), b), rect) == Measure(InsetBy(child, Sum(b, a)), rect)
  {
    InsetTwice(rect, b, a);
  }
}
