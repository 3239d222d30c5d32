/** ImageLayout.swift, the size computation. */
module ImageLayoutSizing {
  import opened Wrappers
  import opened CoreGraphics

  /** `ImageElement`: the view and the size of the image set to it, if any (`ImageContent.size`). */
  datatype ImageElement<+V> = ImageElement(view: V, imageContent: Option<CGSize>)

  /** `calculateSize(in:)`: the image's size, or the parent's size when there is no image. */
  function ImageSize<V>(element: ImageElement<V>, rect: CGRect): (r: CGSize)
    ensures element.imageContent.Some? ==> r == element.imageContent.value
    ensures element.imageContent.None? ==> r == rect.size
  {
    element.imageContent.GetOr(rect.size)
  }
}

/** ImageLayout.swift, the layout. */
module ImageLayouts {
  import opened CoreGraphics
  import opened Alignments
  import opened LayoutProtocol
  import opened ImageLayoutSizing
  import opened Layouts

  /**
   * `layout(in:)`: the image view is laid out in the layout's size at the
   * alignment point, and what the view returns is returned.
   */
  lemma ImageLayoutPlacement(element: ImageElement<Node>, alignment: Alignment, rect: CGRect)
    ensures var size := ImageSize(element, rect);
            Place(ImageNode(element, alignment), rect) == Place(element.view, CGRect(alignment.PointFor(size, rect), size))
  {
  }

  /** With the default alignment the view's rectangle starts at the parent's origin, on a parent of non-negative size (on a flipped parent `minX`/`minY` differ from the stored origin). */
  lemma DefaultAlignmentKeepsOrigin(element: ImageElement<Node>, rect: CGRect)
    requires HasNonNegativeSize(rect)
    ensures var size := ImageSize(element, rect);
            Place(ImageNode(element, NoAlignment), rect) == Place(element.view, CGRect(rect.origin, size))
  {
    DefaultIsTopLeft(ImageSize(element, rect), rect);
  }
}
