/** TextLayout.swift, the size computation. The text measurement itself is a parameter. */
module TextLayoutSizing {
  import opened Wrappers
  import opened CoreGraphics
  import opened EdgeInsets

  /** `TextLayout.SizeOption`, an option set. */
  datatype TextSizeOption = TextSizeOption(rawValue: bv64) {
    predicate Contains(member: TextSizeOption) {
      rawValue & member.rawValue == member.rawValue
    }
  }

  const DeviceMetrics := TextSizeOption(1)
  const ParentWidth := TextSizeOption(2)
  const NoTextOptions := TextSizeOption(0)

  /** `TextContent.size(constrainedTo:useDeviceMetrics:)`, left uninterpreted. */
  type TextContent = (CGSize, bool) -> CGSize

  /** `TextElement`: the view, its text (if any) and the insets around the text. */
  datatype TextElement<+V> = TextElement(view: V, textContent: Option<TextContent>, elementContentInsets: Insets)

  /** The text's own size inside `constraint`, or zero when there is no text. */
  function MeasuredText(content: Option<TextContent>, constraint: CGSize, useDeviceMetrics: bool): CGSize {
    match content
    case None => ZeroSize
    case Some(measure) => measure(constraint, useDeviceMetrics)
  }

  /**
   * `calculateSize(in:)`: the text is measured inside the parent shrunk by the
   * element's insets, with device metrics exactly when that option is set; the
   * insets are added back around it, and with `parentWidth` the width is the
   * parent's instead.
   */
  function TextSize<V>(element: TextElement<V>, options: TextSizeOption, rect: CGRect): (r: CGSize)
    ensures var insets := element.elementContentInsets;
            var measured := MeasuredText(element.textContent, InsetRect(rect, insets).size, options.Contains(DeviceMetrics));
            && r.height == measured.height + insets.top + insets.bottom
            && (options.Contains(ParentWidth) ==> r.width == rect.Width())
            && (!options.Contains(ParentWidth) ==> r.width == measured.width + insets.left + insets.right)
  {
    var insets := element.elementContentInsets;
    var measured := MeasuredText(element.textContent, InsetRect(rect, insets).size, options.Contains(DeviceMetrics));
    CGSize(if options.Contains(ParentWidth) then rect.Width() else measured.width + insets.left + insets.right,
           measured.height + insets.top + insets.bottom)
  }

  /** `calculateSize(in:)` as written: the measured size adjusted in place, height first, then width. */
  method CalculateTextSize<V>(element: TextElement<V>, options: TextSizeOption, rect: CGRect) returns (size: CGSize)
    ensures size == TextSize(element, options, rect)
  {
    var insets := element.elementContentInsets;
    var constraintSize := InsetRect(rect, insets).size;
    size := ZeroSize;
    if element.textContent.Some? {
      size := element.textContent.value(constraintSize, options.Contains(DeviceMetrics));
    }
    size := size.(height := size.height + insets.top + insets.bottom);
    if options.Contains(ParentWidth) {
      size := size.(width := rect.Width());
    } else {
      size := size.(width := size.width + insets.left + insets.right);
    }
  }

  /** Without text, the size is the insets alone (and the parent's width under `parentWidth`). */
  lemma NoTextIsInsetsOnly<V>(view: V, insets: Insets, options: TextSizeOption, rect: CGRect)
    ensures TextSize(TextElement(view, None, insets), options, rect).height == insets.top + insets.bottom
    ensures !options.Contains(ParentWidth) ==>
              TextSize(TextElement(view, None, insets), options, rect).width == insets.left + insets.right
  {
  }

  /** Under `parentWidth` the width does not depend on the text. */
  lemma ParentWidthIgnoresText<V>(a: TextElement<V>, b: TextElement<V>, options: TextSizeOption, rect: CGRect)
    requires options.Contains(ParentWidth)
    ensures TextSize(a, options, rect).width == TextSize(b, options, rect).width == rect.Width()
  {
  }

  /** The two options are distinct bits, and the empty set contains neither. */
  lemma OptionFlags()
    ensures DeviceMetrics.rawValue & ParentWidth.rawValue == 0
    ensures !NoTextOptions.Contains(DeviceMetrics) && !NoTextOptions.Contains(ParentWidth)
    ensures TextSizeOption(3).Contains(DeviceMetrics) && TextSizeOption(3).Contains(ParentWidth)
  {
  }
}

/** TextLayout.swift, the layout. */
module TextLayouts {
  import opened CoreGraphics
  import opened Alignments
  import opened LayoutProtocol
  import opened TextLayoutSizing
  import opened Layouts

  /**
   * `layout(in:)`: the text view is laid out in the layout's size at the
   * alignment point, and what the view returns is returned.
   */
  lemma TextLayoutPlacement(element: TextElement<Node>, alignment: Alignment, options: TextSizeOption, rect: CGRect)
    ensures var size := TextSize(element, options, rect);
            Place(TextNode(element, alignment, options), rect) == Place(element.view, CGRect(alignment.PointFor(size, rect), size))
  {
  }
}
