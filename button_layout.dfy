/** ButtonLayout.swift, the size computation. The title measurement is a parameter. */
module ButtonLayoutSizing {
  import opened Wrappers
  import opened CoreGraphics
  import opened EdgeInsets
  import opened TextLayoutSizing
  import opened ImageLayoutSizing

  /** `ButtonLayout.SizeOption` */
  datatype ButtonSizeOption = ParentHeight | CustomHeight(height: real)

  /** `ButtonElementInsets`: the insets around the title and around the image. */
  datatype ButtonElementInsets = ButtonElementInsets(title: Insets, image: Insets)

  /** `ButtonElement`: the view, its title (if any), its image element (if any) and its content insets. */
  datatype ButtonElement<+V> = ButtonElement(view: V, textContent: Option<TextContent>,
                                             nestedImageElement: Option<ImageElement<V>>,
                                             elementContentInsets: ButtonElementInsets)

  /** `finalImageSize`: the explicit image size, else the nested image's size, else zero. */
  function FinalImageSize<V>(imageSize: Option<CGSize>, element: ButtonElement<V>): (r: CGSize)
    ensures imageSize.Some? ==> r == imageSize.value
    ensures imageSize.None? && element.nestedImageElement.Some? && element.nestedImageElement.value.imageContent.Some?
            ==> r == element.nestedImageElement.value.imageContent.value
    ensures imageSize.None? && (element.nestedImageElement.None? || element.nestedImageElement.value.imageContent.None?)
            ==> r == ZeroSize
  {
    if imageSize.Some? then imageSize.value
    else if element.nestedImageElement.Some? && element.nestedImageElement.value.imageContent.Some? then
      element.nestedImageElement.value.imageContent.value
    else ZeroSize
  }

  /** `calculateWidth`: the image and the title side by side, each with its own insets, inside the layout's insets. */
  function ButtonWidth(insets: Insets, contentInsets: ButtonElementInsets, imageSize: CGSize, titleSize: CGSize): real {
    insets.left
    + contentInsets.image.left + imageSize.width + contentInsets.image.right
    + contentInsets.title.left + titleSize.width + contentInsets.title.right
    + insets.right
  }

  /**
   * `calculateHeight`: the parent's height or the custom height when an option is
   * set; otherwise the taller of image and title with the larger of their insets.
   */
  function ButtonHeight(option: Option<ButtonSizeOption>, rect: CGRect, insets: Insets,
                        contentInsets: ButtonElementInsets, imageSize: CGSize, titleSize: CGSize): (r: real)
    ensures option == Some(ParentHeight) ==> r == rect.Height()
    ensures option.Some? && option.value.CustomHeight? ==> r == option.value.height
    ensures option.None? ==>
              && r >= insets.top + contentInsets.image.top + imageSize.height + contentInsets.image.bottom + insets.bottom
              && r >= insets.top + contentInsets.title.top + titleSize.height + contentInsets.title.bottom + insets.bottom
  {
    match option
    case Some(ParentHeight) => rect.Height()
    case Some(CustomHeight(height)) => height
    case None =>
      insets.top
      + Max(contentInsets.image.top, contentInsets.title.top)
      + Max(imageSize.height, titleSize.height)
      + Max(contentInsets.image.bottom, contentInsets.title.bottom)
      + insets.bottom
  }

  function Max(a: real, b: real): (r: real)
    ensures r >= a && r >= b && (r == a || r == b)
  {
    if a < b then b else a
  }

  /** The title's size inside the parent's raw size, without device metrics, or zero when there is no title. */
  function TitleSize<V>(element: ButtonElement<V>, rect: CGRect): CGSize {
    MeasuredText(element.textContent, rect.size, false)
  }

  /** `calculateSize(in:)` */
  function ButtonSize<V>(element: ButtonElement<V>, imageSize: Option<CGSize>, insets: Insets,
                         option: Option<ButtonSizeOption>, rect: CGRect): (r: CGSize)
    ensures r.width == ButtonWidth(insets, element.elementContentInsets, FinalImageSize(imageSize, element), TitleSize(element, rect))
    ensures r.height == ButtonHeight(option, rect, insets, element.elementContentInsets,
                                     FinalImageSize(imageSize, element), TitleSize(element, rect))
  {
    var titleSize := TitleSize(element, rect);
    var image := FinalImageSize(imageSize, element);
    CGSize(ButtonWidth(insets, element.elementContentInsets, image, titleSize),
           ButtonHeight(option, rect, insets, element.elementContentInsets, image, titleSize))
  }

  /** `calculateSize(in:)` as written: the title size starts at zero and is replaced when there is a title. */
  method CalculateButtonSize<V>(element: ButtonElement<V>, imageSize: Option<CGSize>, insets: Insets,
                                option: Option<ButtonSizeOption>, rect: CGRect) returns (size: CGSize)
    ensures size == ButtonSize(element, imageSize, insets, option, rect)
  {
    var titleSize := ZeroSize;
    if element.textContent.Some? {
      titleSize := element.textContent.value(rect.size, false);
    }
    var image := FinalImageSize(imageSize, element);
    var contentInsets := element.elementContentInsets;
    var width := ButtonWidth(insets, contentInsets, image, titleSize);
    var height := ButtonHeight(option, rect, insets, contentInsets, image, titleSize);
    size := CGSize(width, height);
  }

  /** The width does not depend on the height option. */
  lemma WidthIgnoresHeightOption<V>(element: ButtonElement<V>, imageSize: Option<CGSize>, insets: Insets,
                                    o1: Option<ButtonSizeOption>, o2: Option<ButtonSizeOption>, rect: CGRect)
    ensures ButtonSize(element, imageSize, insets, o1, rect).width == ButtonSize(element, imageSize, insets, o2, rect).width
  {
  }

  /** An explicit image size hides the nested image. */
  lemma ExplicitImageSizeWins<V>(a: ButtonElement<V>, b: ButtonElement<V>, side: CGSize)
    requires a.textContent == b.textContent && a.elementContentInsets == b.elementContentInsets
    ensures forall insets, option, rect :: ButtonSize(a, Some(side), insets, option, rect) == ButtonSize(b, Some(side), insets, option, rect)
  {
  }

  /** Without a title, the title contributes only its insets. */
  lemma NoTitleIsZero<V>(element: ButtonElement<V>, rect: CGRect)
    requires element.textContent.None?
    ensures TitleSize(element, rect) == ZeroSize
  {
  }
}

/** ButtonLayout.swift, the initialisers and the layout. */
module ButtonLayouts {
  import opened Wrappers
  import opened CoreGraphics
  import opened EdgeInsets
  import opened Alignments
  import opened LayoutProtocol
  import opened ButtonLayoutSizing
  import opened Layouts

  /** `init(child:imageSize:insets:option:alignment:)` */
  function Button(element: ButtonElement<Node>, imageSize: Option<CGSize>, insets: Insets,
                  option: Option<ButtonSizeOption>, alignment: Alignment): Node {
    ButtonNode(element, imageSize, insets, option, alignment)
  }

  /** `init(child:imageSide:alignment:)`: a square image, no insets, no option. */
  function ButtonWithImageSide(element: ButtonElement<Node>, imageSide: real, alignment: Alignment): Node {
    Button(element, Some(CGSize(imageSide, imageSide)), Zero, None, alignment)
  }

  /** With a square image side the image counts `side` in the width and at least `side` in the height. */
  lemma ImageSideCounts(element: ButtonElement<Node>, side: real, alignment: Alignment, rect: CGRect)
    ensures var r := Measure(ButtonWithImageSide(element, side, alignment), rect);
            var ci := element.elementContentInsets;
            var title := TitleSize(element, rect);
            && r.width == ci.image.left + side + ci.image.right + ci.title.left + title.width + ci.title.right
            && r.height >= ci.image.top + side + ci.image.bottom
  {
  }

  /**
   * `layout(in:)`: the button view is laid out in the layout's size at the
   * alignment point, and what the view returns is returned.
   */
  lemma ButtonLayoutPlacement(element: ButtonElement<Node>, imageSize: Option<CGSize>, insets: Insets,
                              option: Option<ButtonSizeOption>, alignment: Alignment, rect: CGRect)
    ensures var size := ButtonSize(element, imageSize, insets, option, rect);
            Place(Button(element, imageSize, insets, option, alignment), rect)
            == Place(element.view, CGRect(alignment.PointFor(size, rect), size))
  {
  }
}
