# Outline frame layout, modelled in Dafny

Outline is a small Swift library that lays out views by frames. A tree of
layouts is given a parent rectangle. Each layout computes the size it asks for
(`calculateSize(in:)`) and assigns concrete rectangles to its children
(`layout(in:)`), down to the leaf views.

The model is organised as follows.

- `Node` (module `Layouts`) is one datatype with a constructor per layout:
  - `SizeLayout`, `InsetLayout`, `ZLayout` and `StackLayout`;
  - `TextLayout`, `ImageLayout` and `ButtonLayout`;
  - the builder's `Block`;
  - the two leaf elements the library's tests lay out, `Element` and `SizedElement`.
- `Measure` is `calculateSize(in:)`.
- `Place` is `layout(in:)`. Its only effect is on leaf views, and it is
  modelled as the ordered log of leaf rectangle assignments (`Write`).
- `LayoutNode` and `LayoutStack` are the same operation written as the
  library runs it. The z-stack and the stack each have a loop, and both
  methods are proved equal to `Place`.

The core is the stack algorithm (modules `StackAlgorithm` and `StackLayouts`):

- elements are split into static and length-flexible ones;
- the static ones are measured;
- the remaining main-axis length is divided equally among the flexible ones;
- the flexible measurements are re-inserted at their indices;
- a cursor then walks the elements. It advances by each element's offset and
  by the length the element *reports back*.

This part is stated for any children, given the sizes they ask for and a
function that lays each one out. Its properties are proved once, for all
stacks:

- conservation of the parent's length when something is flexible;
- equal division;
- the cursor's prefix sums;
- independence of the cross axis;
- order of the leaf assignments.

`CGFloat` is modelled as `real`. CoreGraphics reads a rectangle's `width`,
`height`, `minX`, … from its standardised form (absolute size, extremes
swapped on a negative size), and the model does the same. `rect.size` is the
stored value.

## Model

| member | source | states |
|---|---|---|
| `AxisPoint.MakePoint` | Sources/Core/Point.swift:56-62 | `Point(axis:offset:crossOffset:)` reads back the same axis, offset and cross offset |
| `AxisPoint.Point.WithOffset` | Sources/Core/Point.swift:21-26 | setting `offset` changes the offset only; axis and cross offset are kept |
| `AxisPoint.Point.WithCrossOffset` | Sources/Core/Point.swift:37-42 | setting `crossOffset` changes the cross offset only; axis and offset are kept |
| `AxisPoint.AxisComponents` | Sources/Core/Point.swift:14-43 | along `x` the offset is `x` and the cross offset `y`; along `y` they are swapped |
| `AxisPoint.OtherAxisSwaps` | Sources/Core/Point.swift:14-43 | one `CGPoint` read along the other axis swaps offset and cross offset |
| `AxisPoint.MakePointFromParts` | Sources/Core/Point.swift:46-62 | `init(axis:cgPoint:)` stores the point unchanged, so the point is rebuilt from its axis, offset and cross offset |
| `AxisSize.MakeSize` | Sources/Core/Size.swift:56-62 | `Size(axis:length:crossLength:)` reads back the same axis, length and cross length |
| `AxisSize.Size.WithLength` | Sources/Core/Size.swift:21-26 | setting `length` changes the main component only |
| `AxisSize.Size.WithCrossLength` | Sources/Core/Size.swift:37-42 | setting `crossLength` changes the cross component only |
| `AxisSize.AxisComponents` | Sources/Core/Size.swift:14-43 | along `x` the length is the width; along `y` it is the height |
| `AxisSize.OtherAxisSwaps` | Sources/Core/Size.swift:14-43 | one `CGSize` read along the other axis swaps length and cross length |
| `AxisSize.MakeSizeFromParts` | Sources/Core/Size.swift:46-62 | `init(axis:cgSize:)` stores the size unchanged, so the size is rebuilt from its parts |
| `EdgeInsets.EqualInsets` | Sources/Core/Insets.swift:29-34 | `Insets(equal:)` sets all four edges to the value |
| `EdgeInsets.ZeroHasZeroEdges` | Sources/Core/Insets.swift:7-8 | `.zero` and the all-default initialiser have four zero edges |
| `EdgeInsets.InsetRect` | Sources/Core/Insets.swift:40-46 | `inset(by:)` moves the origin by (left, top) and shrinks the width by left+right and the height by top+bottom |
| `EdgeInsets.InsetIsNotClamped` | Sources/Core/Insets.swift:40-46 | the shrunk size is not clamped and can be negative |
| `EdgeInsets.InsetByZero` | Sources/Core/Insets.swift:40-46 | insetting by `.zero` is the identity on a rectangle of non-negative size |
| `EdgeInsets.InsetTwice` | Sources/Core/Insets.swift:40-46 | insetting by `a` then `b` equals one inset by the edgewise sum, when the first step leaves a non-negative size, whatever the sign of the original size |
| `EdgeInsets.InsetOfFlippedRect` | Sources/Core/Insets.swift:40-46 | without that condition composition fails, because the standardised width is used |
| `Alignments.FlagsAreDistinctBits` | Sources/Core/Alignment.swift:10-31 | the six flags are the single bits 1<<0 … 1<<5, none containing another |
| `Alignments.HorizontalRule` | Sources/Core/Alignment.swift:48-56 | x is centred when `horizontalCenter` is set, else `maxX - width` with `right`, else `minX` |
| `Alignments.VerticalRule` | Sources/Core/Alignment.swift:58-66 | y is centred when `verticalCenter` is set, else `maxY - height` with `bottom`, else `minY` |
| `Alignments.CenterWins` | Sources/Core/Alignment.swift:48-66 | the centre flag wins even when both edge flags of its dimension are also set |
| `Alignments.LeftAndTopHaveNoEffect` | Sources/Core/Alignment.swift:48-66 | adding `left` or `top` never changes the point |
| `Alignments.DimensionsAreIndependent` | Sources/Core/Alignment.swift:42-46 | x depends only on the horizontal flags and y only on the vertical ones |
| `Alignments.DefaultIsTopLeft` | Sources/Core/Alignment.swift:42-66 | the empty alignment gives `(minX, minY)` |
| `LayoutProtocol.LastRectPresent` | Tests/Element.swift:7-12 | the log gives a leaf a rectangle exactly when some entry names it; `None` stands for a leaf that still holds the `.zero` it was created with |
| `LayoutProtocol.LastRectIsLastWrite` | Tests/Element.swift:7-12 | that rectangle is the one of the leaf's last assignment: no later entry is for that leaf |
| `LayoutProtocol.FlattenSnoc` | Sources/Layouts/ZLayout.swift:16-19 | laying out one more child appends its assignments to the end of the log |
| `StackAlgorithm.ConvertPoint` | Sources/Layouts/StackLayout.swift:214-218 | `Point(point:convert:)` passes the offset and the cross offset through the conversion and keeps the axis |
| `StackAlgorithm.NoConversionKeepsPoint` | Sources/Layouts/StackLayout.swift:160 | without `convertOffset` the points are unchanged |
| `StackAlgorithm.InsertionStep` | Sources/Layouts/StackLayout.swift:172-181 | `flexOffsets()` lists the flexible elements in ascending index order with their converted points; every element between two of them is static |
| `StackAlgorithm.NextFlexOffset` | Sources/Layouts/StackLayout.swift:172-181 | the first flexible offset from an index on belongs to the first flexible element at or after it, and the rest of the list starts past it |
| `StackAlgorithm.StaticRun` | Sources/Layouts/StackLayout.swift:159-168 | over a run of static elements, `staticMeasurements` lists exactly their measurements, in index order |
| `StackAlgorithm.InsertionTurn` | Sources/Layouts/StackLayout.swift:151-155 | one turn of the insertion loop keeps the list equal to the reference measurements up to just past the inserted index, followed by the remaining static ones |
| `StackAlgorithm.InsertAtNextFlex` | Sources/Layouts/StackLayout.swift:150-155 | each insertion index is within the current count, and inserting there extends the final order by one element |
| `StackAlgorithm.NoFlexibleLeft` | Sources/Layouts/StackLayout.swift:159-168 | when no flexible element is left, the remaining static measurements complete the list in the original order |
| `StackAlgorithm.AllMeasurements` | Sources/Layouts/StackLayout.swift:143-157 | `allMeasurements(rect:)` returns one measurement per element, in order: static elements keep their child's size and flexible ones get the shared length and their own cross length |
| `StackAlgorithm.MeasurementSizes` | Sources/Layouts/StackLayout.swift:146-166 | all flexible elements get the same length and their own child's cross length; a static element keeps its child's size; only the points are converted |
| `StackAlgorithm.LengthSplit` | Sources/Layouts/StackLayout.swift:146-149 | the measured length is the static lengths and offsets, plus the flexible offsets, plus one shared length per flexible element |
| `StackAlgorithm.RepeatedIsProduct` | Sources/Layouts/StackLayout.swift:149 | k shares of the flexible length add up to k times it |
| `StackAlgorithm.SharesAddUp` | Sources/Layouts/StackLayout.swift:148-149 | the length left after the static elements and the offsets, split into equal shares and added back, is the whole length |
| `StackAlgorithm.FlexOffsetsCoverFlexible` | Sources/Layouts/StackLayout.swift:172-181 | every flexible element has its entry among the flexible offsets |
| `StackAlgorithm.FlexibleElementsFillParent` | Sources/Layouts/StackLayout.swift:143-157 | with at least one flexible element, offsets plus lengths add up to exactly the parent's length |
| `StackAlgorithm.MaxCrossLength` | Sources/Layouts/StackLayout.swift:130 | the cross length is one of the elements' cross lengths and no smaller than any, or the parent's when there are none |
| `StackAlgorithm.StackCalculateSize` | Sources/Layouts/StackLayout.swift:133-141 | `calculateSize(in:)` is the measured length and the largest measured cross length, or the parent's cross length when the stack is empty |
| `StackAlgorithm.Walk.PlacedSizes` | Sources/Layouts/StackLayout.swift:123-125 | `layoutedSizes` holds, in order, the size each element reported |
| `StackAlgorithm.Walk.LayoutedSize` | Sources/Layouts/StackLayout.swift:127-130 | the laid-out size is the cursor's whole advance and the largest reported cross length, or the parent's when there are none |
| `StackAlgorithm.ContainerGeometry` | Sources/Layouts/StackLayout.swift:118-122 | element k starts at the origin plus the earlier offsets and reported lengths plus its own offset; across it sits at the origin plus its own cross offset; it is offered its measured length and the parent's cross length |
| `StackAlgorithm.CursorContainer` | Sources/Layouts/StackLayout.swift:119-122 | the cursor, moved by the element's offset and set to its cross offset, with the measured length and the parent's cross length, is that element's container |
| `StackAlgorithm.CursorStep` | Sources/Layouts/StackLayout.swift:122-125 | moving the cursor by the reported length and appending the reported size and the writes keeps the loop in step with the walk |
| `StackAlgorithm.WalkStep` | Sources/Layouts/StackLayout.swift:119-125 | each step advances the cursor by the element's offset and its reported length, and records its size |
| `StackAlgorithm.WritesSnoc` | Sources/Layouts/StackLayout.swift:122 | each element's own assignments follow those of the elements before it |
| `StackAlgorithm.FilledAdvance` | Sources/Layouts/StackLayout.swift:118-126 | when every child reports its container's length, the cursor's advance is the measured length of the elements so far |
| `StackAlgorithm.TotalLengthSnoc` | Sources/Layouts/StackLayout.swift:138 | the measured length of one more element adds its offset and length |
| `StackAlgorithm.FilledLayoutMatchesMeasuredLength` | Sources/Layouts/StackLayout.swift:105-141 | then `layout(in:)` and `calculateSize(in:)` agree on the main-axis length |
| `SizeLayoutSizing.SizeLayoutSize` | Sources/Layouts/SizeLayout.swift:123-137 | no option gives `(width ?? rect.width, height ?? rect.height)`; `useChildSize` gives the child's size; the square options give the parent's width or height on both sides |
| `SizeLayoutSizing.OptionIgnoresStoredDimensions` | Sources/Layouts/SizeLayout.swift:124-136 | with an option, the stored width and height play no part |
| `SizeLayoutSizing.OnlyUseChildSizeAsksTheChild` | Sources/Layouts/SizeLayout.swift:124-136 | only `useChildSize` depends on the child |
| `SizeLayouts.SizeWithSize` | Sources/Layouts/SizeLayout.swift:55-60 | `init(size:)` stores a zero width or height as absent and any other value as given, with no option |
| `SizeLayouts.SideIsSquare` | Sources/Layouts/SizeLayout.swift:35-37 | `init(side:)` asks for side by side |
| `SizeLayouts.CGSizeIsKept` | Sources/Layouts/SizeLayout.swift:45-47 | `init(cgSize:)` asks for exactly that size |
| `SizeLayouts.ZeroComponentTakesParent` | Sources/Layouts/SizeLayout.swift:55-60 | with `init(size:)`, a zero component takes the parent's dimension |
| `SizeLayouts.PlainTakesParent` | Sources/Layouts/SizeLayout.swift:65-67 | `init(child:alignment:)` asks for the whole parent |
| `SizeLayouts.UseChildSizeDelegates` | Sources/Layouts/SizeLayout.swift:73-75 | `init(option: .useChildSize)` asks for exactly the child's size |
| `SizeLayouts.SizeLayoutPlacesChild` | Sources/Layouts/SizeLayout.swift:116-121 | `layout(in:)` lays the child out in its own size at the alignment point and returns the child's result (the definition of this case of `Place`/`Measure`, stated as a lemma) |
| `SizeLayouts.LeafGetsAlignedSize` | Sources/Layouts/SizeLayout.swift:116-121 | a leaf inside is assigned exactly that aligned rectangle |
| `ZLayoutSizing.LargestIndex` | Sources/Layouts/ZLayout.swift:23-27 | the max-by-area scan ends on an element of largest area, strictly larger than every earlier one |
| `ZLayoutSizing.LargestByArea` | Sources/Layouts/ZLayout.swift:23-27 | `calculateSize(in:)` is a child size of largest width×height, the first such, or `rect.size` without children |
| `ZLayoutSizing.TieKeepsFirst` | Sources/Layouts/ZLayout.swift:24-26 | on a tie in area the earlier child wins |
| `ZLayouts.ZLayoutPlacement` | Sources/Layouts/ZLayout.swift:15-21 | every child is laid out in the same unchanged rectangle, in order; the result is at `rect.origin` with the layout's own size (the definition of this case of `Place`/`Measure`, stated as a lemma) |
| `ZLayouts.ZLayoutSize` | Sources/Layouts/ZLayout.swift:23-27 | the z-stack asks for one of its children's sizes, the largest by area and the first such, or the parent's size |
| `InsetLayouts.InsetByD` | Sources/Layouts/InsetsLayout.swift:17-20 | `init(dx:dy:)` uses `dy` on top and bottom and `dx` on left and right |
| `InsetLayouts.InsetDelegates` | Sources/Layouts/InsetsLayout.swift:22-30 | `layout(in:)` and `calculateSize(in:)` are the child's on the shrunk rectangle (the definition of this case of `Place`/`Measure`, stated as a lemma) |
| `InsetLayouts.NestedInsetsAdd` | Sources/Layouts/InsetsLayout.swift:35-37 | `inset(by: a).inset(by: b)` lays out and measures like one inset by the edgewise sum, when the outer shrink leaves a non-negative size, whatever the sign of the parent's size |
| `TextLayoutSizing.TextSize` | Sources/Layouts/TextLayout.swift:78-91 | the text is measured inside the parent shrunk by the element's insets, with device metrics exactly when that option is set; the height adds top and bottom; the width is the parent's under `parentWidth`, else the measured width plus left and right |
| `TextLayoutSizing.CalculateTextSize` | Sources/Layouts/TextLayout.swift:78-91 | the step-by-step computation gives that size |
| `TextLayoutSizing.NoTextIsInsetsOnly` | Sources/Layouts/TextLayout.swift:81-89 | without text the measured size is zero, so only the insets remain |
| `TextLayoutSizing.ParentWidthIgnoresText` | Sources/Layouts/TextLayout.swift:85-86 | under `parentWidth` the width is the parent's whatever the text |
| `TextLayoutSizing.OptionFlags` | Sources/Layouts/TextLayout.swift:42-45 | `deviceMetrics` and `parentWidth` are distinct bits, and the empty set contains neither |
| `TextLayouts.TextLayoutPlacement` | Sources/Layouts/TextLayout.swift:70-76 | `layout(in:)` lays the view out in the computed size at the alignment point and returns the view's result (the definition of this case of `Place`/`Measure`, stated as a lemma) |
| `ImageLayoutSizing.ImageSize` | Sources/Layouts/ImageLayout.swift:44-46 | the image's size when there is one, else `rect.size` |
| `ImageLayouts.ImageLayoutPlacement` | Sources/Layouts/ImageLayout.swift:36-41 | `layout(in:)` lays the view out in that size at the alignment point and returns the view's result (the definition of this case of `Place`/`Measure`, stated as a lemma) |
| `ImageLayouts.DefaultAlignmentKeepsOrigin` | Sources/Layouts/ImageLayout.swift:31-41 | on a parent of non-negative size, the default alignment lays the view out at the parent's origin (on a flipped parent `minX`/`minY` differ from the stored origin) |
| `ButtonLayoutSizing.FinalImageSize` | Sources/Layouts/ButtonLayout.swift:101-108 | the explicit image size, else the nested image's size, else zero |
| `ButtonLayoutSizing.ButtonHeight` | Sources/Layouts/ButtonLayout.swift:122-139 | `parentHeight` gives `rect.height` and `customHeight(h)` gives h; otherwise the height is no less than the image's height and no less than the title's, each with its own top and bottom insets and the layout's |
| `ButtonLayoutSizing.Max` | Sources/Layouts/ButtonLayout.swift:135-137 | `max` is one of its arguments and no smaller than either |
| `ButtonLayoutSizing.ButtonSize` | Sources/Layouts/ButtonLayout.swift:89-99 | the width and the height are computed from the final image size and the title measured in the parent's raw size |
| `ButtonLayoutSizing.CalculateButtonSize` | Sources/Layouts/ButtonLayout.swift:89-99 | the step-by-step computation (title size zero unless there is a title) gives that size |
| `ButtonLayoutSizing.WidthIgnoresHeightOption` | Sources/Layouts/ButtonLayout.swift:110-120 | the width does not depend on the height option |
| `ButtonLayoutSizing.ExplicitImageSizeWins` | Sources/Layouts/ButtonLayout.swift:101-104 | with an explicit image size the nested image plays no part |
| `ButtonLayoutSizing.NoTitleIsZero` | Sources/Layouts/ButtonLayout.swift:90-93 | without text content the title size is zero |
| `ButtonLayouts.ImageSideCounts` | Sources/Layouts/ButtonLayout.swift:55-57 | `init(imageSide:)` counts a square image of that side, with no layout insets |
| `ButtonLayouts.ButtonLayoutPlacement` | Sources/Layouts/ButtonLayout.swift:81-87 | `layout(in:)` lays the view out in the computed size at the alignment point and returns the view's result (the definition of this case of `Place`/`Measure`, stated as a lemma) |
| `Layouts.ChildSizes` | Sources/Layouts/StackLayout.swift:206-208 | each element asks for what its child asks for, in the stack's rectangle |
| `Layouts.StackWalk` | Sources/Layouts/StackLayout.swift:112-118 | the walk runs over one measurement per element along the stack's axis |
| `Layouts.StackWalkPlaces` | Sources/Layouts/StackLayout.swift:201-204 | an element's `layout(in:)` is its child's |
| `Layouts.StackPlacement` | Sources/Layouts/StackLayout.swift:104-108 | a stack is placed at the parent's origin, sized by its walk, with its elements' assignments in order |
| `Layouts.LayoutNode` | Sources/Core/Layout.swift:13-15 | running `layout(in:)` with its loops gives exactly `Place` |
| `Layouts.LayoutStack` | Sources/Layouts/StackLayout.swift:104-131 | the cursor loop of `layoutElements(in:)`: its cursor is always the origin plus the walk's advance, and the result is `Place` |
| `StackLayouts.StackLayout.constructor` | Sources/Layouts/StackLayout.swift:58-60 | a new stack has the axis, no conversion and no elements |
| `StackLayouts.StackLayout.FromBuilder` | Sources/Layouts/StackLayout.swift:62-65 | each factory is applied to the axis, in order |
| `StackLayouts.StackLayout.AsNode` | Sources/Layouts/StackLayout.swift:45-56 | the stack's axis, elements and conversion as a layout node |
| `StackLayouts.StackLayout.Append` | Sources/Layouts/StackLayout.swift:74-82 | exactly one element more at the end, with `Point(axis, offset, crossOffset)` and the flags; the others unchanged |
| `StackLayouts.StackLayout.AppendWithLength` | Sources/Layouts/StackLayout.swift:92-102 | the same, with the child wrapped in `SizeLayout(size: Size(axis, length, 0))` |
| `StackLayouts.StackLayout.Layout` | Sources/Layouts/StackLayout.swift:104-108 | `layout(in:)` is the stack's placement, at the parent's origin |
| `StackLayouts.StackMeasure` | Sources/Layouts/StackLayout.swift:133-141 | a stack asks for its measured length, which is the parent's length once anything is flexible, and for the largest measured cross length (the parent's when empty) |
| `StackLayouts.LeafStackLayoutMatchesMeasure` | Sources/Layouts/StackLayout.swift:105-141 | a stack of leaves is laid out exactly as long as it asks to be |
| `StackLayoutBuilder.AsBlock` | Sources/Builders/StackLayoutBuilder.swift:62 | a block stays itself; any other layout is wrapped with no length, zero offsets and no flexibility |
| `StackLayoutBuilder.WithLength` | Sources/Builders/StackLayoutBuilder.swift:45-47 | `length(_:)` sets the length and keeps the other fields |
| `StackLayoutBuilder.WithOffset` | Sources/Builders/StackLayoutBuilder.swift:49-51 | `offset(_:)` sets the offset and keeps the other fields |
| `StackLayoutBuilder.WithCrossOffset` | Sources/Builders/StackLayoutBuilder.swift:53-55 | `crossOffset(_:)` sets the cross offset and keeps the other fields |
| `StackLayoutBuilder.WithFlexible` | Sources/Builders/StackLayoutBuilder.swift:57-59 | `flexible(_:)` sets the flexibility and keeps the other fields |
| `StackLayoutBuilder.ModifiersSetOneField` | Sources/Builders/StackLayoutBuilder.swift:61-65 | on a non-block, a modifier wraps it with the defaults first |
| `StackLayoutBuilder.LastWriteWins` | Sources/Builders/StackLayoutBuilder.swift:61-65 | writing the same field twice keeps the last value |
| `StackLayoutBuilder.DifferentFieldsCommute` | Sources/Builders/StackLayoutBuilder.swift:61-65 | writes to different fields commute |
| `StackLayoutBuilder.BuildBlock` | Sources/Builders/StackLayoutBuilder.swift:12-24 | one factory per layout, in order |
| `StackLayoutBuilder.BlockMatchesAppend` | Sources/Builders/StackLayoutBuilder.swift:26-39 | a block gives the element `append` (or `append(_:length:)`, with a length) adds |
| `StackLayoutBuilder.LayoutMatchesAppend` | Sources/Builders/StackLayoutBuilder.swift:14-23 | a non-block layout gives the element of a plain `append` with zero offsets and no flags |
| `StackLayoutBuilder.BlockDelegates` | Sources/Builders/StackLayoutBuilder.swift:85-91 | `Block.layout(in:)` and `calculateSize(in:)` are the child's (the definition of this case of `Place`/`Measure`, stated as a lemma) |
| `StackLayoutBuilder.BuildStack` | Sources/Layouts/StackLayout.swift:62-65 | a stack built from layouts has one element per layout, in order |
| `Scenarios.FixedFlexFixedMeasurements` | Tests/Cases/StackLayoutTests.swift:8-22 | 44 + flexible + 44 in 375 gives the flexible element 287, whatever the leaves |
| `Scenarios.FixedFlexFixedLayout` | Tests/Cases/StackLayoutTests.swift:8-27 | any three leaves are placed at 0 (10 down), 44 and 331, and the stack fills the parent |
| `Scenarios.SquaresWithFlexibleMiddleMeasurements` | Tests/Cases/StackLayoutTests.swift:126-137 | three 44-point squares with the middle one flexible: the middle gets a 287-long container |
| `Scenarios.SquaresWithFlexibleMiddleLayout` | Sources/Layouts/StackLayout.swift:122-124 | the cursor advances by the reported 44, so for any three leaves the third square is at 88 and the stack is 132 long |
| `Scenarios.ZeroLengthAsksForParent` | Sources/Layouts/SizeLayout.swift:55-60 | `append(e, length: 0)` asks for the parent's whole dimension |
| `Scenarios.SquareByWidthInPhone` | Tests/Cases/SizeLayoutTests.swift:8-17 | square by width in 375×812 is 375×375 at the origin |
| `Scenarios.InsetSquare` | Tests/Cases/InsetsLayoutTests.swift:8-20 | dx = dy = 5 around a square by width in 44×64 gives (5, 5, 34, 34) |
| `Scenarios.LargestOfTwo` | Tests/Cases/ZLayoutTests.swift:29-39 | 100×100 and 100×200 children give 100×200 |
| `Scenarios.BuilderMatchesAppends` | Tests/Cases/StackLayoutTests.swift:146-160 | the builder's blocks give the same elements as the equivalent `append` calls |

## Where the code and its tests disagree

The model follows the code in both places below.

- `SizeLayout.init(size:)` turns a zero width or height into "use the parent"
  (Sources/Layouts/SizeLayout.swift:57-58). So `append(x, length: 0)` gets the
  parent's whole length, not 0 (`Scenarios.ZeroLengthAsksForParent`). The
  expectation of Tests/Cases/StackLayoutTests.swift:172-188 says otherwise.
- The stack cursor advances by the length the child returns
  (Sources/Layouts/StackLayout.swift:122-124), not by the length the child was
  offered. A flexible `SizeLayout(side: 44)` therefore does not push its
  successor to the far end. The third square lands at 88 and the stack is 132
  long (`Scenarios.SquaresWithFlexibleMiddleLayout`). The test at
  Tests/Cases/StackLayoutTests.swift:126-144 expects 331 and 375.

## Left out

- UIKit views (Sources/UIKit+Layout.swift) are not part of this model:
  - their frame assignment;
  - their `min`-clamped `calculateSize`, which reads the current frame;
  - `NSAttributedString` measurement with `ceil`/`integral`.
  The leaves are the library's test elements instead.
- Text measurement (`TextContent.size(constrainedTo:useDeviceMetrics:)`) is an
  uninterpreted function. The image's size (`ImageContent.size`) is an optional
  value on the element. A concrete `ConvertOffset` is an arbitrary
  `real -> real`, with the identity when none is set.
- `CGFloat` floating-point rounding is not modelled: values are reals, and the
  flexible length division is exact.
- The source divides by zero when no element is flexible
  (Sources/Layouts/StackLayout.swift:149). That value is never used, and
  `StackAlgorithm.FlexElementLength` returns 0 there.
- The Swift result-builder syntax and key-path writes are modelled as a
  sequence of factories and datatype field updates.
- Lay-out mutates views through references. Here it is the returned log of
  assignments, so the aliasing of one view in two places of the tree is not
  modelled. A view that appears twice simply gets two entries, and the last
  one wins (`LayoutProtocol.LastRectIsLastWrite`).
- Test scaffolding is out: the ASCII renderer, `ZeroLayout`, and the
  print-only multiline test.
- `Axis.swift` is not part of this model. Its two cases are `CoreGraphics.Axis`.
- ButtonLayoutSizing.ButtonHeight: without an option the contract gives only the two lower bounds; the exact sum of the larger top inset, the larger height and the larger bottom inset is the body itself.
- EdgeInsets.InsetByZero: stated only for rectangles of non-negative size, because the standardised width and height CoreGraphics reads turn a negative size positive (`EdgeInsets.InsetOfFlippedRect`).
- EdgeInsets.InsetTwice: stated only when the first inset leaves a non-negative size (the original rectangle may have any size), for the same reason; `InsetLayouts.NestedInsetsAdd` inherits that condition on its outer shrink.
