/** Concrete layouts from the library's own test cases, worked through the model. */
module Scenarios {
  import opened Wrappers
  import opened CoreGraphics
  import opened AxisPoint
  import opened AxisSize
  import opened Alignments
  import opened LayoutProtocol
  import opened StackAlgorithm
  import opened Layouts
  import opened SizeLayoutSizing
  import opened SizeLayouts
  import opened StackLayouts
  import opened EdgeInsets
  import opened InsetLayouts
  import opened ZLayoutSizing
  import opened ZLayouts
  import opened StackLayoutBuilder

  /** A horizontal stack: a 44-long element with cross offset 10, a flexible element, and another 44-long element. */
  function FixedFlexFixed(a: nat, b: nat, c: nat): Node {
    StackNode(X, [LengthElement(X, ElementLeaf(a), 44.0, 0.0, 10.0, NotFlexible),
                  PlainElement(X, ElementLeaf(b), 0.0, 0.0, FlexibleLength),
                  LengthElement(X, ElementLeaf(c), 44.0, 0.0, 0.0, NotFlexible)], None)
  }

  const PhoneRow := Rect(0.0, 0.0, 375.0, 44.0)

  /** The flexible element is measured 375 - 2 * 44 = 287 long. */
  lemma FixedFlexFixedMeasurements(a: nat, b: nat, c: nat)
    ensures StackWalk(FixedFlexFixed(a, b, c), PhoneRow).ms
            == [Measurement(Point(X, CGPoint(0.0, 10.0)), Size(X, CGSize(44.0, 44.0))),
                Measurement(Point(X, CGPoint(0.0, 0.0)), Size(X, CGSize(287.0, 44.0))),
                Measurement(Point(X, CGPoint(0.0, 0.0)), Size(X, CGSize(44.0, 44.0)))]
  {
    var n := FixedFlexFixed(a, b, c);
    var rect := PhoneRow;
    var sizes := ChildSizes(n, rect);
    assert sizes == [CGSize(44.0, 44.0), CGSize(375.0, 44.0), CGSize(44.0, 44.0)];
    var convert := Converter(None);
    var els := n.elements;
    assert !els[0].IsFlexibleLength() && els[1].IsFlexibleLength() && !els[2].IsFlexibleLength();
    var m0 := Measurement(Point(X, CGPoint(0.0, 10.0)), Size(X, CGSize(44.0, 44.0)));
    var m2 := Measurement(Point(X, CGPoint(0.0, 0.0)), Size(X, CGSize(44.0, 44.0)));
    assert StaticMeasurement(X, els[0], sizes[0], convert) == m0;
    assert StaticMeasurement(X, els[2], sizes[2], convert) == m2;
    assert StaticMeasurementsFrom(X, els, sizes, convert, 3) == [];
    assert StaticMeasurementsFrom(X, els, sizes, convert, 2) == [m2];
    assert StaticMeasurementsFrom(X, els, sizes, convert, 1) == [m2];
    assert StaticMeasurementsFrom(X, els, sizes, convert, 0) == [m0, m2];
    assert FlexOffsetsFrom(els, convert, 2) == [];
    assert FlexOffsetsFrom(els, convert, 0) == [FlexOffset(1, Point(X, CGPoint(0.0, 0.0)))];
    assert TotalLength([m2]) == 44.0;
    assert TotalLength([m0, m2]) == 88.0;
    assert FlexOffsetsTotal([FlexOffset(1, Point(X, CGPoint(0.0, 0.0)))]) == 0.0;
    assert FlexElementLength(X, els, sizes, convert, rect) == 287.0;
  }

  /** The cursor and the reported sizes of a walk over three elements, step by step. */
  lemma ThreeElementAdvance(w: Walk)
    requires |w.ms| == 3
    ensures w.Advance(3) == w.ms[0].point.Offset() + w.PlacedSize(0).Length() + w.ms[1].point.Offset()
                            + w.PlacedSize(1).Length() + w.ms[2].point.Offset() + w.PlacedSize(2).Length()
    ensures w.PlacedSizes(3) == [w.PlacedSize(0), w.PlacedSize(1), w.PlacedSize(2)]
  {
    WalkStep(w, 0);
    WalkStep(w, 1);
    WalkStep(w, 2);
  }

  /** The log of a walk over three elements, step by step. */
  lemma ThreeElementWrites(w: Walk)
    requires |w.ms| == 3
    ensures w.Writes(3) == w.Placed(0).writes + w.Placed(1).writes + w.Placed(2).writes
  {
    WritesSnoc(w, 0);
    WritesSnoc(w, 1);
    WritesSnoc(w, 2);
  }

  /** Element 0 of `FixedFlexFixed` in `PhoneRow`. */
  lemma FixedFlexFixedFirst(a: nat, b: nat, c: nat)
    ensures StackWalk(FixedFlexFixed(a, b, c), PhoneRow).Placed(0) == Placement(Rect(0.0, 10.0, 44.0, 44.0), [Write(a, Rect(0.0, 10.0, 44.0, 44.0))])
  {
    var n := FixedFlexFixed(a, b, c);
    var rect := PhoneRow;
    var w := StackWalk(n, rect);
    FixedFlexFixedMeasurements(a, b, c);
    StackWalkPlaces(n, rect, 0);
    assert w.Container(0) == Rect(0.0, 10.0, 44.0, 44.0);
  }

  /** Element 1 of `FixedFlexFixed` in `PhoneRow`. */
  lemma FixedFlexFixedSecond(a: nat, b: nat, c: nat)
    ensures StackWalk(FixedFlexFixed(a, b, c), PhoneRow).Placed(1) == Placement(Rect(44.0, 0.0, 287.0, 44.0), [Write(b, Rect(44.0, 0.0, 287.0, 44.0))])
  {
    var n := FixedFlexFixed(a, b, c);
    var rect := PhoneRow;
    var w := StackWalk(n, rect);
    FixedFlexFixedMeasurements(a, b, c);
    FixedFlexFixedFirst(a, b, c);
    WalkStep(w, 0);
    assert w.Advance(1) == 44.0;
    StackWalkPlaces(n, rect, 1);
    assert w.Container(1) == Rect(44.0, 0.0, 287.0, 44.0);
  }

  /** Element 2 of `FixedFlexFixed` in `PhoneRow`. */
  lemma FixedFlexFixedThird(a: nat, b: nat, c: nat)
    ensures StackWalk(FixedFlexFixed(a, b, c), PhoneRow).Placed(2) == Placement(Rect(331.0, 0.0, 44.0, 44.0), [Write(c, Rect(331.0, 0.0, 44.0, 44.0))])
  {
    var n := FixedFlexFixed(a, b, c);
    var rect := PhoneRow;
    var w := StackWalk(n, rect);
    FixedFlexFixedMeasurements(a, b, c);
    FixedFlexFixedFirst(a, b, c);
    FixedFlexFixedSecond(a, b, c);
    WalkStep(w, 0);
    WalkStep(w, 1);
    assert w.Advance(1) == 44.0;
    assert w.Advance(2) == 331.0;
    StackWalkPlaces(n, rect, 2);
    assert w.Container(2) == Rect(331.0, 0.0, 44.0, 44.0);
  }

  /** The leaf assignments of `FixedFlexFixed` in `PhoneRow`, in order. */
  lemma FixedFlexFixedWrites(a: nat, b: nat, c: nat)
    ensures StackWalk(FixedFlexFixed(a, b, c), PhoneRow).Writes(3) == [Write(a, Rect(0.0, 10.0, 44.0, 44.0)), Write(b, Rect(44.0, 0.0, 287.0, 44.0)),
                                                            Write(c, Rect(331.0, 0.0, 44.0, 44.0))]
  {
    FixedFlexFixedFirst(a, b, c);
    FixedFlexFixedSecond(a, b, c);
    FixedFlexFixedThird(a, b, c);
    ThreeElementWrites(StackWalk(FixedFlexFixed(a, b, c), PhoneRow));
  }

  /** The size `FixedFlexFixed` is laid out with in `PhoneRow`. */
  lemma FixedFlexFixedSize(a: nat, b: nat, c: nat)
    ensures StackWalk(FixedFlexFixed(a, b, c), PhoneRow).LayoutedSize().cgSize == CGSize(375.0, 44.0)
  {
    FixedFlexFixedFirst(a, b, c);
    FixedFlexFixedSecond(a, b, c);
    FixedFlexFixedThird(a, b, c);
    var w := StackWalk(FixedFlexFixed(a, b, c), PhoneRow);
    ThreeElementAdvance(w);
    assert w.PlacedSize(0) == Size(X, CGSize(44.0, 44.0));
    assert w.PlacedSize(1) == Size(X, CGSize(287.0, 44.0));
    assert w.PlacedSize(2) == Size(X, CGSize(44.0, 44.0));
    assert w.Advance(3) == 375.0;
    assert MaxCrossLength(w.PlacedSizes(3), w.crossLength) == 44.0;
  }

  /**
   * Laid out in a 375 by 44 parent, the elements are put side by side at 0, 44 and
   * 331, the first one 10 points down, and the stack fills the parent.
   */
  lemma FixedFlexFixedLayout(a: nat, b: nat, c: nat)
    ensures Place(FixedFlexFixed(a, b, c), PhoneRow)
            == Placement(PhoneRow, [Write(a, Rect(0.0, 10.0, 44.0, 44.0)), Write(b, Rect(44.0, 0.0, 287.0, 44.0)),
                                    Write(c, Rect(331.0, 0.0, 44.0, 44.0))])
  {
    FixedFlexFixedWrites(a, b, c);
    FixedFlexFixedSize(a, b, c);
    StackPlacement(FixedFlexFixed(a, b, c), PhoneRow);
  }

  /**
   * Three 44-point square layouts in a horizontal stack, the middle one flexible,
   * in a 375 by 64 parent. The middle container is 287 long, but the square layout
   * reports 44, and the cursor moves by what is reported: the third square starts
   * at 88 and the stack is 132 long.
   */
  function SquaresWithFlexibleMiddle(a: nat, b: nat, c: nat): Node {
    StackNode(X, [PlainElement(X, SizeWithSide(ElementLeaf(a), 44.0, NoAlignment), 0.0, 0.0, NotFlexible),
                  PlainElement(X, SizeWithSide(ElementLeaf(b), 44.0, NoAlignment), 0.0, 0.0, FlexibleLength),
                  PlainElement(X, SizeWithSide(ElementLeaf(c), 44.0, NoAlignment), 0.0, 0.0, NotFlexible)], None)
  }

  const PhoneBar := Rect(0.0, 0.0, 375.0, 64.0)

  lemma SquaresWithFlexibleMiddleMeasurements(a: nat, b: nat, c: nat)
    ensures StackWalk(SquaresWithFlexibleMiddle(a, b, c), PhoneBar).ms
            == [Measurement(Point(X, CGPoint(0.0, 0.0)), Size(X, CGSize(44.0, 44.0))),
                Measurement(Point(X, CGPoint(0.0, 0.0)), Size(X, CGSize(287.0, 44.0))),
                Measurement(Point(X, CGPoint(0.0, 0.0)), Size(X, CGSize(44.0, 44.0)))]
  {
    var n := SquaresWithFlexibleMiddle(a, b, c);
    var rect := PhoneBar;
    var sizes := ChildSizes(n, rect);
    assert sizes == [CGSize(44.0, 44.0), CGSize(44.0, 44.0), CGSize(44.0, 44.0)];
    var convert := Converter(None);
    var els := n.elements;
    assert !els[0].IsFlexibleLength() && els[1].IsFlexibleLength() && !els[2].IsFlexibleLength();
    var m := Measurement(Point(X, CGPoint(0.0, 0.0)), Size(X, CGSize(44.0, 44.0)));
    assert StaticMeasurement(X, els[0], sizes[0], convert) == m;
    assert StaticMeasurement(X, els[2], sizes[2], convert) == m;
    assert StaticMeasurementsFrom(X, els, sizes, convert, 3) == [];
    assert StaticMeasurementsFrom(X, els, sizes, convert, 2) == [m];
    assert StaticMeasurementsFrom(X, els, sizes, convert, 1) == [m];
    assert StaticMeasurementsFrom(X, els, sizes, convert, 0) == [m, m];
    assert FlexOffsetsFrom(els, convert, 2) == [];
    assert FlexOffsetsFrom(els, convert, 0) == [FlexOffset(1, Point(X, CGPoint(0.0, 0.0)))];
    assert TotalLength([m]) == 44.0;
    assert TotalLength([m, m]) == 88.0;
    assert FlexOffsetsTotal([FlexOffset(1, Point(X, CGPoint(0.0, 0.0)))]) == 0.0;
    assert FlexElementLength(X, els, sizes, convert, rect) == 287.0;
  }

  /** Element 0 of `SquaresWithFlexibleMiddle` in `PhoneBar`. */
  lemma SquaresWithFlexibleMiddleFirst(a: nat, b: nat, c: nat)
    ensures StackWalk(SquaresWithFlexibleMiddle(a, b, c), PhoneBar).Placed(0) == Placement(Rect(0.0, 0.0, 44.0, 44.0), [Write(a, Rect(0.0, 0.0, 44.0, 44.0))])
  {
    var n := SquaresWithFlexibleMiddle(a, b, c);
    var rect := PhoneBar;
    var w := StackWalk(n, rect);
    SquaresWithFlexibleMiddleMeasurements(a, b, c);
    StackWalkPlaces(n, rect, 0);
    assert w.Container(0) == Rect(0.0, 0.0, 44.0, 64.0);
  }

  /** Element 1 of `SquaresWithFlexibleMiddle` in `PhoneBar`. */
  lemma SquaresWithFlexibleMiddleSecond(a: nat, b: nat, c: nat)
    ensures StackWalk(SquaresWithFlexibleMiddle(a, b, c), PhoneBar).Placed(1) == Placement(Rect(44.0, 0.0, 44.0, 44.0), [Write(b, Rect(44.0, 0.0, 44.0, 44.0))])
  {
    var n := SquaresWithFlexibleMiddle(a, b, c);
    var rect := PhoneBar;
    var w := StackWalk(n, rect);
    SquaresWithFlexibleMiddleMeasurements(a, b, c);
    SquaresWithFlexibleMiddleFirst(a, b, c);
    WalkStep(w, 0);
    assert w.Advance(1) == 44.0;
    StackWalkPlaces(n, rect, 1);
    assert w.Container(1) == Rect(44.0, 0.0, 287.0, 64.0);
  }

  /** The leaf assignments of `SquaresWithFlexibleMiddle` in `PhoneBar`, in order. */
  lemma SquaresWithFlexibleMiddleWrites(a: nat, b: nat, c: nat)
    ensures StackWalk(SquaresWithFlexibleMiddle(a, b, c), PhoneBar).Writes(3) == [Write(a, Rect(0.0, 0.0, 44.0, 44.0)), Write(b, Rect(44.0, 0.0, 44.0, 44.0)),
                                                                       Write(c, Rect(88.0, 0.0, 44.0, 44.0))]
  {
    SquaresWithFlexibleMiddleFirst(a, b, c);
    SquaresWithFlexibleMiddleSecond(a, b, c);
    SquaresWithFlexibleMiddleThird(a, b, c);
    ThreeElementWrites(StackWalk(SquaresWithFlexibleMiddle(a, b, c), PhoneBar));
  }

  /** The size `SquaresWithFlexibleMiddle` is laid out with in `PhoneBar`. */
  lemma SquaresWithFlexibleMiddleSize(a: nat, b: nat, c: nat)
    ensures StackWalk(SquaresWithFlexibleMiddle(a, b, c), PhoneBar).LayoutedSize().cgSize == CGSize(132.0, 44.0)
  {
    SquaresWithFlexibleMiddleFirst(a, b, c);
    SquaresWithFlexibleMiddleSecond(a, b, c);
    SquaresWithFlexibleMiddleThird(a, b, c);
    var w := StackWalk(SquaresWithFlexibleMiddle(a, b, c), PhoneBar);
    ThreeElementAdvance(w);
    assert w.PlacedSize(0) == Size(X, CGSize(44.0, 44.0));
    assert w.PlacedSize(1) == Size(X, CGSize(44.0, 44.0));
    assert w.PlacedSize(2) == Size(X, CGSize(44.0, 44.0));
    assert w.Advance(3) == 132.0;
    assert MaxCrossLength(w.PlacedSizes(3), w.crossLength) == 44.0;
  }

  /** Element 2 of `SquaresWithFlexibleMiddle` in `PhoneBar`. */
  lemma SquaresWithFlexibleMiddleThird(a: nat, b: nat, c: nat)
    ensures StackWalk(SquaresWithFlexibleMiddle(a, b, c), PhoneBar).Placed(2) == Placement(Rect(88.0, 0.0, 44.0, 44.0), [Write(c, Rect(88.0, 0.0, 44.0, 44.0))])
  {
    var n := SquaresWithFlexibleMiddle(a, b, c);
    var rect := PhoneBar;
    var w := StackWalk(n, rect);
    SquaresWithFlexibleMiddleMeasurements(a, b, c);
    SquaresWithFlexibleMiddleFirst(a, b, c);
    SquaresWithFlexibleMiddleSecond(a, b, c);
    WalkStep(w, 0);
    WalkStep(w, 1);
    assert w.Advance(1) == 44.0;
    assert w.Advance(2) == 88.0;
    StackWalkPlaces(n, rect, 2);
    assert w.Container(2) == Rect(88.0, 0.0, 44.0, 64.0);
  }

  lemma SquaresWithFlexibleMiddleLayout(a: nat, b: nat, c: nat)
    ensures Place(SquaresWithFlexibleMiddle(a, b, c), PhoneBar)
            == Placement(Rect(0.0, 0.0, 132.0, 44.0),
                         [Write(a, Rect(0.0, 0.0, 44.0, 44.0)), Write(b, Rect(44.0, 0.0, 44.0, 44.0)),
                          Write(c, Rect(88.0, 0.0, 44.0, 44.0))])
  {
    SquaresWithFlexibleMiddleWrites(a, b, c);
    SquaresWithFlexibleMiddleSize(a, b, c);
    StackPlacement(SquaresWithFlexibleMiddle(a, b, c), PhoneBar);
  }

  /** `append(e, length: 0)` in a vertical stack asks for the parent's whole height, not for nothing. */
  lemma ZeroLengthAsksForParent(rect: CGRect)
    ensures Measure(LengthElement(Y, ElementLeaf(1), 0.0, 0.0, 0.0, NotFlexible).child, rect)
            == CGSize(rect.Width(), rect.Height())
  {
    ZeroComponentTakesParent(ElementLeaf(1), MakeSize(Y, 0.0, 0.0), NoAlignment, rect);
  }

  /** A square by the parent's width in a 375 by 812 parent is 375 by 375 at the origin. */
  lemma SquareByWidthInPhone()
    ensures Place(SizeWithOption(ElementLeaf(1), SquareByWidth, NoAlignment), Rect(0.0, 0.0, 375.0, 812.0))
            == Placement(Rect(0.0, 0.0, 375.0, 375.0), [Write(1, Rect(0.0, 0.0, 375.0, 375.0))])
  {
    DefaultIsTopLeft(CGSize(375.0, 375.0), Rect(0.0, 0.0, 375.0, 812.0));
  }

  /** A square by width inset by 5 on every side of a 44 by 64 parent is 34 by 34 at (5, 5). */
  lemma InsetSquare()
    ensures Place(InsetByD(SizeWithOption(ElementLeaf(1), SquareByWidth, NoAlignment), 5.0, 5.0), Rect(0.0, 0.0, 44.0, 64.0)).rect
            == Rect(5.0, 5.0, 34.0, 34.0)
  {
    var inner := InsetRect(Rect(0.0, 0.0, 44.0, 64.0), Insets(5.0, 5.0, 5.0, 5.0));
    assert inner == Rect(5.0, 5.0, 34.0, 54.0);
    DefaultIsTopLeft(CGSize(34.0, 34.0), inner);
  }

  /** Of a 100 by 100 and a 100 by 200 element, the z-stack asks for 100 by 200. */
  lemma LargestOfTwo()
    ensures Measure(ZStack([SizedElementLeaf(1, CGSize(100.0, 100.0)), SizedElementLeaf(2, CGSize(100.0, 200.0))]),
                    Rect(0.0, 64.0, 375.0, 812.0))
            == CGSize(100.0, 200.0)
  {
    var sizes := [CGSize(100.0, 100.0), CGSize(100.0, 200.0)];
    assert LargestIndex(sizes, 2) == 1;
  }

  /**
   * The builder's `s1.length(44).crossOffset(10).offset(5)`, `SizeLayout(child: f1).flexible(.length)`
   * and `SizeLayout(child: s2, width: 44)` give the elements the equivalent `append` calls add.
   */
  lemma BuilderMatchesAppends()
    ensures var layouts := [WithOffset(WithCrossOffset(WithLength(ElementLeaf(1), 44.0), 10.0), 5.0),
                            WithFlexible(SizeOfParent(ElementLeaf(2), NoAlignment), FlexibleLength),
                            SizeWithWidth(ElementLeaf(3), Some(44.0), NoAlignment)];
            seq(3, i requires 0 <= i < 3 => MakeElement(layouts[i], X))
            == [LengthElement(X, ElementLeaf(1), 44.0, 5.0, 10.0, NotFlexible),
                PlainElement(X, SizeOfParent(ElementLeaf(2), NoAlignment), 0.0, 0.0, FlexibleLength),
                PlainElement(X, SizeWithWidth(ElementLeaf(3), Some(44.0), NoAlignment), 0.0, 0.0, NotFlexible)]
  {
    var layouts := [WithOffset(WithCrossOffset(WithLength(ElementLeaf(1), 44.0), 10.0), 5.0),
                    WithFlexible(SizeOfParent(ElementLeaf(2), NoAlignment), FlexibleLength),
                    SizeWithWidth(ElementLeaf(3), Some(44.0), NoAlignment)];
    BlockMatchesAppend(layouts[0], X);
    BlockMatchesAppend(layouts[1], X);
    LayoutMatchesAppend(layouts[2], X);
  }
}
