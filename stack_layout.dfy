/**
 * StackLayout.swift, the algorithm: the measurements of a stack's elements from
 * their own sizes, the equal division of the remaining length among the flexible
 * ones, and the cursor walk that places the elements one after another.
 *
 * The algorithm is stated for any children: it is given the size each child
 * reports to `calculateSize(in:)` for the stack's rectangle, and a function that
 * performs a child's `layout(in:)`.
 */
module StackAlgorithm {
  import opened Wrappers
  import opened CoreGraphics
  import opened AxisPoint
  import opened AxisSize
  import opened LayoutProtocol

  /** `Flexible`, an option set whose one member `length` has raw value 1. */
  datatype Flexible = Flexible(rawValue: bv64) {
    predicate Contains(member: Flexible) {
      rawValue & member.rawValue == member.rawValue
    }
  }

  const FlexibleLength := Flexible(1)

  /** The empty set `[]`. */
  const NotFlexible := Flexible(0)

  /** `StackLayout.LayoutElement`: a child, its gap before it and cross offset (`point`), and its flexibility. */
  datatype LayoutElement<+C> = LayoutElement(child: C, point: Point, flexible: Flexible) {
    predicate IsFlexibleLength() {
      flexible.Contains(FlexibleLength)
    }
  }

  /** `Measurement`: the (converted) point and the size an element is laid out with. */
  datatype Measurement = Measurement(point: Point, size: Size)

  /** `FlexOffset`: a flexible element's index and converted point. */
  datatype FlexOffset = FlexOffset(index: nat, point: Point)

  /** `convertOffset?.converted ?? { $0 }` */
  function Converter(convertOffset: Option<real -> real>): real -> real {
    match convertOffset
    case None => (v: real) => v
    case Some(converted) => converted
  }

  /** `Point(point:convert:)`: the offset and the cross offset pass through `convert`. */
  function ConvertPoint(p: Point, convert: real -> real): (q: Point)
    ensures q.axis == p.axis && q.Offset() == convert(p.Offset()) && q.CrossOffset() == convert(p.CrossOffset())
  {
    MakePoint(p.axis, convert(p.Offset()), convert(p.CrossOffset()))
  }

  /** Without a `convertOffset` the points are unchanged. */
  lemma NoConversionKeepsPoint(p: Point)
    ensures ConvertPoint(p, Converter(None)) == p
  {
    MakePointFromParts(p);
  }

  /** The measurement of a non-flexible element: its converted point and the size its child asks for. */
  function StaticMeasurement<C>(axis: Axis, e: LayoutElement<C>, childSize: CGSize, convert: real -> real): Measurement {
    Measurement(ConvertPoint(e.point, convert), Size(axis, childSize))
  }

  /** `staticMeasurements(in:)` over the elements from index `b` on: the non-flexible ones, measured, in order. */
  function StaticMeasurementsFrom<C>(axis: Axis, els: seq<LayoutElement<C>>, childSizes: seq<CGSize>,
                                     convert: real -> real, b: nat): seq<Measurement>
    requires |childSizes| == |els| && b <= |els|
    decreases |els| - b
  {
    if b == |els| then []
    else if els[b].IsFlexibleLength() then StaticMeasurementsFrom(axis, els, childSizes, convert, b + 1)
    else [StaticMeasurement(axis, els[b], childSizes[b], convert)] + StaticMeasurementsFrom(axis, els, childSizes, convert, b + 1)
  }

  /** `flexOffsets()` over the elements from index `b` on: the index and converted point of each flexible one, in order. */
  function FlexOffsetsFrom<C>(els: seq<LayoutElement<C>>, convert: real -> real, b: nat): seq<FlexOffset>
    requires b <= |els|
    decreases |els| - b
  {
    if b == |els| then []
    else if els[b].IsFlexibleLength() then [FlexOffset(b, ConvertPoint(els[b].point, convert))] + FlexOffsetsFrom(els, convert, b + 1)
    else FlexOffsetsFrom(els, convert, b + 1)
  }

  /** `reduce(0, { $0 + $1.point.offset + $1.size.length })`: the main-axis length the measurements take up. */
  function TotalLength(ms: seq<Measurement>): real {
    if ms == [] then 0.0 else ms[0].point.Offset() + ms[0].size.Length() + TotalLength(ms[1..])
  }

  /** `reduce(0, { $0 + $1.point.offset })` over the flexible elements. */
  function FlexOffsetsTotal(fo: seq<FlexOffset>): real {
    if fo == [] then 0.0 else fo[0].point.Offset() + FlexOffsetsTotal(fo[1..])
  }

  /**
   * `flexElementLength`: the parent's length minus what the static elements and the
   * flexible elements' offsets take, divided by the number of flexible elements.
   * The source divides by zero when there is none; the value is then never used, and
   * the model returns 0.
   */
  function FlexElementLength<C>(axis: Axis, els: seq<LayoutElement<C>>, childSizes: seq<CGSize>,
                                convert: real -> real, rect: CGRect): real
    requires |childSizes| == |els|
  {
    var size := Size(axis, rect.size);
    var staticLength := TotalLength(StaticMeasurementsFrom(axis, els, childSizes, convert, 0));
    var flexOffsets := FlexOffsetsFrom(els, convert, 0);
    var flexLength := size.Length() - staticLength - FlexOffsetsTotal(flexOffsets);
    if |flexOffsets| == 0 then 0.0 else flexLength / (|flexOffsets| as real)
  }

  /**
   * The measurement of every element at its own index: a static element keeps its
   * child's size, a flexible one gets the shared length and its child's own cross
   * length. This is the reference the insertion loop of `allMeasurements` is proved
   * against.
   */
  function Measurements<C>(axis: Axis, els: seq<LayoutElement<C>>, childSizes: seq<CGSize>,
                           convert: real -> real, rect: CGRect): (ms: seq<Measurement>)
    requires |childSizes| == |els|
    ensures |ms| == |els|
  {
    var flexElementLength := FlexElementLength(axis, els, childSizes, convert, rect);
    seq(|els|, i requires 0 <= i < |els| =>
      if els[i].IsFlexibleLength() then
        Measurement(ConvertPoint(els[i].point, convert),
                    MakeSize(axis, flexElementLength, Size(axis, childSizes[i]).CrossLength()))
      else StaticMeasurement(axis, els[i], childSizes[i], convert))
  }

  /** `R` holds the measurement of every static element at that element's index. */
  ghost predicate StaticAtIndex<C>(axis: Axis, els: seq<LayoutElement<C>>, childSizes: seq<CGSize>,
                                   convert: real -> real, R: seq<Measurement>)
    requires |childSizes| == |els|
  {
    |R| == |els| &&
    forall i :: 0 <= i < |els| && !els[i].IsFlexibleLength() ==> R[i] == StaticMeasurement(axis, els[i], childSizes[i], convert)
  }

  /**
   * One insertion of `allMeasurements`: while the remaining flexible offsets are those
   * from `b` on, the next one has an index `idx >= b`, every element in between is
   * static, and inserting at `idx` extends the prefix of the reference by one.
   */
  lemma {:induction false} InsertionStep<C>(axis: Axis, els: seq<LayoutElement<C>>, childSizes: seq<CGSize>,
                                            convert: real -> real, R: seq<Measurement>, b: nat)
    requires |childSizes| == |els| && b <= |els|
    requires StaticAtIndex(axis, els, childSizes, convert, R)
    requires FlexOffsetsFrom(els, convert, b) != []
    ensures var fo := FlexOffsetsFrom(els, convert, b);
            var idx := fo[0].index;
            && b <= idx < |els| && els[idx].IsFlexibleLength()
            && fo[0].point == ConvertPoint(els[idx].point, convert)
            && fo[1..] == FlexOffsetsFrom(els, convert, idx + 1)
            && R[..b] + StaticMeasurementsFrom(axis, els, childSizes, convert, b)
               == R[..idx] + StaticMeasurementsFrom(axis, els, childSizes, convert, idx + 1)
    decreases |els| - b
  {
    NextFlexOffset(els, convert, b);
    var idx := FlexOffsetsFrom(els, convert, b)[0].index;
    StaticRun(axis, els, childSizes, convert, R, b, idx);
    assert R[..b] + R[b..idx] == R[..idx];
  }

  /** The first flexible offset from `b` on: its index is the first flexible element at or after `b`. */
  lemma {:induction false} NextFlexOffset<C>(els: seq<LayoutElement<C>>, convert: real -> real, b: nat)
    requires b <= |els| && FlexOffsetsFrom(els, convert, b) != []
    ensures var fo := FlexOffsetsFrom(els, convert, b);
            var idx := fo[0].index;
            && b <= idx < |els| && els[idx].IsFlexibleLength()
            && fo[0].point == ConvertPoint(els[idx].point, convert)
            && fo[1..] == FlexOffsetsFrom(els, convert, idx + 1)
            && forall i :: b <= i < idx ==> !els[i].IsFlexibleLength()
    decreases |els| - b
  {
    if !els[b].IsFlexibleLength() {
      NextFlexOffset(els, convert, b + 1);
    }
  }

  /** Over a run of static elements from `b` to `idx`, the static measurements are the reference's, in order. */
  lemma {:induction false} StaticRun<C>(axis: Axis, els: seq<LayoutElement<C>>, childSizes: seq<CGSize>,
                                        convert: real -> real, R: seq<Measurement>, b: nat, idx: nat)
    requires |childSizes| == |els| && b <= idx < |els| && els[idx].IsFlexibleLength()
    requires StaticAtIndex(axis, els, childSizes, convert, R)
    requires forall i :: b <= i < idx ==> !els[i].IsFlexibleLength()
    ensures StaticMeasurementsFrom(axis, els, childSizes, convert, b)
            == R[b..idx] + StaticMeasurementsFrom(axis, els, childSizes, convert, idx + 1)
    decreases idx - b
  {
    if b < idx {
      StaticRun(axis, els, childSizes, convert, R, b + 1, idx);
      assert R[b] == StaticMeasurement(axis, els[b], childSizes[b], convert);
      assert StaticMeasurementsFrom(axis, els, childSizes, convert, b)
             == [R[b]] + StaticMeasurementsFrom(axis, els, childSizes, convert, b + 1);
      assert R[b..idx] == [R[b]] + R[b + 1..idx];
    }
  }

  /** When no flexible offset remains from `b` on, the remaining static measurements are the rest of the reference. */
  lemma {:induction false} NoFlexibleLeft<C>(axis: Axis, els: seq<LayoutElement<C>>, childSizes: seq<CGSize>,
                                             convert: real -> real, R: seq<Measurement>, b: nat)
    requires |childSizes| == |els| && b <= |els|
    requires StaticAtIndex(axis, els, childSizes, convert, R)
    requires FlexOffsetsFrom(els, convert, b) == []
    ensures StaticMeasurementsFrom(axis, els, childSizes, convert, b) == R[b..]
    decreases |els| - b
  {
    if b < |els| {
      assert !els[b].IsFlexibleLength();
      NoFlexibleLeft(axis, els, childSizes, convert, R, b + 1);
      assert R[b..] == [R[b]] + R[b + 1..];
    }
  }

  /** `Array.insert(_:at:)`. */
  function Insert<T>(s: seq<T>, x: T, i: nat): (r: seq<T>)
    requires i <= |s|
    ensures |r| == |s| + 1 && r[i] == x && r[..i] == s[..i] && r[i + 1..] == s[i..]
  {
    s[..i] + [x] + s[i..]
  }

  /**
   * One turn of the insertion loop of `allMeasurements`: inserting the reference
   * measurement of the next flexible element at its index turns the reference prefix
   * up to `b` into the reference prefix up to just past that index.
   */
  lemma InsertAtNextFlex<C>(axis: Axis, els: seq<LayoutElement<C>>, childSizes: seq<CGSize>,
                            convert: real -> real, R: seq<Measurement>, b: nat, ms: seq<Measurement>)
    requires |childSizes| == |els| && b <= |els|
    requires StaticAtIndex(axis, els, childSizes, convert, R)
    requires ms == R[..b] + StaticMeasurementsFrom(axis, els, childSizes, convert, b)
    requires FlexOffsetsFrom(els, convert, b) != []
    ensures var fo := FlexOffsetsFrom(els, convert, b);
            var idx := fo[0].index;
            && b <= idx < |els| && idx <= |ms| && els[idx].IsFlexibleLength()
            && fo[0].point == ConvertPoint(els[idx].point, convert)
            && fo[1..] == FlexOffsetsFrom(els, convert, idx + 1)
            && Insert(ms, R[idx], idx) == R[..idx + 1] + StaticMeasurementsFrom(axis, els, childSizes, convert, idx + 1)
  {
    InsertionStep(axis, els, childSizes, convert, R, b);
    var idx := FlexOffsetsFrom(els, convert, b)[0].index;
    var rest := StaticMeasurementsFrom(axis, els, childSizes, convert, idx + 1);
    assert ms == R[..idx] + rest;
    assert ms[..idx] == R[..idx];
    assert ms[idx..] == rest;
    assert R[..idx + 1] == R[..idx] + [R[idx]];
  }

  /** The reference measurement of a flexible element: its converted point, the shared length and its child's cross length. */
  lemma FlexibleMeasurement<C>(axis: Axis, els: seq<LayoutElement<C>>, childSizes: seq<CGSize>,
                               convert: real -> real, rect: CGRect, i: nat)
    requires |childSizes| == |els| && i < |els| && els[i].IsFlexibleLength()
    ensures Measurements(axis, els, childSizes, convert, rect)[i]
            == Measurement(ConvertPoint(els[i].point, convert),
                           MakeSize(axis, FlexElementLength(axis, els, childSizes, convert, rect),
                                    Size(axis, childSizes[i]).CrossLength()))
  {
  }

  /**
   * One turn of the insertion loop, as the loop sees it: the `j`-th flexible offset,
   * followed by the `j`-th remaining one, is inserted with the shared length at its
   * index, and the reference prefix grows to just past that index.
   */
  lemma InsertionTurn<C>(axis: Axis, els: seq<LayoutElement<C>>, childSizes: seq<CGSize>,
                         convert: real -> real, rect: CGRect, fos: seq<FlexOffset>, j: nat, b: nat,
                         ms: seq<Measurement>)
    requires |childSizes| == |els| && b <= |els| && j < |fos|
    requires fos[j..] == FlexOffsetsFrom(els, convert, b)
    requires ms == Measurements(axis, els, childSizes, convert, rect)[..b] + StaticMeasurementsFrom(axis, els, childSizes, convert, b)
    ensures b <= fos[j].index < |els|
    ensures var idx := fos[j].index;
            var m := Measurement(fos[j].point, MakeSize(axis, FlexElementLength(axis, els, childSizes, convert, rect),
                                                        Size(axis, childSizes[idx]).CrossLength()));
            && b <= idx < |els| && idx <= |ms|
            && fos[j + 1..] == FlexOffsetsFrom(els, convert, idx + 1)
            && Insert(ms, m, idx)
               == Measurements(axis, els, childSizes, convert, rect)[..idx + 1] + StaticMeasurementsFrom(axis, els, childSizes, convert, idx + 1)
  {
    var R := Measurements(axis, els, childSizes, convert, rect);
    assert StaticAtIndex(axis, els, childSizes, convert, R);
    InsertAtNextFlex(axis, els, childSizes, convert, R, b, ms);
    var fo := FlexOffsetsFrom(els, convert, b);
    assert fos[j] == fo[0];
    assert fos[j + 1..] == fo[1..];
    var idx := fo[0].index;
    FlexibleMeasurement(axis, els, childSizes, convert, rect, idx);
    assert Measurement(fos[j].point, MakeSize(axis, FlexElementLength(axis, els, childSizes, convert, rect),
                                              Size(axis, childSizes[idx]).CrossLength())) == R[idx];
  }

  /**
   * `allMeasurements(rect:)`: starts from the static measurements and inserts each
   * flexible element's measurement at its index, in ascending index order. Every
   * insertion index is within the current count, and the result is one measurement
   * per element, in the original order.
   */
  method AllMeasurements<C>(axis: Axis, els: seq<LayoutElement<C>>, childSizes: seq<CGSize>,
                            convert: real -> real, rect: CGRect) returns (measurements: seq<Measurement>)
    requires |childSizes| == |els|
    ensures measurements == Measurements(axis, els, childSizes, convert, rect)
  {
    var size := Size(axis, rect.size);
    var staticMeasurements := StaticMeasurementsFrom(axis, els, childSizes, convert, 0);
    var staticLength := TotalLength(staticMeasurements);
    var flexOffsets := FlexOffsetsFrom(els, convert, 0);
    var flexLength := size.Length() - staticLength - FlexOffsetsTotal(flexOffsets);
    var flexElementLength := if |flexOffsets| == 0 then 0.0 else flexLength / (|flexOffsets| as real);
    assert flexElementLength == FlexElementLength(axis, els, childSizes, convert, rect);
    ghost var reference := Measurements(axis, els, childSizes, convert, rect);
    measurements := staticMeasurements;
    ghost var b: nat := 0;
    assert flexOffsets[0..] == flexOffsets;
    assert measurements == reference[..0] + staticMeasurements;
    for j := 0 to |flexOffsets|
      invariant b <= |els|
      invariant flexOffsets[j..] == FlexOffsetsFrom(els, convert, b)
      invariant measurements == reference[..b] + StaticMeasurementsFrom(axis, els, childSizes, convert, b)
    {
      var flexOffset := flexOffsets[j];
      InsertionTurn(axis, els, childSizes, convert, rect, flexOffsets, j, b, measurements);
      var estimatedElementSize := Size(axis, childSizes[flexOffset.index]);
      var elementSize := MakeSize(axis, flexElementLength, estimatedElementSize.CrossLength());
      measurements := Insert(measurements, Measurement(flexOffset.point, elementSize), flexOffset.index);
      b := flexOffset.index + 1;
    }
    assert flexOffsets[|flexOffsets|..] == [];
    assert StaticAtIndex(axis, els, childSizes, convert, reference);
    NoFlexibleLeft(axis, els, childSizes, convert, reference, b);
    assert reference[..b] + reference[b..] == reference;
  }

  /** `ms` measures the static elements as their children ask and gives every flexible element the length `L`. */
  ghost predicate MeasuredWith<C>(axis: Axis, els: seq<LayoutElement<C>>, childSizes: seq<CGSize>,
                                  convert: real -> real, L: real, ms: seq<Measurement>)
    requires |childSizes| == |els|
  {
    && |ms| == |els|
    && forall i :: 0 <= i < |els| ==>
         if els[i].IsFlexibleLength() then ms[i].point == ConvertPoint(els[i].point, convert) && ms[i].size.Length() == L
         else ms[i] == StaticMeasurement(axis, els[i], childSizes[i], convert)
  }

  /** `k` copies of `L`, added up. */
  function Repeated(k: nat, L: real): real {
    if k == 0 then 0.0 else Repeated(k - 1, L) + L
  }

  lemma {:induction false} RepeatedIsProduct(k: nat, L: real)
    ensures Repeated(k, L) == (k as real) * L
  {
    if k > 0 {
      RepeatedIsProduct(k - 1, L);
      assert (k as real) * L == ((k - 1) as real) * L + L;
    }
  }

  /**
   * The measured length from index `b` on: the static measurements, the flexible
   * elements' offsets, and `L` per flexible element.
   */
  lemma {:induction false} LengthSplit<C>(axis: Axis, els: seq<LayoutElement<C>>, childSizes: seq<CGSize>,
                                          convert: real -> real, L: real, ms: seq<Measurement>, b: nat)
    requires |childSizes| == |els| && b <= |els|
    requires MeasuredWith(axis, els, childSizes, convert, L, ms)
    ensures TotalLength(ms[b..])
            == TotalLength(StaticMeasurementsFrom(axis, els, childSizes, convert, b))
               + FlexOffsetsTotal(FlexOffsetsFrom(els, convert, b))
               + Repeated(|FlexOffsetsFrom(els, convert, b)|, L)
    decreases |els| - b
  {
    if b < |els| {
      LengthSplit(axis, els, childSizes, convert, L, ms, b + 1);
      assert ms[b..][1..] == ms[b + 1..];
      var statics := StaticMeasurementsFrom(axis, els, childSizes, convert, b + 1);
      var fo := FlexOffsetsFrom(els, convert, b + 1);
      var head := ms[b].point.Offset() + ms[b].size.Length();
      assert TotalLength(ms[b..]) == head + TotalLength(ms[b + 1..]);
      if els[b].IsFlexibleLength() {
        var f := FlexOffset(b, ConvertPoint(els[b].point, convert));
        assert FlexOffsetsFrom(els, convert, b) == [f] + fo;
        assert ([f] + fo)[1..] == fo;
        assert FlexOffsetsTotal([f] + fo) == f.point.Offset() + FlexOffsetsTotal(fo);
        assert head == f.point.Offset() + L;
        assert StaticMeasurementsFrom(axis, els, childSizes, convert, b) == statics;
        assert |FlexOffsetsFrom(els, convert, b)| == |fo| + 1;
      } else {
        var m := StaticMeasurement(axis, els[b], childSizes[b], convert);
        assert StaticMeasurementsFrom(axis, els, childSizes, convert, b) == [m] + statics;
        assert ([m] + statics)[1..] == statics;
        assert TotalLength([m] + statics) == head + TotalLength(statics);
        assert FlexOffsetsFrom(els, convert, b) == fo;
      }
    }
  }

  /**
   * With at least one flexible element, the measurements fill the parent exactly
   * along the main axis: offsets plus lengths add up to the rectangle's length.
   */
  lemma FlexibleElementsFillParent<C>(axis: Axis, els: seq<LayoutElement<C>>, childSizes: seq<CGSize>,
                                      convert: real -> real, rect: CGRect)
    requires |childSizes| == |els|
    requires exists i :: 0 <= i < |els| && els[i].IsFlexibleLength()
    ensures TotalLength(Measurements(axis, els, childSizes, convert, rect)) == Size(axis, rect.size).Length()
  {
    var ms := Measurements(axis, els, childSizes, convert, rect);
    var L := FlexElementLength(axis, els, childSizes, convert, rect);
    var fo := FlexOffsetsFrom(els, convert, 0);
    var statics := TotalLength(StaticMeasurementsFrom(axis, els, childSizes, convert, 0));
    var i :| 0 <= i < |els| && els[i].IsFlexibleLength();
    FlexOffsetsCoverFlexible(els, convert, 0, i);
    assert L == (Size(axis, rect.size).Length() - statics - FlexOffsetsTotal(fo)) / (|fo| as real);
    ReferenceIsMeasuredWith(axis, els, childSizes, convert, rect);
    LengthSplit(axis, els, childSizes, convert, L, ms, 0);
    assert ms[0..] == ms;
    SharesAddUp(|fo|, statics, FlexOffsetsTotal(fo), Size(axis, rect.size).Length(), L);
  }

  /** The reference measurements give every flexible element the shared length. */
  lemma ReferenceIsMeasuredWith<C>(axis: Axis, els: seq<LayoutElement<C>>, childSizes: seq<CGSize>,
                                   convert: real -> real, rect: CGRect)
    requires |childSizes| == |els|
    ensures MeasuredWith(axis, els, childSizes, convert, FlexElementLength(axis, els, childSizes, convert, rect),
                         Measurements(axis, els, childSizes, convert, rect))
  {
  }

  /** What the static elements and the offsets leave, split into `k` equal shares and added back, gives the whole length. */
  lemma SharesAddUp(k: nat, statics: real, offsets: real, length: real, L: real)
    requires k > 0 && L == (length - statics - offsets) / (k as real)
    ensures statics + offsets + Repeated(k, L) == length
  {
    RepeatedIsProduct(k, L);
  }

  /** Every flexible element from `b` on has its entry in `flexOffsets()`. */
  lemma {:induction false} FlexOffsetsCoverFlexible<C>(els: seq<LayoutElement<C>>, convert: real -> real, b: nat, i: nat)
    requires b <= i < |els| && els[i].IsFlexibleLength()
    ensures exists k :: 0 <= k < |FlexOffsetsFrom(els, convert, b)| && FlexOffsetsFrom(els, convert, b)[k].index == i
    decreases |els| - b
  {
    if b < i {
      FlexOffsetsCoverFlexible(els, convert, b + 1, i);
      var fo := FlexOffsetsFrom(els, convert, b + 1);
      var k :| 0 <= k < |fo| && fo[k].index == i;
      if els[b].IsFlexibleLength() {
        assert FlexOffsetsFrom(els, convert, b)[k + 1] == fo[k];
      } else {
        assert FlexOffsetsFrom(els, convert, b) == fo;
      }
    } else {
      assert FlexOffsetsFrom(els, convert, b)[0].index == i;
    }
  }

  /**
   * The flexible elements share the remaining length equally, each keeps its own
   * child's cross length, and a static element keeps the size its child asks for.
   */
  lemma MeasurementSizes<C>(axis: Axis, els: seq<LayoutElement<C>>, childSizes: seq<CGSize>,
                            convert: real -> real, rect: CGRect, i: nat, j: nat)
    requires |childSizes| == |els| && i < |els| && j < |els|
    ensures var ms := Measurements(axis, els, childSizes, convert, rect);
            && (els[i].IsFlexibleLength() && els[j].IsFlexibleLength() ==> ms[i].size.Length() == ms[j].size.Length())
            && (els[i].IsFlexibleLength() ==> ms[i].size.CrossLength() == Size(axis, childSizes[i]).CrossLength())
            && (!els[i].IsFlexibleLength() ==> ms[i].size == Size(axis, childSizes[i]))
            && ms[i].point == ConvertPoint(els[i].point, convert)
            && ms[i].size.axis == axis
  {
  }

  /** The stack's cross length: the largest cross length among `sizes` (the first largest, as `max(by:)` keeps), or `default` when there is none. */
  function MaxCrossLength(sizes: seq<Size>, default: real): (r: real)
    ensures sizes == [] ==> r == default
    ensures sizes != [] ==> exists k :: 0 <= k < |sizes| && r == sizes[k].CrossLength()
    ensures forall k :: 0 <= k < |sizes| ==> sizes[k].CrossLength() <= r
  {
    if |sizes| <= 1 then (if sizes == [] then default else sizes[0].CrossLength())
    else
      var m := MaxCrossLength(sizes[..|sizes| - 1], default);
      assert forall k :: 0 <= k < |sizes| - 1 ==> sizes[..|sizes| - 1][k] == sizes[k];
      if m < sizes[|sizes| - 1].CrossLength() then sizes[|sizes| - 1].CrossLength() else m
  }

  /** The sizes of a list of measurements. */
  function SizesOf(ms: seq<Measurement>): (r: seq<Size>)
    ensures |r| == |ms| && forall k :: 0 <= k < |ms| ==> r[k] == ms[k].size
  {
    seq(|ms|, k requires 0 <= k < |ms| => ms[k].size)
  }

  /**
   * `calculateSize(in:)` of a stack: the measured main-axis length and the largest
   * measured cross length, or the parent's cross length when the stack is empty.
   */
  function StackCalculateSize<C>(axis: Axis, els: seq<LayoutElement<C>>, childSizes: seq<CGSize>,
                                 convert: real -> real, rect: CGRect): (r: CGSize)
    requires |childSizes| == |els|
    ensures var ms := Measurements(axis, els, childSizes, convert, rect);
            && Size(axis, r).Length() == TotalLength(ms)
            && (els == [] ==> Size(axis, r).CrossLength() == Size(axis, rect.size).CrossLength())
            && (forall k :: 0 <= k < |els| ==> ms[k].size.CrossLength() <= Size(axis, r).CrossLength())
            && (els != [] ==> exists k :: 0 <= k < |els| && Size(axis, r).CrossLength() == ms[k].size.CrossLength())
  {
    var ms := Measurements(axis, els, childSizes, convert, rect);
    MakeSize(axis, TotalLength(ms), MaxCrossLength(SizesOf(ms), Size(axis, rect.size).CrossLength())).cgSize
  }

  /**
   * The walk of `layoutElements(in:)` over the measurements: `origin` is the stack's
   * origin read along `axis`, `crossLength` the parent's cross length, and `place(i, r)`
   * the `layout(in:)` of element `i` in the container `r`.
   */
  datatype Walk = Walk(axis: Axis, ms: seq<Measurement>, origin: Point, crossLength: real,
                       place: (nat, CGRect) -> Placement)
  {
    /**
     * How far the cursor has moved once the first `k` elements are placed: each
     * element's offset plus the length that element reported back.
     */
    function Advance(k: nat): real
      requires k <= |ms|
      decreases k, 0
    {
      if k == 0 then 0.0 else Advance(k - 1) + ms[k - 1].point.Offset() + PlacedSize(k - 1).Length()
    }

    /**
     * The container element `k` is laid out in: it starts its own offset past the
     * cursor, sits at its cross offset from the stack's origin, is as long as its
     * measurement and as long across as the parent.
     */
    function Container(k: nat): CGRect
      requires k < |ms|
      decreases k, 1
    {
      var p := MakePoint(axis, origin.Offset() + Advance(k) + ms[k].point.Offset(),
                         origin.CrossOffset() + ms[k].point.CrossOffset());
      CGRect(p.cgPoint, MakeSize(axis, ms[k].size.Length(), crossLength).cgSize)
    }

    function Placed(k: nat): Placement
      requires k < |ms|
      decreases k, 2
    {
      place(k, Container(k))
    }

    /** The size element `k` reports, read along the axis. */
    function PlacedSize(k: nat): Size
      requires k < |ms|
      decreases k, 3
    {
      Size(axis, Placed(k).rect.size)
    }

    /** The sizes of the first `k` placed elements, in order. */
    function PlacedSizes(k: nat): (r: seq<Size>)
      requires k <= |ms|
      ensures |r| == k && forall j :: 0 <= j < k ==> r[j] == PlacedSize(j)
    {
      seq(k, j requires 0 <= j < k => PlacedSize(j))
    }

    /** The leaf assignments of the first `k` placed elements, in order. */
    function Writes(k: nat): seq<Write>
      requires k <= |ms|
    {
      Flatten(seq(k, j requires 0 <= j < k => Placed(j).writes))
    }

    /** The size `layoutElements(in:)` returns: the cursor's whole advance, and the largest reported cross length. */
    function LayoutedSize(): (s: Size)
      ensures s.axis == axis && s.Length() == Advance(|ms|)
      ensures ms == [] ==> s.CrossLength() == crossLength
      ensures forall k :: 0 <= k < |ms| ==> PlacedSize(k).CrossLength() <= s.CrossLength()
      ensures ms != [] ==> exists k :: 0 <= k < |ms| && s.CrossLength() == PlacedSize(k).CrossLength()
    {
      MakeSize(axis, Advance(|ms|), MaxCrossLength(PlacedSizes(|ms|), crossLength))
    }
  }

  /** Children that report exactly the length of their container. */
  ghost predicate FillsContainers(w: Walk) {
    forall k :: 0 <= k < |w.ms| ==> w.PlacedSize(k).Length() == w.ms[k].size.Length()
  }

  /**
   * When every child reports its container's length, the cursor has advanced by
   * the measured length of the elements placed so far.
   */
  lemma {:induction false} FilledAdvance(w: Walk, k: nat)
    requires k <= |w.ms| && FillsContainers(w)
    ensures w.Advance(k) == TotalLength(w.ms[..k])
  {
    if k > 0 {
      FilledAdvance(w, k - 1);
      TotalLengthSnoc(w.ms[..k - 1], w.ms[k - 1]);
      assert w.ms[..k] == w.ms[..k - 1] + [w.ms[k - 1]];
    }
  }

  lemma {:induction false} TotalLengthSnoc(ms: seq<Measurement>, m: Measurement)
    ensures TotalLength(ms + [m]) == TotalLength(ms) + m.point.Offset() + m.size.Length()
  {
    if ms != [] {
      TotalLengthSnoc(ms[1..], m);
      assert (ms + [m])[1..] == ms[1..] + [m];
    }
  }

  /** If every child fills its container, `layout(in:)` and `calculateSize(in:)` agree along the main axis. */
  lemma FilledLayoutMatchesMeasuredLength(w: Walk)
    requires FillsContainers(w)
    ensures w.LayoutedSize().Length() == TotalLength(w.ms)
  {
    FilledAdvance(w, |w.ms|);
    assert w.ms[..|w.ms|] == w.ms;
  }

  /**
   * Element `k`'s container: along the axis it starts at the origin plus the
   * offsets and reported lengths of the elements before it plus its own offset;
   * across, at the origin plus its own cross offset whatever its siblings do; it
   * is as long as its measurement and as long across as the parent.
   */
  lemma ContainerGeometry(w: Walk, k: nat)
    requires k < |w.ms|
    ensures Point(w.axis, w.Container(k).origin).Offset() == w.origin.Offset() + w.Advance(k) + w.ms[k].point.Offset()
    ensures Point(w.axis, w.Container(k).origin).CrossOffset() == w.origin.CrossOffset() + w.ms[k].point.CrossOffset()
    ensures Size(w.axis, w.Container(k).size).Length() == w.ms[k].size.Length()
    ensures Size(w.axis, w.Container(k).size).CrossLength() == w.crossLength
  {
  }

  /** A cursor at element `k`'s offset and cross offset, with the container's size, is element `k`'s container. */
  lemma CursorContainer(w: Walk, k: nat, cursor: Point)
    requires k < |w.ms| && cursor.axis == w.axis
    requires cursor.Offset() == w.origin.Offset() + w.Advance(k) + w.ms[k].point.Offset()
    requires cursor.CrossOffset() == w.origin.CrossOffset() + w.ms[k].point.CrossOffset()
    ensures CGRect(cursor.cgPoint, MakeSize(w.axis, w.ms[k].size.Length(), w.crossLength).cgSize) == w.Container(k)
  {
    MakePointFromParts(cursor);
  }

  /**
   * One turn of the cursor loop: once element `k` is placed, moving the cursor by
   * the length it reported and appending its size and its writes keeps the cursor,
   * the sizes and the log in step with the walk.
   */
  lemma CursorStep(w: Walk, k: nat, cursor: Point, sizes: seq<Size>, writes: seq<Write>, placed: Placement)
    requires k < |w.ms| && cursor.axis == w.axis
    requires cursor.Offset() == w.origin.Offset() + w.Advance(k) + w.ms[k].point.Offset()
    requires sizes == w.PlacedSizes(k) && writes == w.Writes(k) && placed == w.Placed(k)
    ensures cursor.Offset() + Size(w.axis, placed.rect.size).Length() == w.origin.Offset() + w.Advance(k + 1)
    ensures sizes + [Size(w.axis, placed.rect.size)] == w.PlacedSizes(k + 1)
    ensures writes + placed.writes == w.Writes(k + 1)
  {
    WalkStep(w, k);
    WritesSnoc(w, k);
  }

  /** One more placed element: the cursor moves by its offset and reported length, and its size is appended. */
  lemma WalkStep(w: Walk, k: nat)
    requires k < |w.ms|
    ensures w.Advance(k + 1) == w.Advance(k) + w.ms[k].point.Offset() + w.PlacedSize(k).Length()
    ensures w.PlacedSizes(k + 1) == w.PlacedSizes(k) + [w.PlacedSize(k)]
  {
  }

  /** One more placed element appends its writes to the log. */
  lemma WritesSnoc(w: Walk, k: nat)
    requires k < |w.ms|
    ensures w.Writes(k + 1) == w.Writes(k) + w.Placed(k).writes
  {
    var logs := seq(k + 1, j requires 0 <= j < k + 1 => w.Placed(j).writes);
    assert logs[..k] == seq(k, j requires 0 <= j < k => w.Placed(j).writes);
  }
}

/** StackLayout.swift, the layout value: its elements, how they are appended, and its two operations. */
module StackLayouts {
  import opened Wrappers
  import opened CoreGraphics
  import opened AxisPoint
  import opened AxisSize
  import opened Alignments
  import opened LayoutProtocol
  import opened StackAlgorithm
  import opened Layouts
  import opened SizeLayouts

  /** The element `append(_:offset:crossOffset:flexible:)` adds. */
  function PlainElement(axis: Axis, child: Node, offset: real, crossOffset: real, flexible: Flexible): LayoutElement<Node> {
    LayoutElement(child, MakePoint(axis, offset, crossOffset), flexible)
  }

  /** The element `append(_:length:offset:crossOffset:flexible:)` adds: the child in a size layout of that length and no cross length. */
  function LengthElement(axis: Axis, child: Node, length: real, offset: real, crossOffset: real,
                         flexible: Flexible): LayoutElement<Node> {
    LayoutElement(SizeWithSize(child, MakeSize(axis, length, 0.0), NoAlignment), MakePoint(axis, offset, crossOffset), flexible)
  }

  /** `StackLayout` */
  class StackLayout {
    const axis: Axis
    var convertOffset: Option<real -> real>
    var elements: seq<LayoutElement<Node>>

    /** `init(axis:)` */
    constructor(axis: Axis)
      ensures this.axis == axis && convertOffset == None && elements == []
    {
      this.axis := axis;
      convertOffset := None;
      elements := [];
    }

    /** `init(axis:make:)`: each factory the builder made is applied to the axis, in order. */
    constructor FromBuilder(axis: Axis, make: seq<Axis -> LayoutElement<Node>>)
      ensures this.axis == axis && convertOffset == None
      ensures |elements| == |make| && forall i :: 0 <= i < |make| ==> elements[i] == make[i](axis)
    {
      this.axis := axis;
      convertOffset := None;
      elements := seq(|make|, i requires 0 <= i < |make| => make[i](axis));
    }

    /** The stack as a node of the layout tree. */
    function AsNode(): (n: Node)
      reads this
      ensures n.StackNode? && n.axis == axis && n.elements == elements && n.convertOffset == convertOffset
    {
      StackNode(axis, elements, convertOffset)
    }

    /** `append(_:offset:crossOffset:flexible:)`: one element more at the end, the others unchanged. */
    method Append(child: Node, offset: real, crossOffset: real, flexible: Flexible)
      modifies this
      ensures elements == old(elements) + [PlainElement(axis, child, offset, crossOffset, flexible)]
      ensures convertOffset == old(convertOffset)
    {
      var point := MakePoint(axis, offset, crossOffset);
      elements := elements + [LayoutElement(child, point, flexible)];
    }

    /** `append(_:length:offset:crossOffset:flexible:)`: one element more at the end, the others unchanged. */
    method AppendWithLength(child: Node, length: real, offset: real, crossOffset: real, flexible: Flexible)
      modifies this
      ensures elements == old(elements) + [LengthElement(axis, child, length, offset, crossOffset, flexible)]
      ensures convertOffset == old(convertOffset)
    {
      var sized := SizeWithSize(child, MakeSize(axis, length, 0.0), NoAlignment);
      var point := MakePoint(axis, offset, crossOffset);
      elements := elements + [LayoutElement(sized, point, flexible)];
    }

    /** `layout(in:)`: the stack's placement in `rect`; the elements themselves are left as they were. */
    method Layout(rect: CGRect) returns (p: Placement)
      ensures p == Place(AsNode(), rect)
      ensures p.rect.origin == rect.origin
    {
      p := LayoutStack(axis, elements, convertOffset, rect);
    }
  }

  /**
   * `calculateSize(in:)` of a stack: the measured length, which is the whole
   * parent's length as soon as one element is flexible, and the largest measured
   * cross length (the parent's when empty).
   */
  lemma StackMeasure(n: Node, rect: CGRect)
    requires n.StackNode?
    ensures var ms := Measurements(n.axis, n.elements, ChildSizes(n, rect), Converter(n.convertOffset), rect);
            var r := Size(n.axis, Measure(n, rect));
            && r.Length() == TotalLength(ms)
            && ((exists i :: 0 <= i < |n.elements| && n.elements[i].IsFlexibleLength()) ==> r.Length() == Size(n.axis, rect.size).Length())
            && (n.elements == [] ==> r.CrossLength() == Size(n.axis, rect.size).CrossLength())
            && (forall k :: 0 <= k < |n.elements| ==> ms[k].size.CrossLength() <= r.CrossLength())
  {
    var ms := Measurements(n.axis, n.elements, ChildSizes(n, rect), Converter(n.convertOffset), rect);
    if exists i :: 0 <= i < |n.elements| && n.elements[i].IsFlexibleLength() {
      FlexibleElementsFillParent(n.axis, n.elements, ChildSizes(n, rect), Converter(n.convertOffset), rect);
    }
  }

  /** A node whose `layout(in:)` returns the rectangle it was given. */
  predicate ReturnsItsRect(n: Node) {
    n.ElementLeaf? || n.SizedElementLeaf? || (n.BlockNode? && (n.child.ElementLeaf? || n.child.SizedElementLeaf?))
  }

  /**
   * A stack of leaves returns a rectangle as long as `calculateSize(in:)` says,
   * since every leaf reports back the container it was given.
   */
  lemma LeafStackLayoutMatchesMeasure(n: Node, rect: CGRect)
    requires n.StackNode? && forall i :: 0 <= i < |n.elements| ==> ReturnsItsRect(n.elements[i].child)
    ensures Size(n.axis, Place(n, rect).rect.size).Length() == Size(n.axis, Measure(n, rect)).Length()
  {
    var w := StackWalk(n, rect);
    forall k | 0 <= k < |w.ms|
      ensures w.PlacedSize(k).Length() == w.ms[k].size.Length()
    {
      StackWalkPlaces(n, rect, k);
      ContainerGeometry(w, k);
    }
    FilledLayoutMatchesMeasuredLength(w);
    StackPlacement(n, rect);
    MakeSizeFromParts(w.LayoutedSize());
  }
}
