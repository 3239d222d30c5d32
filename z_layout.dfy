/** ZLayout.swift, the size computation: the largest child size by area. */
module ZLayoutSizing {
  import opened CoreGraphics

  /** `CGSize.square`: width times height. */
  function Area(s: CGSize): real {
    s.width * s.height
  }

  /**
   * The index `max(by:)` ends on when scanning `sizes[..n]`: it moves to a later
   * element only when that one's area is strictly larger, so the first of the
   * largest is kept.
   */
  function LargestIndex(sizes: seq<CGSize>, n: nat): (k: nat)
    requires 0 < n <= |sizes|
    ensures k < n
    ensures forall j :: 0 <= j < n ==> Area(sizes[j]) <= Area(sizes[k])
    ensures forall j :: 0 <= j < k ==> Area(sizes[j]) < Area(sizes[k])
  {
    if n == 1 then 0
    else
      var k := LargestIndex(sizes, n - 1);
      if Area(sizes[k]) < Area(sizes[n - 1]) then n - 1 else k
  }

  /** `calculateSize(in:)`: the children's sizes' largest by area, or `default` (the parent's size) when there are none. */
  function LargestByArea(sizes: seq<CGSize>, default: CGSize): (r: CGSize)
    ensures sizes == [] ==> r == default
    ensures sizes != [] ==> exists k :: 0 <= k < |sizes| && r == sizes[k]
                                        && (forall j :: 0 <= j < |sizes| ==> Area(sizes[j]) <= Area(r))
                                        && (forall j :: 0 <= j < k ==> Area(sizes[j]) < Area(r))
  {
    if sizes == [] then default else sizes[LargestIndex(sizes, |sizes|)]
  }

  /** On a tie in area the earlier size is the result. */
  lemma TieKeepsFirst(a: CGSize, b: CGSize, default: CGSize)
    requires Area(a) == Area(b)
    ensures LargestByArea([a, b], default) == a
  {
    assert LargestIndex([a, b], 2) == 0;
  }
}

/** ZLayout.swift, the layout. */
module ZLayouts {
  import opened CoreGraphics
  import opened LayoutProtocol
  import opened ZLayoutSizing
  import opened Layouts

  /** `init(children:)` */
  function ZStack(children: seq<Node>): Node {
    ZNode(children)
  }

  /**
   * `layout(in:)`: every child is laid out in the same, unchanged rectangle, in
   * order, so the log is the children's logs one after another; the result sits at
   * the parent's origin with the layout's own size.
   */
  lemma ZLayoutPlacement(children: seq<Node>, rect: CGRect)
    ensures var p := Place(ZStack(children), rect);
            && p.writes == Flatten(seq(|children|, i requires 0 <= i < |children| => Place(children[i], rect).writes))
            && p.rect == CGRect(rect.origin, Measure(ZStack(children), rect))
  {
  }

  /** `calculateSize(in:)`: one of the children's sizes, of largest area and the first such, or the parent's size without children. */
  lemma ZLayoutSize(children: seq<Node>, rect: CGRect)
    ensures var r := Measure(ZStack(children), rect);
            && (children == [] ==> r == rect.size)
            && (children != [] ==> exists k :: 0 <= k < |children| && r == Measure(children[k], rect)
                                     && (forall j :: 0 <= j < |children| ==> Area(Measure(children[j], rect)) <= Area(r))
                                     && (forall j :: 0 <= j < k ==> Area(Measure(children[j], rect)) < Area(r)))
  {
    var sizes := seq(|children|, i requires 0 <= i < |children| => Measure(children[i], rect));
    assert Measure(ZStack(children), rect) == LargestByArea(sizes, rect.size);
    if children != [] {
      var k := LargestIndex(sizes, |sizes|);
      assert sizes[k] == Measure(children[k], rect);
      assert forall j :: 0 <= j < |children| ==> sizes[j] == Measure(children[j], rect);
    }
  }
}
