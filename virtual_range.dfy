/** The stateless range calculator with direction-aware overscan. */
module VirtualRange {
  import opened Wrappers
  import opened JsMath

  datatype VirtualRange = VirtualRange(startIndex: int, endIndex: int, renderStart: int, renderEnd: int)

  /** The factor applied to the overscan on the edge the viewport moves toward. */
  const DirectionalBoost: real := 1.5

  function CalculateVirtualRange(
    scrollOffset: real, viewportSize: real, itemSize: real, totalCount: int,
    overscan: real, prevScrollOffset: Option<real>): (r: VirtualRange)
    requires itemSize > 0.0
    ensures r.startIndex == Max(0, Floor(scrollOffset / itemSize))
    ensures r.endIndex == Min(totalCount - 1, r.startIndex + Ceil(viewportSize / itemSize))
    ensures 0 <= r.renderStart && r.renderEnd <= totalCount - 1
    ensures overscan >= 0.0 ==> r.renderStart <= r.startIndex && r.endIndex <= r.renderEnd
  {
    var startIndex := Max(0, Trunc(scrollOffset / itemSize));
    MaxZeroTruncIsMaxZeroFloor(scrollOffset / itemSize);
    var endIndex := Min(totalCount - 1, startIndex + Ceil(viewportSize / itemSize));
    var isScrollingUp := prevScrollOffset.Some? && scrollOffset < prevScrollOffset.value;
    var isScrollingDown := prevScrollOffset.Some? && scrollOffset > prevScrollOffset.value;
    var overscanStart := if isScrollingUp then overscan * DirectionalBoost else overscan;
    var overscanEnd := if isScrollingDown then overscan * DirectionalBoost else overscan;
    var renderStart := Max(0, Trunc(startIndex as real - overscanStart));
    var renderEnd := Min(totalCount - 1, Ceil(endIndex as real + overscanEnd));
    VirtualRange(startIndex, endIndex, renderStart, renderEnd)
  }

  /** The render range without any directional bias: `overscan` on both edges. */
  function Symmetric(r: VirtualRange, totalCount: int, overscan: real): (s: VirtualRange)
  {
    r.(renderStart := Max(0, Trunc(r.startIndex as real - overscan)),
       renderEnd := Min(totalCount - 1, Ceil(r.endIndex as real + overscan)))
  }

  /** With no previous offset, or an unchanged one, both edges get the base overscan. */
  lemma NoDirectionIsSymmetric(
    scrollOffset: real, viewportSize: real, itemSize: real, totalCount: int,
    overscan: real, prevScrollOffset: Option<real>)
    requires itemSize > 0.0
    requires prevScrollOffset.None? || prevScrollOffset.value == scrollOffset
    ensures var r := CalculateVirtualRange(scrollOffset, viewportSize, itemSize, totalCount, overscan, prevScrollOffset);
            r == Symmetric(r, totalCount, overscan)
  {
  }

  /**
   * Scrolling down boosts the end edge only: the start edge is the undirected
   * one, the end edge reaches at least as far, and for a whole overscan of at
   * least one it reaches strictly further unless the undirected end is already
   * the last item.
   */
  lemma ScrollingDownBoostsEndEdge(
    scrollOffset: real, viewportSize: real, itemSize: real, totalCount: int,
    overscan: real, prevScrollOffset: real)
    requires itemSize > 0.0 && overscan >= 0.0
    requires prevScrollOffset < scrollOffset
    ensures var down := CalculateVirtualRange(scrollOffset, viewportSize, itemSize, totalCount, overscan, Some(prevScrollOffset));
            var flat := CalculateVirtualRange(scrollOffset, viewportSize, itemSize, totalCount, overscan, None);
            && down.startIndex == flat.startIndex && down.endIndex == flat.endIndex
            && down.renderStart == flat.renderStart
            && down.renderEnd >= flat.renderEnd
            && (overscan >= 1.0 && Floor(overscan) as real == overscan && flat.renderEnd < totalCount - 1 ==>
                  down.renderEnd > flat.renderEnd)
  {
    var down := CalculateVirtualRange(scrollOffset, viewportSize, itemSize, totalCount, overscan, Some(prevScrollOffset));
    var flat := CalculateVirtualRange(scrollOffset, viewportSize, itemSize, totalCount, overscan, None);
    var e := flat.endIndex;
    assert down.endIndex == e;
    assert down.renderEnd == Min(totalCount - 1, Ceil(e as real + overscan * DirectionalBoost));
    assert flat.renderEnd == Min(totalCount - 1, Ceil(e as real + overscan));
    EndEdgeGrowsWithBoost(e, overscan, totalCount);
  }

  /** The boosted end edge, in index arithmetic: never nearer, and strictly further for a whole overscan. */
  lemma EndEdgeGrowsWithBoost(e: int, overscan: real, totalCount: int)
    requires overscan >= 0.0
    ensures Min(totalCount - 1, Ceil(e as real + overscan * DirectionalBoost))
            >= Min(totalCount - 1, Ceil(e as real + overscan))
    ensures overscan >= 1.0 && Floor(overscan) as real == overscan
            && Min(totalCount - 1, Ceil(e as real + overscan)) < totalCount - 1 ==>
              Min(totalCount - 1, Ceil(e as real + overscan * DirectionalBoost))
              > Min(totalCount - 1, Ceil(e as real + overscan))
  {
    CeilShift(e, overscan);
    CeilShift(e, overscan * DirectionalBoost);
  }

  /** Scrolling up boosts the start edge only; the mirror image of ScrollingDownBoostsEndEdge. */
  lemma ScrollingUpBoostsStartEdge(
    scrollOffset: real, viewportSize: real, itemSize: real, totalCount: int,
    overscan: real, prevScrollOffset: real)
    requires itemSize > 0.0 && overscan >= 0.0
    requires scrollOffset < prevScrollOffset
    ensures var up := CalculateVirtualRange(scrollOffset, viewportSize, itemSize, totalCount, overscan, Some(prevScrollOffset));
            var flat := CalculateVirtualRange(scrollOffset, viewportSize, itemSize, totalCount, overscan, None);
            && up.startIndex == flat.startIndex && up.endIndex == flat.endIndex
            && up.renderEnd == flat.renderEnd
            && up.renderStart <= flat.renderStart
            && (overscan >= 1.0 && Floor(overscan) as real == overscan && flat.renderStart > 0 ==>
                  up.renderStart < flat.renderStart)
  {
    var up := CalculateVirtualRange(scrollOffset, viewportSize, itemSize, totalCount, overscan, Some(prevScrollOffset));
    var flat := CalculateVirtualRange(scrollOffset, viewportSize, itemSize, totalCount, overscan, None);
    var st := flat.startIndex;
    assert up.startIndex == st;
    assert up.renderStart == Max(0, Trunc(st as real - overscan * DirectionalBoost));
    assert flat.renderStart == Max(0, Trunc(st as real - overscan));
    StartEdgeGrowsWithBoost(st, overscan);
  }

  /** The boosted start edge, in index arithmetic: never later, and strictly earlier for a whole overscan. */
  lemma StartEdgeGrowsWithBoost(st: int, overscan: real)
    requires overscan >= 0.0
    ensures Max(0, Trunc(st as real - overscan * DirectionalBoost)) <= Max(0, Trunc(st as real - overscan))
    ensures overscan >= 1.0 && Floor(overscan) as real == overscan && Max(0, Trunc(st as real - overscan)) > 0 ==>
              Max(0, Trunc(st as real - overscan * DirectionalBoost)) < Max(0, Trunc(st as real - overscan))
  {
  }

  /** Moving down, the end edge is the one an undirected overscan 1.5 times as large gives. */
  lemma ScrollingDownUsesBoostedOverscan(
    scrollOffset: real, viewportSize: real, itemSize: real, totalCount: int,
    overscan: real, prevScrollOffset: real)
    requires itemSize > 0.0
    requires prevScrollOffset < scrollOffset
    ensures CalculateVirtualRange(scrollOffset, viewportSize, itemSize, totalCount, overscan, Some(prevScrollOffset)).renderEnd
            == CalculateVirtualRange(scrollOffset, viewportSize, itemSize, totalCount, 1.5 * overscan, None).renderEnd
  {
    var down := CalculateVirtualRange(scrollOffset, viewportSize, itemSize, totalCount, overscan, Some(prevScrollOffset));
    var boosted := CalculateVirtualRange(scrollOffset, viewportSize, itemSize, totalCount, 1.5 * overscan, None);
    assert down.endIndex == boosted.endIndex;
  }

  /** Moving up, the start edge is the one an undirected overscan 1.5 times as large gives. */
  lemma ScrollingUpUsesBoostedOverscan(
    scrollOffset: real, viewportSize: real, itemSize: real, totalCount: int,
    overscan: real, prevScrollOffset: real)
    requires itemSize > 0.0
    requires scrollOffset < prevScrollOffset
    ensures CalculateVirtualRange(scrollOffset, viewportSize, itemSize, totalCount, overscan, Some(prevScrollOffset)).renderStart
            == CalculateVirtualRange(scrollOffset, viewportSize, itemSize, totalCount, 1.5 * overscan, None).renderStart
  {
    var up := CalculateVirtualRange(scrollOffset, viewportSize, itemSize, totalCount, overscan, Some(prevScrollOffset));
    var boosted := CalculateVirtualRange(scrollOffset, viewportSize, itemSize, totalCount, 1.5 * overscan, None);
    assert up.startIndex == boosted.startIndex;
  }

  /** With zero overscan the render range is exactly the visible range, whatever the direction. */
  lemma ZeroOverscanRendersVisible(
    scrollOffset: real, viewportSize: real, itemSize: real, totalCount: int, prevScrollOffset: Option<real>)
    requires itemSize > 0.0
    ensures var r := CalculateVirtualRange(scrollOffset, viewportSize, itemSize, totalCount, 0.0, prevScrollOffset);
            r.renderStart == r.startIndex && r.renderEnd == r.endIndex
  {
  }

  /**
   * An empty list has the empty range {0, -1} for both the visible and the
   * render range, as long as the offset lies within the first item.
   */
  lemma EmptyList(
    scrollOffset: real, viewportSize: real, itemSize: real, overscan: real, prevScrollOffset: Option<real>)
    requires itemSize > 0.0 && viewportSize >= 0.0 && overscan >= 0.0
    requires scrollOffset < itemSize
    ensures CalculateVirtualRange(scrollOffset, viewportSize, itemSize, 0, overscan, prevScrollOffset)
            == VirtualRange(0, -1, 0, -1)
  {
    ScaleLt(scrollOffset, 1.0, itemSize);
  }

  /** A single item is the whole visible and render range while the offset lies within it. */
  lemma SingleItem(
    scrollOffset: real, viewportSize: real, itemSize: real, overscan: real, prevScrollOffset: Option<real>)
    requires itemSize > 0.0 && viewportSize >= 0.0 && overscan >= 0.0
    requires scrollOffset < itemSize
    ensures CalculateVirtualRange(scrollOffset, viewportSize, itemSize, 1, overscan, prevScrollOffset)
            == VirtualRange(0, 0, 0, 0)
  {
    ScaleLt(scrollOffset, 1.0, itemSize);
  }

  /**
   * The start index is not clamped from above: an offset past the content
   * gives a start index beyond the last item, above the end index.
   */
  lemma StartIndexHasNoUpperClamp(
    scrollOffset: real, viewportSize: real, itemSize: real, totalCount: int,
    overscan: real, prevScrollOffset: Option<real>)
    requires itemSize > 0.0
    requires scrollOffset >= totalCount as real * itemSize && totalCount >= 0
    ensures var r := CalculateVirtualRange(scrollOffset, viewportSize, itemSize, totalCount, overscan, prevScrollOffset);
            r.startIndex >= totalCount && r.endIndex < r.startIndex
  {
    ScaleLe(totalCount as real, scrollOffset, itemSize);
  }

  /**
   * Every case of the range calculator's test suite, with its assertions.
   * Unless a case says otherwise: viewport 400, item size 50, 100 items, overscan 2.
   */
  lemma RangeScenarios()
    // initial, middle and end scroll positions
    ensures var r := CalculateVirtualRange(0.0, 400.0, 50.0, 100, 2.0, None);
            r.startIndex == 0 && r.endIndex == 8 && r.renderStart == 0 && r.renderEnd >= 8
    ensures var r := CalculateVirtualRange(500.0, 400.0, 50.0, 100, 2.0, None);
            r.startIndex == 10 && r.endIndex == 18 && r.renderStart <= 10 && r.renderEnd >= 18
    ensures var r := CalculateVirtualRange(4500.0, 400.0, 50.0, 100, 2.0, None);
            r.startIndex == 90 && r.endIndex == 98 && r.renderStart <= 90 && r.renderEnd == 99
    // scrolling down from 400 to 500, and up from 500 to 400
    ensures var r := CalculateVirtualRange(500.0, 400.0, 50.0, 100, 2.0, Some(400.0));
            r.renderEnd > r.endIndex
    ensures var r := CalculateVirtualRange(400.0, 400.0, 50.0, 100, 2.0, Some(500.0));
            r.renderStart < r.startIndex
    // clamping at either end
    ensures var r := CalculateVirtualRange(-100.0, 400.0, 50.0, 100, 2.0, None);
            r.startIndex == 0 && r.renderStart == 0
    ensures var r := CalculateVirtualRange(10000.0, 400.0, 50.0, 100, 2.0, None);
            r.endIndex == 99 && r.renderEnd == 99
    // empty list and single item
    ensures CalculateVirtualRange(0.0, 400.0, 50.0, 0, 2.0, None) == VirtualRange(0, -1, 0, -1)
    ensures CalculateVirtualRange(0.0, 400.0, 50.0, 1, 2.0, None) == VirtualRange(0, 0, 0, 0)
    // small viewport (50) and large item size (200, 10 items)
    ensures var r := CalculateVirtualRange(0.0, 50.0, 50.0, 100, 2.0, None);
            r.startIndex == 0 && r.endIndex == 1 && r.renderStart == 0 && r.renderEnd >= 1
    ensures var r := CalculateVirtualRange(0.0, 400.0, 200.0, 10, 2.0, None);
            r.startIndex == 0 && r.endIndex == 2 && r.renderStart == 0 && r.renderEnd <= 9
    // zero and large (10) overscan at offset 500
    ensures var r := CalculateVirtualRange(500.0, 400.0, 50.0, 100, 0.0, None);
            r.renderStart == r.startIndex && r.renderEnd == r.endIndex
    ensures var r := CalculateVirtualRange(500.0, 400.0, 50.0, 100, 10.0, None);
            r.renderStart < r.startIndex && r.renderEnd > r.endIndex
    // fractional scroll offset (123.45) and fractional item size (33.33)
    ensures var r := CalculateVirtualRange(123.45, 400.0, 50.0, 100, 2.0, None);
            r.startIndex == 2 && r.endIndex >= 2
    ensures var r := CalculateVirtualRange(0.0, 400.0, 33.33, 100, 2.0, None);
            r.startIndex == 0 && r.endIndex >= 0 && r.renderStart == 0
  {
  }
}
