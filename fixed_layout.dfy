/** The fixed-size layout strategy: every item has the same extent. */
module FixedLayout {
  import opened Types
  import opened JsMath
  import opened Clamping

  /** Item sizes are positive; the strategy divides by them. */
  type ItemSize = s: real | s > 0.0 witness 1.0

  datatype FixedLayoutStrategy = FixedLayoutStrategy(itemSize: ItemSize) {

    function GetItemOffset(index: int): real
    {
      index as real * itemSize
    }

    function GetItemSize(index: int): real
    {
      itemSize
    }

    function GetTotalSize(count: int): real
    {
      count as real * itemSize
    }

    /** Whether item `i` overlaps the window [scrollOffset, scrollOffset + viewportSize). */
    ghost predicate Intersects(i: int, scrollOffset: real, viewportSize: real)
    {
      GetItemOffset(i) < scrollOffset + viewportSize && scrollOffset < GetItemOffset(i) + GetItemSize(i)
    }

    /**
     * The first visible index is the item under the scroll offset, clamped to
     * the list; the last one lies a viewport's worth of items further on.
     */
    function GetVisibleRange(scrollOffset: real, viewportSize: real, count: int): (r: Range)
      ensures r.endIndex <= count - 1
      ensures count >= 1 ==> 0 <= r.startIndex <= count - 1
      ensures count >= 1 && viewportSize >= 0.0 ==> r.startIndex <= r.endIndex
      ensures r.endIndex == Min(count - 1, r.startIndex + Ceil(viewportSize / itemSize))
    {
      var startIndex := Clamp(0.0, Floor(scrollOffset / itemSize) as real, (count - 1) as real).Floor;
      var visibleCount := Ceil(viewportSize / itemSize);
      var endIndex := Min(count - 1, startIndex + visibleCount);
      Range(startIndex, endIndex)
    }

    /** The strategy as the table of operations the virtualizer consumes. */
    function AsLayoutStrategy(): (l: LayoutStrategy)
      ensures forall i :: l.getItemOffset(i) == GetItemOffset(i) && l.getItemSize(i) == GetItemSize(i)
      ensures forall n :: l.getTotalSize(n) == GetTotalSize(n)
      ensures forall o, v, n :: l.getVisibleRange(o, v, n) == GetVisibleRange(o, v, n)
    {
      LayoutStrategy(
        i => GetItemOffset(i),
        i => GetItemSize(i),
        n => GetTotalSize(n),
        (o, v, n) => GetVisibleRange(o, v, n))
    }

    /** Sum of the sizes of items lo..hi-1. */
    function SizeSum(lo: int, hi: int): real
      decreases hi - lo
    {
      if hi <= lo then 0.0 else SizeSum(lo, hi - 1) + GetItemSize(hi - 1)
    }

    /** Each item ends where the next one starts. */
    lemma ItemsAreContiguous(i: int)
      ensures GetItemOffset(i) + GetItemSize(i) == GetItemOffset(i + 1)
    {
    }

    /** The distance between two item offsets is the sum of the sizes in between. */
    lemma {:induction false} OffsetIsSizeSum(lo: int, hi: int)
      requires lo <= hi
      ensures GetItemOffset(hi) - GetItemOffset(lo) == SizeSum(lo, hi)
      decreases hi - lo
    {
      if lo < hi {
        OffsetIsSizeSum(lo, hi - 1);
        ItemsAreContiguous(hi - 1);
      }
    }

    /** The total size of `count` items is the extent of all of them, ending where the last ends. */
    lemma TotalSizeIsSumOfSizes(count: nat)
      ensures GetTotalSize(count) == SizeSum(0, count)
      ensures count >= 1 ==> GetTotalSize(count) == GetItemOffset(count - 1) + GetItemSize(count - 1)
    {
      OffsetIsSizeSum(0, count);
    }

    /** Inside the content, the first visible item is the one under the scroll offset. */
    lemma StartIsItemUnderOffset(scrollOffset: real, viewportSize: real, count: int)
      requires count >= 1 && 0.0 <= scrollOffset < GetTotalSize(count)
      ensures var start := GetVisibleRange(scrollOffset, viewportSize, count).startIndex;
              GetItemOffset(start) <= scrollOffset < GetItemOffset(start) + GetItemSize(start)
    {
      var a := scrollOffset / itemSize;
      ScaleLt(scrollOffset, count as real, itemSize);
      var f := Floor(a);
      assert 0 <= f <= count - 1;
      assert GetVisibleRange(scrollOffset, viewportSize, count).startIndex == f;
      ScaleLe(f as real, scrollOffset, itemSize);
      ScaleLt(scrollOffset, f as real + 1.0, itemSize);
    }

    /**
     * Outside the content the start is pinned to the nearer end of the list:
     * the first item before it, the last item past it.
     */
    lemma StartOutsideContent(scrollOffset: real, viewportSize: real, count: int)
      requires count >= 1
      ensures scrollOffset < 0.0 ==> GetVisibleRange(scrollOffset, viewportSize, count).startIndex == 0
      ensures scrollOffset >= GetTotalSize(count) ==>
                GetVisibleRange(scrollOffset, viewportSize, count).startIndex == count - 1
    {
      var a := scrollOffset / itemSize;
      if scrollOffset < 0.0 {
        ScaleLt(scrollOffset, 0.0, itemSize);
        assert Floor(0.0) == 0;
      }
      if scrollOffset >= GetTotalSize(count) {
        ScaleLe(count as real, scrollOffset, itemSize);
        assert Floor((count - 1) as real) == count - 1;
      }
    }

    /**
     * The visible range is tight at its end: inside the content, every item
     * after the visible end starts beyond the viewport, so none of them
     * overlaps it.
     */
    lemma ItemsPastTheEndLieBeyondViewport(scrollOffset: real, viewportSize: real, count: int, i: int)
      requires count >= 1 && 0.0 <= scrollOffset < GetTotalSize(count) && viewportSize >= 0.0
      requires GetVisibleRange(scrollOffset, viewportSize, count).endIndex < i < count
      ensures GetItemOffset(i) > scrollOffset + viewportSize
      ensures !Intersects(i, scrollOffset, viewportSize)
    {
      var a := scrollOffset / itemSize;
      var c := Ceil(viewportSize / itemSize);
      ScaleLt(scrollOffset, count as real, itemSize);
      var f := Floor(a);
      assert GetVisibleRange(scrollOffset, viewportSize, count).startIndex == f;
      assert i >= f + c + 1;
      assert (f + 1) as real * itemSize > scrollOffset by {
        ScaleLt(scrollOffset, f as real + 1.0, itemSize);
      }
      assert c as real * itemSize >= viewportSize by {
        ScaleLt(viewportSize, c as real, itemSize);
      }
      assert (i - (f + c + 1)) as real * itemSize >= 0.0;
      assert GetItemOffset(i) == (f + 1) as real * itemSize + c as real * itemSize + (i - (f + c + 1)) as real * itemSize;
    }

    /** The visible range covers every item of the list that overlaps the viewport. */
    lemma VisibleRangeCoversViewport(scrollOffset: real, viewportSize: real, count: int, i: int)
      requires 0 <= i < count
      requires Intersects(i, scrollOffset, viewportSize)
      ensures GetVisibleRange(scrollOffset, viewportSize, count).startIndex <= i
      ensures i <= GetVisibleRange(scrollOffset, viewportSize, count).endIndex
    {
      var a := scrollOffset / itemSize;
      var b := viewportSize / itemSize;
      assert i as real < a + b by {
        ScaleLt(scrollOffset + viewportSize, i as real, itemSize);
        assert (scrollOffset + viewportSize) / itemSize == a + b;
      }
      assert a < i as real + 1.0 by {
        ItemsAreContiguous(i);
        ScaleLt(scrollOffset, i as real + 1.0, itemSize);
      }
      IndexWithinQuotients(a, b, i, count);
      var r := GetVisibleRange(scrollOffset, viewportSize, count);
      assert r.startIndex == Clamp(0.0, Floor(a) as real, (count - 1) as real).Floor;
      assert r.endIndex == Min(count - 1, r.startIndex + Ceil(b));
    }
  }

  /** The index arithmetic behind VisibleRangeCoversViewport, in units of items. */
  lemma IndexWithinQuotients(a: real, b: real, i: int, count: int)
    requires 0 <= i < count
    requires a < i as real + 1.0 && i as real < a + b
    ensures var start := Clamp(0.0, Floor(a) as real, (count - 1) as real).Floor;
            start <= i <= Min(count - 1, start + Ceil(b))
  {
    var f := Floor(a);
    assert f <= i;
    assert i <= f + Ceil(b);
  }
}
