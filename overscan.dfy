/** The built-in overscan plugin: widens the visible range by a fixed margin on both edges. */
module Overscan {
  import opened Wrappers
  import opened Types
  import opened JsMath
  import opened Plugins

  const DefaultOverscan: int := 4

  datatype OverscanPlugin = OverscanPlugin(overscan: int := DefaultOverscan) {

    const name: string := "overscan"

    /**
     * Each edge moves out by `overscan`, stopping at the first and the last
     * item; the result contains the input whenever the input lies in the list.
     */
    function OnRangeCalculated(visibleRange: Range, count: int): (r: Range)
      ensures r.startIndex >= 0 && r.endIndex <= count - 1
      ensures r.startIndex == visibleRange.startIndex - overscan || (r.startIndex == 0 && visibleRange.startIndex - overscan < 0)
      ensures r.endIndex == visibleRange.endIndex + overscan || (r.endIndex == count - 1 && visibleRange.endIndex + overscan > count - 1)
      ensures overscan >= 0 && 0 <= visibleRange.startIndex && visibleRange.endIndex <= count - 1 ==>
                r.startIndex <= visibleRange.startIndex && visibleRange.endIndex <= r.endIndex
    {
      var renderStartIndex := Max(0, visibleRange.startIndex - overscan);
      var renderEndIndex := Min(count - 1, visibleRange.endIndex + overscan);
      Range(renderStartIndex, renderEndIndex)
    }

    /** The plugin as the virtualizer sees it: a name and only an `onRangeCalculated` hook. */
    function AsPlugin(): (p: Plugin)
      ensures p.name == "overscan"
      ensures !p.onInit && !p.afterStateChange && !p.onDestroy && p.beforeStateChange.None?
      ensures p.onRangeCalculated.Some?
      ensures forall r, c :: p.onRangeCalculated.value(r, c) == OnRangeCalculated(r, c)
    {
      Plugin(name, false, None, false, Some((r: Range, c: int) => OnRangeCalculated(r, c)), false)
    }
  }

  /** The overscan plugin's test scenarios. */
  lemma OverscanScenarios()
    ensures OverscanPlugin().OnRangeCalculated(Range(10, 20), 100) == Range(6, 24)
    ensures OverscanPlugin(2).OnRangeCalculated(Range(10, 20), 100) == Range(8, 22)
    ensures OverscanPlugin(5).OnRangeCalculated(Range(2, 10), 100) == Range(0, 15)
    ensures OverscanPlugin(5).OnRangeCalculated(Range(90, 98), 100) == Range(85, 99)
    ensures OverscanPlugin().name == "overscan"
  {
  }
}
