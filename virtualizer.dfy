/**
 * The orchestrator: reads the scroll source, asks the layout strategy for the
 * visible range, widens it by the overscan, lets plugins replace it, builds
 * (or reuses) the item list, and publishes the state through the hooks.
 */
module Virtualizer {
  import opened Wrappers
  import opened Types
  import opened JsMath
  import opened Plugins
  import opened ScrollSource
  import Overscan
  import FixedLayout

  const DefaultOverscan: real := 4.0

  /** Construction options; `onChange` says whether a change callback was given. */
  datatype VirtualizerOptions = VirtualizerOptions(count: int, overscan: Option<real>, onChange: bool)

  /**
   * The render range before plugins: the visible range widened by `overscan`
   * on each edge (truncated toward zero) and clamped to the list.
   */
  function DefaultRenderRange(visible: Range, overscan: real, count: int): (r: Range)
    ensures r.startIndex >= 0 && r.endIndex <= count - 1
    ensures overscan >= 0.0 && 0 <= visible.startIndex && visible.endIndex <= count - 1 ==>
              r.startIndex <= visible.startIndex && visible.endIndex <= r.endIndex
  {
    Range(Max(0, Trunc(visible.startIndex as real - overscan)),
          Min(count - 1, Trunc(visible.endIndex as real + overscan)))
  }

  /** For a whole overscan, the built-in widening is the one the overscan plugin performs. */
  lemma DefaultRenderRangeIsOverscanPlugin(visible: Range, overscan: int, count: int)
    ensures DefaultRenderRange(visible, overscan as real, count)
            == Overscan.OverscanPlugin(overscan).OnRangeCalculated(visible, count)
  {
  }

  /** The render range: the default widening, then the `onRangeCalculated` plugins (last wins). */
  function RenderRange(plugins: seq<Plugin>, visible: Range, overscan: real, count: int): Range
  {
    RangeAfterPlugins(plugins, visible, count, DefaultRenderRange(visible, overscan, count))
  }

  /** Without a range plugin the render range stays inside the list and contains a visible range that does. */
  lemma RenderRangeWithoutRangePlugins(plugins: seq<Plugin>, visible: Range, overscan: real, count: int)
    requires forall j :: 0 <= j < |plugins| ==> plugins[j].onRangeCalculated.None?
    ensures var r := RenderRange(plugins, visible, overscan, count);
            && 0 <= r.startIndex && r.endIndex <= count - 1
            && (overscan >= 0.0 && 0 <= visible.startIndex && visible.endIndex <= count - 1 ==>
                  r.startIndex <= visible.startIndex && visible.endIndex <= r.endIndex)
  {
    NoRangePluginKeepsInitial(plugins, visible, count, DefaultRenderRange(visible, overscan, count));
  }

  /** The item at index `i`, with the strategy's geometry. */
  function Item(layout: LayoutStrategy, i: int): VirtualItem
  {
    var start := layout.getItemOffset(i);
    var size := layout.getItemSize(i);
    VirtualItem(i, start, size, start + size)
  }

  /** The items of an inclusive range, in ascending index order. */
  function ItemsFor(layout: LayoutStrategy, range: Range): seq<VirtualItem>
  {
    seq(RangeLength(range), k requires 0 <= k < RangeLength(range) => Item(layout, range.startIndex + k))
  }

  /**
   * The item list holds exactly the indices of the range, strictly ascending,
   * each with the strategy's offset and size and `end == start + size`.
   */
  lemma ItemsForHoldsTheRange(layout: LayoutStrategy, range: Range)
    ensures var items := ItemsFor(layout, range);
            && |items| == RangeLength(range)
            && (forall k :: 0 <= k < |items| ==>
                  items[k].index == range.startIndex + k
                  && items[k].start == layout.getItemOffset(items[k].index)
                  && items[k].size == layout.getItemSize(items[k].index)
                  && items[k].end == items[k].start + items[k].size)
            && (forall j, k :: 0 <= j < k < |items| ==> items[j].index < items[k].index)
            && (forall k :: 0 <= k < |items| ==> range.startIndex <= items[k].index <= range.endIndex)
  {
    var items := ItemsFor(layout, range);
    assert forall k :: 0 <= k < |items| ==> items[k] == Item(layout, range.startIndex + k);
  }

  /** With no items in the list and no range plugin, the render range is empty and so is the item list. */
  lemma EmptyListHasNoItems(layout: LayoutStrategy, plugins: seq<Plugin>, visible: Range, overscan: real, count: int)
    requires count <= 0
    requires forall j :: 0 <= j < |plugins| ==> plugins[j].onRangeCalculated.None?
    ensures ItemsFor(layout, RenderRange(plugins, visible, overscan, count)) == []
  {
    RenderRangeWithoutRangePlugins(plugins, visible, overscan, count);
  }

  /** Under the fixed layout, consecutive items touch: each one ends where the next one starts. */
  lemma FixedLayoutItemsAreContiguous(strategy: FixedLayout.FixedLayoutStrategy, range: Range, k: int)
    requires 0 <= k && k + 1 < RangeLength(range)
    ensures var items := ItemsFor(strategy.AsLayoutStrategy(), range);
            items[k].end == items[k + 1].start
  {
    var layout := strategy.AsLayoutStrategy();
    var items := ItemsFor(layout, range);
    assert items[k] == Item(layout, range.startIndex + k);
    assert items[k + 1] == Item(layout, range.startIndex + k + 1);
    strategy.ItemsAreContiguous(range.startIndex + k);
  }

  /** Each step of the build loop appends the item for the next index. */
  lemma ItemsForStep(layout: LayoutStrategy, start: int, i: int)
    requires start <= i
    ensures ItemsFor(layout, Range(start, i)) == ItemsFor(layout, Range(start, i - 1)) + [Item(layout, i)]
  {
  }

  /** Builds a fresh item array for the range: one item per index, pushed in ascending order. */
  method BuildItems(layout: LayoutStrategy, range: Range) returns (items: array<VirtualItem>)
    ensures fresh(items)
    ensures items[..] == ItemsFor(layout, range)
  {
    var pushed: seq<VirtualItem> := [];
    var i := range.startIndex;
    while i <= range.endIndex
      invariant range.startIndex <= i <= Max(range.startIndex, range.endIndex + 1)
      invariant pushed == ItemsFor(layout, Range(range.startIndex, i - 1))
      decreases range.endIndex - i
    {
      ItemsForStep(layout, range.startIndex, i);
      pushed := pushed + [Item(layout, i)];
      i := i + 1;
    }
    assert Range(range.startIndex, i - 1) == range || RangeLength(range) == 0;
    items := new VirtualItem[|pushed|](k requires 0 <= k < |pushed| => pushed[k]);
  }

  /** The `onRangeCalculated` loop: each implementer overwrites the range, given the original visible range. */
  method ApplyRangePlugins(plugins: seq<Plugin>, visible: Range, count: int, initial: Range) returns (renderRange: Range)
    ensures renderRange == RangeAfterPlugins(plugins, visible, count, initial)
  {
    renderRange := initial;
    for k := 0 to |plugins|
      invariant renderRange == RangeAfterPlugins(plugins[..k], visible, count, initial)
    {
      assert plugins[..k + 1][..k] == plugins[..k];
      if plugins[k].onRangeCalculated.Some? {
        renderRange := plugins[k].onRangeCalculated.value(visible, count);
      }
    }
    assert plugins[..|plugins|] == plugins;
  }

  /** The `beforeStateChange` loop: each result, if there is one, becomes the working state. */
  method ApplyBeforeStateChange(plugins: seq<Plugin>, state: VirtualizerState) returns (finalState: VirtualizerState)
    ensures finalState == BeforeStateChangeChain(plugins, state)
  {
    finalState := state;
    for k := 0 to |plugins|
      invariant finalState == BeforeStateChangeChain(plugins[..k], state)
    {
      assert plugins[..k + 1][..k] == plugins[..k];
      if plugins[k].beforeStateChange.Some? {
        var result := plugins[k].beforeStateChange.value(finalState);
        if result.Some? {
          finalState := result.value;
        }
      }
    }
    assert plugins[..|plugins|] == plugins;
  }

  /** The `afterStateChange` loop: the calls made, in registration order, with the stored state. */
  method NotifyAfterStateChange(plugins: seq<Plugin>, state: VirtualizerState) returns (calls: seq<HookCall>)
    ensures calls == AfterStateChangeCalls(plugins, state)
  {
    calls := [];
    for k := 0 to |plugins|
      invariant calls == AfterStateChangeCalls(plugins[..k], state)
    {
      CallsOfPrefix(plugins, k, HasAfterStateChange, AfterStateChangeCall(state));
      if plugins[k].afterStateChange {
        calls := calls + [AfterStateChange(k, state)];
      }
    }
    assert plugins[..|plugins|] == plugins;
  }

  /** The `onDestroy` loop: the calls made, in registration order. */
  method NotifyOnDestroy(plugins: seq<Plugin>) returns (calls: seq<HookCall>)
    ensures calls == OnDestroyCalls(plugins)
  {
    calls := [];
    for k := 0 to |plugins|
      invariant calls == OnDestroyCalls(plugins[..k])
    {
      CallsOfPrefix(plugins, k, HasOnDestroy, OnDestroyCall());
      if plugins[k].onDestroy {
        calls := calls + [OnDestroy(k)];
      }
    }
    assert plugins[..|plugins|] == plugins;
  }

  /** The state computed from the current inputs, around a given item array. */
  function BaseState(layout: LayoutStrategy, scrollOffset: real, viewportSize: real, count: int,
                     overscan: real, plugins: seq<Plugin>, items: array<VirtualItem>): VirtualizerState
  {
    var visible := layout.getVisibleRange(scrollOffset, viewportSize, count);
    VirtualizerState(scrollOffset, viewportSize, layout.getTotalSize(count), visible,
                     RenderRange(plugins, visible, overscan, count), items)
  }

  /** Whether a cache entry can serve a render range: both fields present and the range index-equal. */
  predicate CacheHit(prevRenderRange: Option<Range>, prevVirtualItems: Option<array<VirtualItem>>, range: Range)
  {
    prevRenderRange.Some? && prevVirtualItems.Some? &&
    prevRenderRange.value.startIndex == range.startIndex && prevRenderRange.value.endIndex == range.endIndex
  }

  /**
   * The state computation. The memo fields are passed in and returned: on a
   * hit the cached array is reused by reference, otherwise a fresh array is
   * built and becomes the new cache entry.
   */
  method CalculateState(layout: LayoutStrategy, scrollSource: VirtualScrollSource, count: int, overscan: real,
                        plugins: seq<Plugin>, prevRenderRange: Option<Range>, prevVirtualItems: Option<array<VirtualItem>>)
    returns (state: VirtualizerState, newRenderRange: Option<Range>, newVirtualItems: Option<array<VirtualItem>>)
    requires prevVirtualItems.Some? && prevRenderRange.Some? ==>
               prevVirtualItems.value[..] == ItemsFor(layout, prevRenderRange.value)
    ensures state == BaseState(layout, scrollSource.scrollOffset, scrollSource.viewportSize, count, overscan, plugins, state.virtualItems)
    ensures state.virtualItems[..] == ItemsFor(layout, state.renderRange)
    ensures CacheHit(prevRenderRange, prevVirtualItems, state.renderRange) ==> state.virtualItems == prevVirtualItems.value
    ensures !CacheHit(prevRenderRange, prevVirtualItems, state.renderRange) ==> fresh(state.virtualItems)
    ensures newRenderRange == Some(state.renderRange) && newVirtualItems == Some(state.virtualItems)
  {
    var scrollOffset := scrollSource.GetScrollOffset();
    var viewportSize := scrollSource.GetViewportSize();
    var totalSize := layout.getTotalSize(count);
    var visibleRange := layout.getVisibleRange(scrollOffset, viewportSize, count);
    var renderRange := ApplyRangePlugins(plugins, visibleRange, count, DefaultRenderRange(visibleRange, overscan, count));
    var virtualItems: array<VirtualItem>;
    if CacheHit(prevRenderRange, prevVirtualItems, renderRange) {
      assert prevRenderRange.value == renderRange;
      virtualItems := prevVirtualItems.value;
      newRenderRange, newVirtualItems := prevRenderRange, prevVirtualItems;
    } else {
      virtualItems := BuildItems(layout, renderRange);
      newRenderRange, newVirtualItems := Some(renderRange), Some(virtualItems);
    }
    state := VirtualizerState(scrollOffset, viewportSize, totalSize, visibleRange, renderRange, virtualItems);
  }

  class Virtualizer {
    var count: int
    const overscan: real
    var plugins: seq<Plugin>
    const onChange: bool
    const layoutStrategy: LayoutStrategy
    const scrollSource: VirtualScrollSource
    var state: VirtualizerState
    var unsubscribe: Option<Subscription>
    var prevRenderRange: Option<Range>
    var prevVirtualItems: Option<array<VirtualItem>>
    /** The calls made so far to `onInit`, `afterStateChange`, `onChange` and `onDestroy`. */
    var log: seq<HookCall>

    ghost function CacheRepr(): set<object>
      reads this
    {
      if prevVirtualItems.Some? then {prevVirtualItems.value} else {}
    }

    /** The memo cache, when present, holds the item list of its range. */
    ghost predicate Valid()
      reads this, CacheRepr()
    {
      prevVirtualItems.Some? && prevRenderRange.Some? ==>
        prevVirtualItems.value[..] == ItemsFor(layoutStrategy, prevRenderRange.value)
    }

    /** The render range the current inputs produce. */
    ghost function CurrentRenderRange(): Range
      reads this, scrollSource
    {
      RenderRange(plugins, layoutStrategy.getVisibleRange(scrollSource.scrollOffset, scrollSource.viewportSize, count),
                  overscan, count)
    }

    /** The state the current inputs produce around a given item array. */
    ghost function CurrentBaseState(items: array<VirtualItem>): VirtualizerState
      reads this, scrollSource
    {
      BaseState(layoutStrategy, scrollSource.scrollOffset, scrollSource.viewportSize, count, overscan, plugins, items)
    }

    /**
     * Computes the initial state without running any hook or `onChange`, then
     * subscribes a fresh callback to the scroll source.
     */
    constructor (layoutStrategy: LayoutStrategy, scrollSource: VirtualScrollSource, options: VirtualizerOptions)
      requires scrollSource.Valid()
      modifies scrollSource
      ensures Valid() && scrollSource.Valid()
      ensures this.layoutStrategy == layoutStrategy && this.scrollSource == scrollSource
      ensures count == options.count && overscan == options.overscan.GetOr(DefaultOverscan)
      ensures onChange == options.onChange
      ensures plugins == [] && log == []
      ensures fresh(state.virtualItems) && state == CurrentBaseState(state.virtualItems)
      ensures state.virtualItems[..] == ItemsFor(layoutStrategy, state.renderRange)
      ensures prevRenderRange == Some(state.renderRange) && prevVirtualItems == Some(state.virtualItems)
      ensures unsubscribe.Some? && fresh(unsubscribe.value.callback)
      ensures scrollSource.listeners == old(scrollSource.listeners) + [unsubscribe.value.callback]
      ensures scrollSource.scrollOffset == old(scrollSource.scrollOffset)
      ensures scrollSource.viewportSize == old(scrollSource.viewportSize)
    {
      this.layoutStrategy := layoutStrategy;
      this.scrollSource := scrollSource;
      this.count := options.count;
      this.overscan := options.overscan.GetOr(DefaultOverscan);
      this.onChange := options.onChange;
      this.plugins := [];
      this.log := [];
      var initial, cachedRange, cachedItems := CalculateState(layoutStrategy, scrollSource, options.count,
        options.overscan.GetOr(DefaultOverscan), [], None, None);
      this.state := initial;
      this.prevRenderRange := cachedRange;
      this.prevVirtualItems := cachedItems;
      this.unsubscribe := None;
      new;
      // the plugin list is empty here, so the `onInit` loop makes no call
      var callback := new Listener();
      var handle := scrollSource.Subscribe(callback);
      unsubscribe := Some(handle);
    }

    function GetState(): VirtualizerState
      reads this
    {
      state
    }

    /** Appends the plugin, calls its `onInit` once and clears the memo cache. */
    method AddPlugin(plugin: Plugin)
      requires Valid()
      modifies this
      ensures Valid()
      ensures plugins == old(plugins) + [plugin]
      ensures log == old(log) + (if plugin.onInit then [OnInit(|old(plugins)|)] else [])
      ensures prevRenderRange == None && prevVirtualItems == None
      ensures count == old(count) && state == old(state) && unsubscribe == old(unsubscribe)
    {
      plugins := plugins + [plugin];
      if plugin.onInit {
        log := log + [OnInit(|plugins| - 1)];
      }
      prevRenderRange := None;
      prevVirtualItems := None;
    }

    /** A different count is stored, clears the cache and updates; the same count changes nothing. */
    method SetCount(newCount: int)
      requires Valid()
      modifies this
      ensures Valid()
      ensures newCount == old(count) ==> unchanged(this)
      ensures newCount != old(count) ==>
                && count == newCount && plugins == old(plugins) && unsubscribe == old(unsubscribe)
                && prevRenderRange == Some(CurrentRenderRange()) && prevVirtualItems.Some?
                && fresh(prevVirtualItems.value)
                && state == BeforeStateChangeChain(plugins, CurrentBaseState(prevVirtualItems.value))
                && log == old(log) + AfterStateChangeCalls(plugins, state) + (if onChange then [OnChange(state)] else [])
    {
      if count != newCount {
        count := newCount;
        prevRenderRange := None;
        prevVirtualItems := None;
        Update();
      }
    }

    /**
     * Recomputes the state, runs the `beforeStateChange` chain over it, stores
     * the result, shows it to every `afterStateChange` and then to `onChange`.
     */
    method Update()
      requires Valid()
      modifies this
      ensures Valid()
      ensures count == old(count) && plugins == old(plugins) && unsubscribe == old(unsubscribe)
      ensures prevRenderRange == Some(CurrentRenderRange()) && prevVirtualItems.Some?
      ensures CacheHit(old(prevRenderRange), old(prevVirtualItems), CurrentRenderRange()) ==>
                prevVirtualItems == old(prevVirtualItems)
      ensures !CacheHit(old(prevRenderRange), old(prevVirtualItems), CurrentRenderRange()) ==>
                fresh(prevVirtualItems.value)
      ensures state == BeforeStateChangeChain(plugins, CurrentBaseState(prevVirtualItems.value))
      ensures log == old(log) + AfterStateChangeCalls(plugins, state) + (if onChange then [OnChange(state)] else [])
    {
      var newState, cachedRange, cachedItems := CalculateState(layoutStrategy, scrollSource, count, overscan,
        plugins, prevRenderRange, prevVirtualItems);
      prevRenderRange, prevVirtualItems := cachedRange, cachedItems;
      var finalState := ApplyBeforeStateChange(plugins, newState);
      state := finalState;
      var calls := NotifyAfterStateChange(plugins, finalState);
      calls := log + calls;
      if onChange {
        calls := calls + [OnChange(finalState)];
      }
      log := calls;
    }

    /** The callback subscribed to the scroll source: every notification runs an update. */
    method OnScrollSourceChange(offset: real)
      requires Valid()
      modifies this
      ensures Valid()
      ensures count == old(count) && plugins == old(plugins) && unsubscribe == old(unsubscribe)
      ensures prevRenderRange == Some(CurrentRenderRange()) && prevVirtualItems.Some?
      ensures CacheHit(old(prevRenderRange), old(prevVirtualItems), CurrentRenderRange()) ==>
                prevVirtualItems == old(prevVirtualItems)
      ensures !CacheHit(old(prevRenderRange), old(prevVirtualItems), CurrentRenderRange()) ==>
                fresh(prevVirtualItems.value)
      ensures state == BeforeStateChangeChain(plugins, CurrentBaseState(prevVirtualItems.value))
      ensures log == old(log) + AfterStateChangeCalls(plugins, state) + (if onChange then [OnChange(state)] else [])
    {
      Update();
    }

    /** Invokes the unsubscribe handle, then `onDestroy` on every plugin in registration order. */
    method Destroy()
      requires scrollSource.Valid()
      modifies this`log, scrollSource
      ensures scrollSource.Valid()
      ensures unsubscribe.Some? ==> scrollSource.listeners == Without(old(scrollSource.listeners), unsubscribe.value.callback)
      ensures unsubscribe.None? ==> scrollSource.listeners == old(scrollSource.listeners)
      ensures scrollSource.scrollOffset == old(scrollSource.scrollOffset)
      ensures scrollSource.viewportSize == old(scrollSource.viewportSize)
      ensures log == old(log) + OnDestroyCalls(plugins)
    {
      if unsubscribe.Some? {
        scrollSource.Unsubscribe(unsubscribe.value);
      }
      var calls := NotifyOnDestroy(plugins);
      log := log + calls;
    }
  }
}
