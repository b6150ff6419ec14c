/**
 * The engine's test scenarios, proved of the model: a fixed layout of
 * 50-pixel items and a virtual scroll source, with the outcomes the tests
 * pin. The host's dispatch of a scroll notification is written out: the one
 * notification, addressed to the virtualizer's callback, runs its update.
 */
module VirtualizerScenarios {
  import opened Wrappers
  import opened Types
  import opened JsMath
  import opened Plugins
  import opened ScrollSource
  import opened FixedLayout
  import opened Virtualizer

  /** The visible ranges of the fixed 50-pixel layout over 100 items that the scenarios use. */
  lemma FixedVisibleRanges()
    ensures FixedLayoutStrategy(50.0).GetVisibleRange(0.0, 0.0, 100) == Range(0, 0)
    ensures FixedLayoutStrategy(50.0).GetVisibleRange(0.0, 500.0, 100) == Range(0, 10)
    ensures FixedLayoutStrategy(50.0).GetVisibleRange(100.0, 500.0, 100) == Range(2, 12)
  {
    assert Floor(0.0) == 0;
    assert Floor(2.0) == 2;
    assert Ceil(0.0) == 0;
    assert Ceil(10.0) == 10;
  }

  /** Count 100 with overscan 2: three items (indices 0..2) and a total size of 5000. */
  method InitialStateScenario() returns (itemCount: int, totalSize: real, log: seq<HookCall>)
    ensures itemCount == 3 && totalSize == 5000.0 && log == []
  {
    var layout := FixedLayoutStrategy(50.0).AsLayoutStrategy();
    var source := new VirtualScrollSource();
    var v := new Virtualizer(layout, source, VirtualizerOptions(100, Some(2.0), false));
    FixedVisibleRanges();
    assert Trunc(-2.0) == -2 && Trunc(2.0) == 2;
    assert v.state.renderRange == Range(0, 2);
    itemCount := v.state.virtualItems.Length;
    totalSize := v.state.totalSize;
    log := v.log;
  }

  /** A virtualizer over 100 items of 50 pixels with overscan 2, freshly attached to a new source. */
  method Setup(onChange: bool) returns (layout: LayoutStrategy, source: VirtualScrollSource, v: Virtualizer)
    ensures fresh(source) && fresh(v) && v.scrollSource == source && v.layoutStrategy == layout
    ensures layout == FixedLayoutStrategy(50.0).AsLayoutStrategy()
    ensures v.Valid() && source.Valid()
    ensures v.count == 100 && v.overscan == 2.0 && v.onChange == onChange && v.plugins == [] && v.log == []
    ensures v.unsubscribe.Some? && source.listeners == [v.unsubscribe.value.callback]
    ensures source.scrollOffset == 0.0 && source.viewportSize == 0.0
    ensures v.prevVirtualItems.Some? && v.state.virtualItems == v.prevVirtualItems.value
    ensures v.state.renderRange == Range(0, 2)
  {
    layout := FixedLayoutStrategy(50.0).AsLayoutStrategy();
    source := new VirtualScrollSource();
    v := new Virtualizer(layout, source, VirtualizerOptions(100, Some(2.0), onChange));
    FixedVisibleRanges();
    assert Trunc(-2.0) == -2 && Trunc(2.0) == 2;
  }

  /**
   * Growing the viewport to 500 notifies the virtualizer's callback once with
   * offset 0; its update sees the visible range {0, 10} and 13 items.
   */
  method ViewportScenario() returns (notified: seq<Notification>, visible: Range, itemCount: int)
    ensures |notified| == 1 && notified[0].offset == 0.0
    ensures visible == Range(0, 10) && itemCount == 13
  {
    var layout, source, v := Setup(false);
    notified := source.SetViewportSize(500.0);
    assert notified == [Notification(v.unsubscribe.value.callback, 0.0)];
    v.OnScrollSourceChange(notified[0].offset);
    FixedVisibleRanges();
    assert Trunc(-2.0) == -2 && Trunc(12.0) == 12;
    assert v.state.renderRange == Range(0, 12);
    visible := v.state.visibleRange;
    itemCount := v.state.virtualItems.Length;
  }

  /** After the viewport grows to 500, scrolling to offset 100 moves the visible start to item 2. */
  method ScrollScenario() returns (notified: seq<Notification>, visibleStart: int)
    ensures |notified| == 1 && notified[0].offset == 100.0
    ensures visibleStart == 2
  {
    var layout, source, v := Setup(false);
    var first := source.SetViewportSize(500.0);
    v.OnScrollSourceChange(first[0].offset);
    notified := source.SetScrollOffset(100.0);
    v.OnScrollSourceChange(notified[0].offset);
    FixedVisibleRanges();
    visibleStart := v.state.visibleRange.startIndex;
  }

  /** The same count changes nothing; a new count of 200 makes the total size 10000. */
  method SetCountScenario() returns (sameCountKeepsState: bool, totalSize: real)
    ensures sameCountKeepsState && totalSize == 10000.0
  {
    var layout, source, v := Setup(false);
    var before := v.state;
    v.SetCount(100);
    sameCountKeepsState := v.state == before && v.log == [];
    v.SetCount(200);
    totalSize := v.state.totalSize;
  }

  /** An explicit update calls `onChange` once, with exactly the stored state. */
  method OnChangeScenario() returns (log: seq<HookCall>, stored: VirtualizerState)
    ensures log == [OnChange(stored)]
  {
    var layout, source, v := Setup(true);
    v.Update();
    log := v.log;
    stored := v.GetState();
  }

  /** A second update with unchanged inputs keeps the very same item array. */
  method MemoScenario() returns (reused: bool)
    ensures reused
  {
    var layout, source, v := Setup(false);
    v.Update();
    var first := v.state.virtualItems;
    v.Update();
    reused := v.state.virtualItems == first;
  }

  /** A plugin named "test" with no hook at all. */
  function Bare(): Plugin
  {
    Plugin("test", false, None, false, None, false)
  }

  /** Adding a plugin with `onInit` calls it once, straight away. */
  method OnInitScenario() returns (log: seq<HookCall>)
    ensures log == [OnInit(0)]
  {
    var layout, source, v := Setup(false);
    v.AddPlugin(Bare().(onInit := true));
    log := v.log;
  }

  /** A `beforeStateChange` that rewrites the total size to 9999 decides the stored state. */
  method BeforeStateChangeScenario() returns (totalSize: real)
    ensures totalSize == 9999.0
  {
    var layout, source, v := Setup(false);
    var rewrite := (s: VirtualizerState) => Some(s.(totalSize := 9999.0));
    v.AddPlugin(Bare().(beforeStateChange := Some(rewrite)));
    v.Update();
    assert v.plugins == [Bare().(beforeStateChange := Some(rewrite))];
    assert v.plugins[..0] == [];
    totalSize := v.GetState().totalSize;
  }

  /** An `afterStateChange` plugin sees exactly the stored state. */
  method AfterStateChangeScenario() returns (log: seq<HookCall>, stored: VirtualizerState)
    ensures log == [AfterStateChange(0, stored)]
  {
    var layout, source, v := Setup(false);
    v.AddPlugin(Bare().(afterStateChange := true));
    v.Update();
    assert v.plugins[..0] == [];
    assert HookIndices(v.plugins, HasAfterStateChange) == [0];
    log := v.log;
    stored := v.GetState();
  }

  /** An `onRangeCalculated` returning {0, 0} makes that the render range, with one item. */
  method RangePluginScenario() returns (renderRange: Range, itemCount: int)
    ensures renderRange == Range(0, 0) && itemCount == 1
  {
    var layout, source, v := Setup(false);
    v.AddPlugin(Bare().(onRangeCalculated := Some((r: Range, c: int) => Range(0, 0))));
    v.Update();
    assert v.plugins[..0] == [];
    renderRange := v.state.renderRange;
    itemCount := v.state.virtualItems.Length;
  }

  /** Destroying calls `onDestroy` and removes the virtualizer's callback from the source. */
  method DestroyScenario() returns (log: seq<HookCall>, listeners: seq<Listener>)
    ensures log == [OnDestroy(0)] && listeners == []
  {
    var layout, source, v := Setup(false);
    v.AddPlugin(Bare().(onDestroy := true));
    v.Destroy();
    assert v.plugins[..0] == [];
    assert HookIndices(v.plugins, HasOnDestroy) == [0];
    assert [v.unsubscribe.value.callback][1..] == [];
    log := v.log;
    listeners := source.listeners;
  }
}
