# Headless virtual scrolling, modelled in Dafny

This project models the host-independent core of a virtual-scrolling library:

- the `Virtualizer` orchestrator. It reads the scroll offset and viewport size from a scroll source and asks a layout strategy for the visible range. It widens that range by an overscan and lets plugins replace it. It then builds the list of virtual items, memoised on the render range, and publishes the resulting state through the plugin hooks and the `onChange` callback.
- the stateless range calculator `calculateVirtualRange`, with its direction-aware overscan.
- the fixed-size layout strategy, and the `clamp` it relies on.
- the in-memory scroll source and its listener set.
- the overscan plugin.
- the two pagination helpers `canLoadPage` and `findMissingPages`.

The modules follow the source:

| module | file | models |
|---|---|---|
| `JsMath` | `jsmath.dfy` | `Math.floor`, `Math.ceil`, `x \| 0` as truncation toward zero, integer `Math.min` and `Math.max` |
| `Clamping` | `clamping.dfy` | `clamp(min, value, max)` over reals |
| `Types` | `types.dfy` | `Range`, `VirtualItem`, `VirtualizerState`, and the layout-strategy interface as a record of its four operations |
| `FixedLayout` | `fixed_layout.dfy` | `FixedLayoutStrategy`: `getItemOffset`, `getItemSize`, `getTotalSize` and `getVisibleRange` as `GetItemOffset`, `GetItemSize`, `GetTotalSize` and `GetVisibleRange` |
| `ScrollSource` | `scroll_source.dfy` | `VirtualScrollSource`, a class whose fields the setters update; its getters are `GetScrollOffset` and `GetViewportSize` |
| `Plugins` | `plugins.dfy` | the plugin record; the hook-call log; the `beforeStateChange` chain; last-wins `onRangeCalculated` |
| `Overscan` | `overscan.dfy` | `OverscanPlugin` |
| `VirtualRange` | `virtual_range.dfy` | `calculateVirtualRange` |
| `Virtualizer` | `virtualizer.dfy` | the `Virtualizer` class (`getState` is `GetState`); `#calculateState` and its loops as methods proved against specification functions |
| `VirtualizerScenarios` | `virtualizer_scenarios.dfy` | the engine's test scenarios, proved of the model |
| `Pages` | `pages.dfy` | `canLoadPage` as the predicate `CanLoadPage` (its last-page guard is `PastLastPage`); `findMissingPages` as the method `FindMissingPages`, specified by `MissingPages` |

Modelling choices:

- **Plugins.** A plugin is a record:
  - `beforeStateChange` and `onRangeCalculated` compute values, so they are optional function fields.
  - `onInit`, `afterStateChange` and `onDestroy` act only through side effects, so each is a flag. The virtualizer appends every call it makes to them, and to `onChange`, to its `log` field. A call names its plugin by registration position.
- **Callbacks.** A scroll-source callback is a `Listener` object, compared by identity as JavaScript compares functions.
  - A setter returns the notifications it delivers, in listener order.
  - Host code hands a notification addressed to the virtualizer's callback to `Virtualizer.OnScrollSourceChange`, which is the subscribed closure.
- **Item arrays.** The item list is an `array`. Reusing the memoised list is therefore reference equality, as in the source.
- **Getters.** `getState` and the scroll source's getters are plain field reads.

## Model

| member | source | states |
|---|---|---|
| `JsMath.Floor` | packages/core/src/strategies/layout/FixedLayoutStrategy.ts:31 | the result is the greatest integer not above the argument |
| `JsMath.Ceil` | packages/core/src/strategies/layout/FixedLayoutStrategy.ts:35 | the result is the least integer not below the argument |
| `JsMath.Trunc` | packages/core/src/utils/calculateVirtualRange.ts:11 | `x \| 0` rounds toward zero: floor for non-negative arguments, ceiling for negative ones |
| `JsMath.Max` | packages/core/src/utils/calculateVirtualRange.ts:11 | the result is one of the arguments and is at least both |
| `JsMath.Min` | packages/core/src/utils/calculateVirtualRange.ts:12-15 | the result is one of the arguments and is at most both |
| `JsMath.MaxZeroTruncIsMaxZeroFloor` | packages/core/src/utils/calculateVirtualRange.ts:11 | after `max(0, …)`, truncation and floor agree |
| `Clamping.Clamp` | packages/core/src/utils/clamp.test.ts:5-21 | a value inside [min, max] is returned unchanged; below min gives min; above max (with min ≤ max) gives max; the result is always one of the three inputs |
| `Clamping.ClampWithinBounds` | packages/core/src/utils/clamp.test.ts:5-41 | for min ≤ max the result lies in [min, max] |
| `Clamping.ClampDegenerate` | packages/core/src/utils/clamp.test.ts:23-27 | with min = max the result is that bound |
| `Clamping.ClampTestCases` | packages/core/src/utils/clamp.test.ts:5-41 | every asserted equality, including negative and fractional bounds |
| `FixedLayout.FixedLayoutStrategy.GetVisibleRange` | packages/core/src/strategies/layout/FixedLayoutStrategy.ts:29-38 | the end is a viewport's worth of items past the start, clamped to count − 1; for count ≥ 1 the start lies in [0, count − 1]; for count ≥ 1 and a non-negative viewport, start ≤ end |
| `FixedLayout.FixedLayoutStrategy.AsLayoutStrategy` | packages/core/src/strategies/layout/FixedLayoutStrategy.ts:5-40 | the interface record's four operations are the fixed strategy's |
| `FixedLayout.FixedLayoutStrategy.ItemsAreContiguous` | packages/core/src/strategies/layout/FixedLayoutStrategy.ts:12-18 | offset(i) + size(i) = offset(i + 1) |
| `FixedLayout.FixedLayoutStrategy.OffsetIsSizeSum` | packages/core/src/strategies/layout/FixedLayoutStrategy.ts:12-18 | the offset difference between two indices is the sum of the sizes between them |
| `FixedLayout.FixedLayoutStrategy.TotalSizeIsSumOfSizes` | packages/core/src/strategies/layout/FixedLayoutStrategy.ts:20-22 | the total size is the sum of all item sizes and equals the end of the last item |
| `FixedLayout.FixedLayoutStrategy.StartIsItemUnderOffset` | packages/core/src/strategies/layout/FixedLayoutStrategy.ts:29-33 | for an offset inside the content, the visible start is the item whose extent contains the offset |
| `FixedLayout.FixedLayoutStrategy.VisibleRangeCoversViewport` | packages/core/src/strategies/layout/FixedLayoutStrategy.ts:29-38 | every item intersecting the viewport lies inside the visible range |
| `FixedLayout.FixedLayoutStrategy.StartOutsideContent` | packages/core/src/strategies/layout/FixedLayoutStrategy.ts:29-33 | for count ≥ 1, a negative offset gives start 0 and an offset at or past the total size gives start count − 1 |
| `FixedLayout.FixedLayoutStrategy.ItemsPastTheEndLieBeyondViewport` | packages/core/src/strategies/layout/FixedLayoutStrategy.ts:35-38 | inside the content, every item after the visible end starts beyond the viewport and does not overlap it |
| `ScrollSource.Without` | packages/core/src/strategies/scroll/VirtualScrollSource.ts:33 | deleting never lengthens the listener set |
| `ScrollSource.WithoutRemovesExactly` | packages/core/src/strategies/scroll/VirtualScrollSource.ts:33 | deleting removes exactly that callback and keeps the set free of duplicates |
| `ScrollSource.BroadcastReachesEachListenerOnce` | packages/core/src/strategies/scroll/VirtualScrollSource.ts:37-39 | each listener of a duplicate-free set is notified, once, with the offset; nobody else is |
| `ScrollSource.UnsubscribedListenerIsNotNotified` | packages/core/src/strategies/scroll/VirtualScrollSource.ts:32-34 | after its handle runs, a callback is not among later notifications |
| `ScrollSource.VirtualScrollSource.constructor` | packages/core/src/strategies/scroll/VirtualScrollSource.ts:4-6 | a fresh source has offset 0, viewport 0 and no listener |
| `ScrollSource.VirtualScrollSource.SetScrollOffset` | packages/core/src/strategies/scroll/VirtualScrollSource.ts:16-21 | stores the offset; a changed value notifies every listener with the new offset, an unchanged one notifies nobody |
| `ScrollSource.VirtualScrollSource.SetViewportSize` | packages/core/src/strategies/scroll/VirtualScrollSource.ts:23-28 | stores the size; a changed value notifies every listener with the unchanged offset, an unchanged one notifies nobody |
| `ScrollSource.VirtualScrollSource.Subscribe` | packages/core/src/strategies/scroll/VirtualScrollSource.ts:30-35 | adds the callback once (a second subscription changes nothing) and returns its handle |
| `ScrollSource.VirtualScrollSource.Unsubscribe` | packages/core/src/strategies/scroll/VirtualScrollSource.ts:32-34 | the handle deletes exactly its callback |
| `ScrollSource.VirtualScrollSource.NotifyListeners` | packages/core/src/strategies/scroll/VirtualScrollSource.ts:37-39 | the loop calls every listener in insertion order with the current offset |
| `ScrollSource.ScrollSourceScenario` | packages/core/src/strategies/scroll/__tests__/VirtualScrollSource.test.ts:5-73 | defaults, notify only on change, several subscribers, unsubscribe |
| `Plugins.HookIndicesAreThePluginsWithTheHook` | packages/core/src/virtualizer/Virtualizer.ts:77 | the plugins called are exactly those implementing the hook, in registration order |
| `Plugins.CallsOfPrefix` | packages/core/src/virtualizer/Virtualizer.ts:77 | a hook loop's step appends the current plugin's call when it has the hook |
| `Plugins.AfterStateChangeReachesEveryObserver` | packages/core/src/virtualizer/Virtualizer.ts:77 | every plugin with `afterStateChange` gets the stored state, once, in order; no other plugin is called |
| `Plugins.OnDestroyReachesEveryPlugin` | packages/core/src/virtualizer/Virtualizer.ts:148 | every plugin with `onDestroy` is called once, in registration order |
| `Plugins.BeforeStateChangeComposes` | packages/core/src/virtualizer/Virtualizer.ts:69-73 | the chain over `a + b` is the chain over `b` applied to the chain over `a` (left-to-right composition) |
| `Plugins.BeforeStateChangeWithoutEffectIsIdentity` | packages/core/src/virtualizer/Virtualizer.ts:71-72 | hooks that are absent or return nothing leave the state as it was |
| `Plugins.LastRangePluginWins` | packages/core/src/virtualizer/Virtualizer.ts:102-106 | the render range is the result of the last `onRangeCalculated`, applied to the original visible range |
| `Plugins.NoRangePluginKeepsInitial` | packages/core/src/virtualizer/Virtualizer.ts:102-106 | without `onRangeCalculated`, the default render range stands |
| `Overscan.OverscanPlugin.OnRangeCalculated` | packages/core/src/plugins/OverscanPlugin.ts:9-19 | start ≥ 0 and end ≤ count − 1; each edge moves out by exactly the overscan unless clamped; for overscan ≥ 0 and an input inside the list, the output contains the input |
| `Overscan.OverscanPlugin.AsPlugin` | packages/core/src/plugins/OverscanPlugin.ts:4-20 | the plugin is named "overscan" and implements only `onRangeCalculated` |
| `Overscan.OverscanScenarios` | packages/core/src/plugins/OverscanPlugin.test.ts:6-49 | default 4 turns {10,20} into {6,24}; the start clamps at 0 and the end at count − 1; the name |
| `VirtualRange.CalculateVirtualRange` | packages/core/src/utils/calculateVirtualRange.ts:3-34 | start = max(0, floor(offset/itemSize)); end = min(count − 1, start + ceil(viewport/itemSize)); 0 ≤ renderStart and renderEnd ≤ count − 1; for overscan ≥ 0 the render range contains the visible one |
| `VirtualRange.NoDirectionIsSymmetric` | packages/core/src/utils/calculateVirtualRange.ts:17-23 | no previous offset, or an equal one, gives the base overscan on both edges |
| `VirtualRange.ScrollingDownBoostsEndEdge` | packages/core/src/utils/calculateVirtualRange.ts:19-26 | scrolling down leaves the visible range and the start edge as without direction; the end edge reaches at least as far, and strictly further for a whole overscan ≥ 1 unless clamped |
| `VirtualRange.ScrollingDownUsesBoostedOverscan` | packages/core/src/utils/calculateVirtualRange.ts:19-26 | scrolling down gives the end edge of an undirected overscan of 1.5 × overscan |
| `VirtualRange.ScrollingUpBoostsStartEdge` | packages/core/src/utils/calculateVirtualRange.ts:17-25 | scrolling up leaves the visible range and the end edge as without direction; the start edge reaches at least as far, and strictly further for a whole overscan ≥ 1 unless clamped |
| `VirtualRange.ScrollingUpUsesBoostedOverscan` | packages/core/src/utils/calculateVirtualRange.ts:17-25 | scrolling up gives the start edge of an undirected overscan of 1.5 × overscan |
| `VirtualRange.ZeroOverscanRendersVisible` | packages/core/src/utils/__tests__/calculateVirtualRange.test.ts:176-187 | overscan 0 gives a render range equal to the visible range |
| `VirtualRange.EmptyList` | packages/core/src/utils/__tests__/calculateVirtualRange.test.ts:116-130 | count 0, with the offset inside the first item (as at offset 0), gives start 0, end −1, render 0..−1 |
| `VirtualRange.SingleItem` | packages/core/src/utils/__tests__/calculateVirtualRange.test.ts:131-144 | a single item gives all four indices 0 |
| `VirtualRange.StartIndexHasNoUpperClamp` | packages/core/src/utils/calculateVirtualRange.ts:11 | for an offset past the content, the start is at least the count and above the end: the start has no upper clamp |
| `VirtualRange.RangeScenarios` | packages/core/src/utils/__tests__/calculateVirtualRange.test.ts:12-227 | every test case with its assertions: initial, middle and end positions, both directions, both clamps, empty list and single item, small viewport, large item size, zero and large overscan, fractional offset and fractional item size |
| `Virtualizer.DefaultRenderRange` | packages/core/src/virtualizer/Virtualizer.ts:93-100 | the widened range starts at ≥ 0 and ends at ≤ count − 1; for overscan ≥ 0 it contains a visible range that lies inside the list |
| `Virtualizer.DefaultRenderRangeIsOverscanPlugin` | packages/core/src/virtualizer/Virtualizer.ts:93-100 | for a whole overscan, the built-in widening equals the overscan plugin's |
| `Virtualizer.RenderRangeWithoutRangePlugins` | packages/core/src/virtualizer/Virtualizer.ts:93-106 | without range plugins the render range stays in the list and contains the visible range |
| `Virtualizer.ItemsForHoldsTheRange` | packages/core/src/virtualizer/Virtualizer.ts:117-130 | the items are exactly the indices of the range, ascending, each with the strategy's offset and size and end = start + size |
| `Virtualizer.EmptyListHasNoItems` | packages/core/src/virtualizer/Virtualizer.ts:98-100 | a count of 0 yields no items, provided no plugin implements `onRangeCalculated` |
| `Virtualizer.FixedLayoutItemsAreContiguous` | packages/core/src/virtualizer/Virtualizer.ts:121-129 | under the fixed layout, each item ends where the next starts |
| `Virtualizer.ItemsForStep` | packages/core/src/virtualizer/Virtualizer.ts:121-130 | one step of the push loop appends the next index's item |
| `Virtualizer.BuildItems` | packages/core/src/virtualizer/Virtualizer.ts:117-130 | the loop builds a fresh array holding the items of the range |
| `Virtualizer.ApplyRangePlugins` | packages/core/src/virtualizer/Virtualizer.ts:102-106 | the loop computes the last-wins render range |
| `Virtualizer.ApplyBeforeStateChange` | packages/core/src/virtualizer/Virtualizer.ts:69-73 | the loop computes the left-to-right `beforeStateChange` chain |
| `Virtualizer.NotifyAfterStateChange` | packages/core/src/virtualizer/Virtualizer.ts:77 | the loop makes exactly the `afterStateChange` calls of the specification |
| `Virtualizer.NotifyOnDestroy` | packages/core/src/virtualizer/Virtualizer.ts:148 | the loop makes exactly the `onDestroy` calls of the specification |
| `Virtualizer.CalculateState` | packages/core/src/virtualizer/Virtualizer.ts:82-144 | the state is built from the current inputs; its items are those of its render range; an equal cached range reuses the cached array, otherwise a fresh one is built; the cache becomes (render range, items) |
| `Virtualizer.Virtualizer.constructor` | packages/core/src/virtualizer/Virtualizer.ts:25-44 | options and defaults (overscan 4) are stored; the state is computed; no hook and no `onChange` runs; a fresh callback is subscribed |
| `Virtualizer.Virtualizer.AddPlugin` | packages/core/src/virtualizer/Virtualizer.ts:46-51 | appends the plugin, logs its `onInit` once, clears the cache, leaves the state as it was |
| `Virtualizer.Virtualizer.SetCount` | packages/core/src/virtualizer/Virtualizer.ts:57-64 | the same count changes nothing; a new count is stored, the cache is cleared and an update runs (fresh items) |
| `Virtualizer.Virtualizer.Update` | packages/core/src/virtualizer/Virtualizer.ts:66-80 | the stored state is the chain over the recomputed state; then `afterStateChange` calls with it, then `onChange` with it; memo reuse exactly on a cache hit |
| `Virtualizer.Virtualizer.OnScrollSourceChange` | packages/core/src/virtualizer/Virtualizer.ts:41-43 | a scroll notification runs an update |
| `Virtualizer.Virtualizer.Destroy` | packages/core/src/virtualizer/Virtualizer.ts:146-149 | the handle removes the callback from the source; then `onDestroy` on every plugin, in order |
| `VirtualizerScenarios.FixedVisibleRanges` | packages/core/src/virtualizer/__test__/Virtualizer.test.ts:28-61 | the fixed 50-pixel layout's visible ranges {0,0}, {0,10} and {2,12} |
| `VirtualizerScenarios.InitialStateScenario` | packages/core/src/virtualizer/__test__/Virtualizer.test.ts:22-26 | count 100 with overscan 2 gives 3 items and a total size of 5000 |
| `VirtualizerScenarios.Setup` | packages/core/src/virtualizer/__test__/Virtualizer.test.ts:13-20 | the shared fixture is constructed with render range {0,2} and one subscribed callback |
| `VirtualizerScenarios.ViewportScenario` | packages/core/src/virtualizer/__test__/Virtualizer.test.ts:28-35 | viewport 500 gives visible {0,10} and 13 items |
| `VirtualizerScenarios.ScrollScenario` | packages/core/src/virtualizer/__test__/Virtualizer.test.ts:55-61 | offset 100 gives visible start 2 |
| `VirtualizerScenarios.SetCountScenario` | packages/core/src/virtualizer/__test__/Virtualizer.test.ts:37-69 | the same count keeps the state; count 200 gives a total size of 10000 |
| `VirtualizerScenarios.OnChangeScenario` | packages/core/src/virtualizer/__test__/Virtualizer.test.ts:43-53 | `onChange` receives exactly the stored state |
| `VirtualizerScenarios.MemoScenario` | packages/core/src/virtualizer/Virtualizer.ts:109-115 | a second update with unchanged inputs reuses the same array |
| `VirtualizerScenarios.OnInitScenario` | packages/core/src/virtualizer/__test__/Virtualizer.test.ts:72-79 | adding a plugin calls its `onInit` once |
| `VirtualizerScenarios.BeforeStateChangeScenario` | packages/core/src/virtualizer/__test__/Virtualizer.test.ts:81-94 | a rewriting `beforeStateChange` decides the stored total size |
| `VirtualizerScenarios.AfterStateChangeScenario` | packages/core/src/virtualizer/__test__/Virtualizer.test.ts:96-106 | `afterStateChange` receives exactly the stored state |
| `VirtualizerScenarios.RangePluginScenario` | packages/core/src/virtualizer/__test__/Virtualizer.test.ts:108-121 | a range plugin's {0,0} becomes the render range, with one item |
| `VirtualizerScenarios.DestroyScenario` | packages/core/src/virtualizer/__test__/Virtualizer.test.ts:123-146 | `onDestroy` runs and the callback leaves the source |
| `Pages.PastLastPageIsIntegerDivision` | packages/shared/src/utils/canLoadPage.ts:13 | for a positive page size, the floor of the quotient is integer division |
| `Pages.LoadedOrLoadingIsNotLoadable` | packages/shared/src/utils/canLoadPage.ts:9 | a loaded or in-flight page is not loadable |
| `Pages.BeyondTotalIsNotLoadable` | packages/shared/src/utils/canLoadPage.ts:11 | a page starting at or past a positive total is not loadable |
| `Pages.PastLastPageWithoutMoreIsNotLoadable` | packages/shared/src/utils/canLoadPage.ts:13 | with `hasMore` false, a page past `floor(total / pageSize)` is not loadable |
| `Pages.InitialStateLoadsEveryPage` | packages/shared/src/utils/canLoadPage.ts:9-15 | with no pages, none in flight, total 0 and more to come, every page is loadable |
| `Pages.KnownTotalDecides` | packages/shared/src/utils/canLoadPage.ts:9-15 | with a positive total and page size, `CanLoadPage` holds exactly when the page is not loaded, not in flight and starts below the total |
| `Pages.DuplicateLoadScenario` | packages/react/src/hooks/useInfinitePages.test.ts:66-98 | a loaded or loading page is refused; the next unloaded page is not |
| `Pages.BeyondTotalScenario` | packages/react/src/hooks/useInfinitePages.test.ts:288-320 | with total 50, pages of 20 and nothing more, page 3 is refused and page 2 is not |
| `Pages.MissingPagesAreTheMissingPages` | packages/shared/src/utils/findMissingPages.ts:7-12 | every returned page is in the window and missing; every missing page of the window is returned; strictly ascending; length ≤ max(0, end − start + 1) |
| `Pages.EmptyWindow` | packages/shared/src/utils/findMissingPages.ts:8 | an inverted window yields nothing |
| `Pages.FindMissingPages` | packages/shared/src/utils/findMissingPages.ts:1-12 | the loop returns the missing pages of the window, in order |
| `Pages.MissingPagesScenario` | packages/shared/src/utils/findMissingPages.ts:7-12 | window 0..4 with page 1 loaded and page 3 in flight gives [0, 2, 4] |

## Left out

- Arithmetic: JavaScript numbers are modelled as mathematical reals and integers. IEEE rounding, NaN and infinities are not modelled. `x | 0` is truncation toward zero, without its 32-bit wrap-around.
- `FixedLayout.FixedLayoutStrategy`: the item size is a positive real (`ItemSize`). A zero or negative item size divides by zero or reverses the geometry, and no caller in the source passes one. The same holds for `itemSize` in `VirtualRange.CalculateVirtualRange`, which requires it positive.
- `Virtualizer.EmptyListHasNoItems` holds only without `onRangeCalculated` plugins. A plugin that passes the visible range through at count 0 gets the fixed layout's visible range. That range's start depends on `clamp(0, …, −1)`, which the tests leave open. With the model's `Clamp` it is {−1, −1}, so one item at index −1 is built.
- `Clamping.Clamp`: the implementation file is not part of this model. The body is reconstructed from the test assertions, and its contracts say nothing about min > max beyond "the result is one of the inputs". So `FixedLayout.FixedLayoutStrategy.GetVisibleRange` pins its start only for count ≥ 1.
- `Types.LayoutStrategy` and the scroll-source interface: only the fixed layout and the virtual scroll source are modelled as implementations. The `Virtualizer` class is written against the interface record for layouts and against the concrete `VirtualScrollSource` class for scrolling.
- `Virtualizer.Virtualizer.OnScrollSourceChange`: the source does not call it itself. A setter returns its notifications and the host dispatches them. Synchronous re-entrant dispatch inside the setter is not modelled.
- `Virtualizer.Virtualizer.constructor`: the `onInit` loop over the plugin list runs on an empty list and makes no call. The model writes no loop for it.
- `Virtualizer.Virtualizer.Destroy`: behaviour after destroy is not specified. Nothing is guarded in the source either.
- Plugin hooks are total functions. A hook that throws, and a plugin that mutates the virtualizer from inside a hook, are not modelled.
- `Overscan.OverscanPlugin`: its overscan is an integer, since the plugin adds it to integer indices without truncation. The virtualizer's own overscan is a real, as its `| 0` truncation suggests.
- `Pages.FindMissingPages` and `Pages.CanLoadPage` receive the page map and the loading set as immutable values. That they are not modified is therefore immediate. Pages are integers.
- `Pages.CanLoadPage`: the page size 0 case follows JavaScript's division by zero (±Infinity or NaN) through `PastLastPage`. A fractional page or page size is not modelled.
- The React and React Native components, the `useInfinitePages` hook, transition and DOM utilities, and server rendering are not part of this model.
