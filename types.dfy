/** The shapes shared by the engine: ranges, virtual items, state and the layout interface. */
module Types {

  /** An inclusive index interval; `endIndex == startIndex - 1` is the empty range. */
  datatype Range = Range(startIndex: int, endIndex: int)

  /** Number of indices an inclusive range covers (zero for an empty or inverted range). */
  function RangeLength(r: Range): (n: nat)
    ensures r.startIndex <= r.endIndex ==> n == r.endIndex - r.startIndex + 1
    ensures r.endIndex < r.startIndex ==> n == 0
  {
    if r.endIndex < r.startIndex then 0 else r.endIndex - r.startIndex + 1
  }

  /** One materialised item: its logical index and its geometry along the scroll axis. */
  datatype VirtualItem = VirtualItem(index: int, start: real, size: real, end: real)

  /**
   * The snapshot published after every update. `virtualItems` is a reference:
   * the engine reuses the same array while the render range is unchanged.
   */
  datatype VirtualizerState = VirtualizerState(
    scrollOffset: real,
    viewportSize: real,
    totalSize: real,
    visibleRange: Range,
    renderRange: Range,
    virtualItems: array<VirtualItem>)

  /**
   * The layout-strategy interface as a table of its four operations:
   * item offset and size by index, total size by count, and the visible
   * range for (scroll offset, viewport size, count).
   */
  datatype LayoutStrategy = LayoutStrategy(
    getItemOffset: int -> real,
    getItemSize: int -> real,
    getTotalSize: int -> real,
    getVisibleRange: (real, real, int) -> Range)
}
