/** `src/lib/spells/virtual-scroll.svelte.ts`: which rows of a long list to
  * render for a scroll position. Positions and heights are whole pixels
  * here, with a positive item height. */
module VirtualScroll {
  import opened Wrappers
  import opened Text

  const DefaultOverscan: int := 10
  const DefaultTotalItems: int := 0

  /** `Math.floor(a / b)` for a positive `b`. */
  function FloorDiv(a: int, b: int): (q: int)
    requires b > 0
    ensures q * b <= a < q * b + b
  {
    a / b
  }

  /** `Math.ceil(a / b)` for a positive `b`. */
  function CeilDiv(a: int, b: int): (q: int)
    requires b > 0
    ensures q * b - b < a <= q * b
  {
    -((-a) / b)
  }

  function Min(a: int, b: int): int
  {
    if a <= b then a else b
  }

  function Max(a: int, b: int): int
  {
    if a >= b then a else b
  }

  datatype Range = Range(start: int, end: int)

  /** `visibleRange`. */
  function VisibleRange(scrollTop: int, itemHeight: int, containerHeight: int, totalItems: int, overscan: int): (r: Range)
    requires itemHeight > 0
  {
    var startIndex := FloorDiv(scrollTop, itemHeight);
    var endIndex := Min(startIndex + CeilDiv(containerHeight, itemHeight), totalItems - 1);
    Range(Max(0, startIndex - overscan), Min(totalItems - 1, endIndex + overscan))
  }

  /** The range starts at or after 0 and ends at or before the last item.
    * It starts at 0 exactly when the scroll position lies within the first
    * `overscan + 1` rows; otherwise its first row is exactly `overscan`
    * rows above the row holding the scroll position. */
  lemma RangeBounds(scrollTop: int, itemHeight: int, containerHeight: int, totalItems: int, overscan: int)
    requires itemHeight > 0
    ensures var r := VisibleRange(scrollTop, itemHeight, containerHeight, totalItems, overscan);
      0 <= r.start && r.end <= totalItems - 1
    ensures var r := VisibleRange(scrollTop, itemHeight, containerHeight, totalItems, overscan);
      r.start * itemHeight <= Max(0, scrollTop - overscan * itemHeight) || r.start == 0
    ensures var r := VisibleRange(scrollTop, itemHeight, containerHeight, totalItems, overscan);
      r.start == 0 <==> scrollTop < (overscan + 1) * itemHeight
    ensures var r := VisibleRange(scrollTop, itemHeight, containerHeight, totalItems, overscan);
      r.start != 0 ==> (r.start + overscan) * itemHeight <= scrollTop < (r.start + overscan + 1) * itemHeight
  {
    var startIndex := FloorDiv(scrollTop, itemHeight);
    var r := VisibleRange(scrollTop, itemHeight, containerHeight, totalItems, overscan);
    if r.start != 0 {
      assert r.start == startIndex - overscan;
      assert r.start * itemHeight == startIndex * itemHeight - overscan * itemHeight;
    }
    FirstRowsBound(scrollTop, itemHeight, startIndex, overscan);
  }

  /** The row holding `scrollTop` is within the first `overscan + 1` rows
    * exactly when `scrollTop` is. */
  lemma FirstRowsBound(scrollTop: int, itemHeight: int, startIndex: int, overscan: int)
    requires itemHeight > 0 && startIndex * itemHeight <= scrollTop < startIndex * itemHeight + itemHeight
    ensures startIndex <= overscan <==> scrollTop < (overscan + 1) * itemHeight
  {
    assert startIndex * itemHeight + itemHeight == (startIndex + 1) * itemHeight;
    if startIndex <= overscan {
      MulMonotone(startIndex + 1, overscan + 1, itemHeight);
    } else {
      MulMonotone(overscan + 1, startIndex, itemHeight);
    }
  }

  /** One rendered row: the item and its index in the whole list. */
  datatype Row<T> = Row(item: T, index: int)

  /** `items.slice(start, end + 1).map((item, i) => ({ item, index: start + i }))`. */
  function VisibleItems<T>(items: seq<T>, range: Range): (rows: seq<Row<T>>)
  {
    Numbered(JsSlice(items, range.start, range.end + 1), range.start)
  }

  function Numbered<T>(s: seq<T>, from: int): (rows: seq<Row<T>>)
    ensures |rows| == |s|
    ensures forall i :: 0 <= i < |s| ==> rows[i] == Row(s[i], from + i)
  {
    if s == [] then [] else [Row(s[0], from)] + Numbered(s[1..], from + 1)
  }

  /** For a range within the list, each row holds the item at its index,
    * the indices run on from `start`, and there is one row per index of
    * the range. */
  lemma VisibleItemsAreSlice<T>(items: seq<T>, range: Range)
    requires 0 <= range.start && -1 <= range.end < |items|
    ensures var rows := VisibleItems(items, range);
      |rows| == (if range.start <= range.end then range.end + 1 - range.start else 0)
      && forall i :: 0 <= i < |rows| ==> rows[i].index == range.start + i && rows[i].item == items[range.start + i]
  {
    JsSliceInRange(items, range.start, range.end + 1);
  }

  /** With no items, a scroll position at or below the top and a container
    * of some height, nothing is rendered. */
  lemma NoItemsNoRows<T>(items: seq<T>, scrollTop: int, itemHeight: int, containerHeight: int, overscan: int)
    requires itemHeight > 0 && scrollTop >= 0 && containerHeight >= 0 && overscan >= 0
    ensures VisibleItems(items, VisibleRange(scrollTop, itemHeight, containerHeight, 0, overscan)) == []
  {
    var r := VisibleRange(scrollTop, itemHeight, containerHeight, 0, overscan);
    assert FloorDiv(scrollTop, itemHeight) >= 0;
    assert CeilDiv(containerHeight, itemHeight) >= 0;
    assert r.end == -1;
    assert SliceIndex(|items|, r.end + 1) == 0;
  }

  class VirtualScroll {
    const itemHeight: int
    const overscan: int
    const totalItems: int
    var scrollTop: int
    var containerHeight: int

    /** `new VirtualScroll(options)`: `overscan` defaults to 10 and
      * `totalItems` to 0. */
    constructor(itemHeight: int, overscan: Option<int>, totalItems: Option<int>)
      requires itemHeight > 0
      ensures this.itemHeight == itemHeight
      ensures this.overscan == overscan.GetOr(DefaultOverscan) && this.totalItems == totalItems.GetOr(DefaultTotalItems)
      ensures scrollTop == 0 && containerHeight == 0
    {
      this.itemHeight := itemHeight;
      this.overscan := overscan.GetOr(DefaultOverscan);
      this.totalItems := totalItems.GetOr(DefaultTotalItems);
      scrollTop := 0;
      containerHeight := 0;
    }

    /** The `scrollTop` setter, also run by the container's `onscroll`. */
    method SetScrollTop(v: int)
      modifies this
      ensures scrollTop == v && containerHeight == old(containerHeight)
    {
      scrollTop := v;
    }

    /** The container's `ElementSize` observing a new height. */
    method Resized(height: int)
      modifies this
      ensures containerHeight == height && scrollTop == old(scrollTop)
    {
      containerHeight := height;
    }

    /** The `scrollTop` getter. */
    method GetScrollTop() returns (v: int)
      ensures v == scrollTop
    {
      v := scrollTop;
    }

    function Range(): Range
      requires itemHeight > 0
      reads this
    {
      VisibleRange(scrollTop, itemHeight, containerHeight, totalItems, overscan)
    }

    /** `totalHeight`. */
    function TotalHeight(): int
      reads this
    {
      totalItems * itemHeight
    }

    /** `offsetY`: the height of the rows above the first rendered one. */
    function OffsetY(): int
      requires itemHeight > 0
      reads this
    {
      Range().start * itemHeight
    }

    /** `getVisibleItems(items)`. */
    function GetVisibleItems<T>(items: seq<T>): seq<Row<T>>
      requires itemHeight > 0
      reads this
    {
      VisibleItems(items, Range())
    }
  }

  /** Setting the scroll position and reading it back gives the value set. */
  method ScrollTopRoundTrip(v: VirtualScroll, top: int) returns (read: int)
    modifies v
    ensures read == top
  {
    v.SetScrollTop(top);
    read := v.GetScrollTop();
  }

  /** The rendered rows sit below the offset and within the total height:
    * `offsetY` is a whole number of rows, no more than the total height
    * when there are items. */
  lemma OffsetWithinHeight(scrollTop: int, itemHeight: int, containerHeight: int, totalItems: int, overscan: int)
    requires itemHeight > 0 && totalItems > 0
    requires VisibleRange(scrollTop, itemHeight, containerHeight, totalItems, overscan).start
      <= VisibleRange(scrollTop, itemHeight, containerHeight, totalItems, overscan).end
    ensures var r := VisibleRange(scrollTop, itemHeight, containerHeight, totalItems, overscan);
      0 <= r.start * itemHeight && (r.end + 1) * itemHeight <= totalItems * itemHeight
  {
    var r := VisibleRange(scrollTop, itemHeight, containerHeight, totalItems, overscan);
    RangeBounds(scrollTop, itemHeight, containerHeight, totalItems, overscan);
    MulMonotone(0, r.start, itemHeight);
    MulMonotone(r.end + 1, totalItems, itemHeight);
  }

  lemma MulMonotone(a: int, b: int, k: int)
    requires a <= b && k >= 0
    ensures a * k <= b * k
  {
    assert b * k - a * k == (b - a) * k;
  }
}
