/**
 * The useLayoutEffect page: a responsive column count computed from the container's
 * width, a list whose "Add Item" button appends numbered labels while a layout effect
 * keeps the scroll position, and an expandable box. DOM measurements (`clientWidth`,
 * `scrollTop`, `scrollHeight`) are integer inputs of the events that read them.
 */
module LayoutEffectExamples {
  import opened Wrappers
  import opened Text

  // ---------------------------------------------------------------- columns

  /** Each column wants this many pixels of container width. */
  const ColumnWidth: nat := 200

  /** `calculateColumns`: `Math.max(1, Math.floor(containerWidth / 200))`. */
  function Columns(clientWidth: nat): (c: int)
    ensures c >= 1
    ensures c * ColumnWidth <= clientWidth || c == 1
    ensures clientWidth < (c + 1) * ColumnWidth
  {
    var fit := clientWidth / ColumnWidth;
    if 1 > fit then 1 else fit
  }

  /** A wider container never has fewer columns. */
  lemma ColumnsMonotone(w1: nat, w2: nat)
    requires w1 <= w2
    ensures Columns(w1) <= Columns(w2)
  {
    assert (w1 / ColumnWidth) * ColumnWidth <= w1;
    assert w2 < (w2 / ColumnWidth + 1) * ColumnWidth;
  }

  /** The column card's `columns` cell. */
  class ColumnsCard {
    var columns: int

    /** `useState(1)`, before the mount's layout effect measures the container. */
    constructor ()
      ensures columns == 1
    {
      columns := 1;
    }

    /** `calculateColumns`, run by the layout effect on mount and on every window resize. */
    method CalculateColumns(clientWidth: nat)
      modifies this
      ensures columns == Columns(clientWidth) && columns >= 1
    {
      var fit := clientWidth / ColumnWidth;
      columns := if 1 > fit then 1 else fit;
    }
  }

  // ---------------------------------------------------------------- item list

  /** The label of the n-th item, `Item ${n}`. */
  function ItemLabel(n: nat): (text: string)
    ensures |text| > 5 && text[..5] == "Item "
    ensures AllDigits(text[5..]) && ParseDecimal(text[5..]) == n
  {
    ParsePrinted(n);
    var text := "Item " + NatToString(n);
    assert text[5..] == NatToString(n);
    text
  }

  const InitialItems: seq<string> := ["Item 1", "Item 2", "Item 3"]

  /** Item k (counting from 0) reads "Item k+1". */
  predicate Numbered(items: seq<string>) {
    forall k :: 0 <= k < |items| ==> items[k] == ItemLabel(k + 1)
  }

  /** The updater `prev => [...prev, `Item ${prev.length + 1}`]`. */
  function AddItem(items: seq<string>): (r: seq<string>)
    ensures |r| == |items| + 1 && r[..|items|] == items
    ensures Numbered(items) ==> Numbered(r)
  {
    items + [ItemLabel(|items| + 1)]
  }

  lemma InitialNumbered()
    ensures Numbered(InitialItems)
  {
    assert ItemLabel(1) == "Item 1" && ItemLabel(2) == "Item 2" && ItemLabel(3) == "Item 3";
  }

  /** The list after `n` clicks on "Add Item". */
  function AddItems(items: seq<string>, n: nat): (r: seq<string>)
    ensures |r| == |items| + n
    ensures Numbered(items) ==> Numbered(r)
  {
    if n == 0 then items else AddItem(AddItems(items, n - 1))
  }

  /** After any number of clicks the list holds Item 1..Item (3+n). */
  lemma ItemsAfterClicks(n: nat)
    ensures |AddItems(InitialItems, n)| == 3 + n && Numbered(AddItems(InitialItems, n))
  {
    InitialNumbered();
  }

  /** Numbered labels are pairwise distinct. */
  lemma NumberedDistinct(items: seq<string>, i: nat, j: nat)
    requires Numbered(items) && i < |items| && j < |items| && items[i] == items[j]
    ensures i == j
  {
    assert ItemLabel(i + 1)[5..] == ItemLabel(j + 1)[5..];
  }

  // ---------------------------------------------------------------- scroll preservation

  /** The correction the effect's cleanup applies: the content grew by `newHeight - oldHeight`. */
  function CorrectedTop(oldTop: int, oldHeight: int, newHeight: int): (top: int)
    ensures newHeight - top == oldHeight - oldTop
  {
    oldTop + (newHeight - oldHeight)
  }

  /**
   * The list card: the `items` cell and the list element's `scrollTop` and `scrollHeight`,
   * with the `(scrollTop, scrollHeight)` the latest layout effect captured for its cleanup.
   */
  class ScrollList {
    var items: seq<string>
    var scrollTop: int
    var scrollHeight: int
    var captured: Option<(int, int)>

    ghost predicate Valid()
      reads this
    {
      Numbered(items)
    }

    /** Mount: the three initial items, then the effect captures the element's measurements. */
    constructor (height: int)
      ensures items == InitialItems && Valid()
      ensures scrollTop == 0 && scrollHeight == height && captured == Some((0, height))
    {
      InitialNumbered();
      items := InitialItems;
      scrollTop, scrollHeight := 0, height;
      captured := Some((scrollTop, scrollHeight));
    }

    /** The user scrolls the list; React state is untouched. */
    method UserScroll(top: int)
      modifies this
      ensures scrollTop == top
      ensures items == old(items) && scrollHeight == old(scrollHeight) && captured == old(captured)
    {
      scrollTop := top;
    }

    /**
     * "Add Item": append the next label; after the DOM update the list measures `newHeight`;
     * the previous effect's cleanup shifts `scrollTop` by the growth since its capture, and the
     * new effect captures the result.
     */
    method AddItemClick(newHeight: int)
      requires Valid()
      modifies this
      ensures items == AddItem(old(items)) && Valid()
      ensures scrollHeight == newHeight
      ensures old(captured).Some? ==>
        scrollTop == CorrectedTop(old(captured).value.0, old(captured).value.1, newHeight)
      ensures old(captured).None? ==> scrollTop == old(scrollTop)
      ensures captured == Some((scrollTop, scrollHeight))
    {
      items := items + [ItemLabel(|items| + 1)];
      scrollHeight := newHeight;
      if captured.Some? {
        var (top, height) := captured.value;
        scrollTop := top + (scrollHeight - height);
      }
      captured := Some((scrollTop, scrollHeight));
    }
  }

  // ---------------------------------------------------------------- expandable box

  /**
   * The expand card: the `isExpanded` cell and the box's styled width and height in
   * pixels, which the render derives from it.
   */
  class ExpandCard {
    var isExpanded: bool
    var width: int
    var height: int

    /** The styled size is 300×200 while expanded and 150×100 while collapsed. */
    ghost predicate Valid()
      reads this
    {
      (width, height) == if isExpanded then (300, 200) else (150, 100)
    }

    constructor ()
      ensures !isExpanded && width == 150 && height == 100 && Valid()
    {
      isExpanded := false;
      width, height := 150, 100;
    }

    /** The Expand/Collapse button: `setIsExpanded(!isExpanded)`, then the re-render restyles the box. */
    method Toggle()
      requires Valid()
      modifies this
      ensures isExpanded == !old(isExpanded) && Valid()
      ensures old(isExpanded) ==> width == 150 && height == 100
      ensures !old(isExpanded) ==> width == 300 && height == 200
    {
      isExpanded := !isExpanded;
      if isExpanded {
        width, height := 300, 200;
      } else {
        width, height := 150, 100;
      }
    }
  }
}
