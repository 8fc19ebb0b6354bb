// The FAQ section: the items of the FAQ document sorted by their `order`,
// and the one item whose answer is open (the first at the start, none after
// it is closed).
module FaqSection {
  import opened Wrappers
  import opened Sequences
  import opened Sorting

  /** An entry of the FAQ document's `items`. */
  datatype FaqItem = FaqItem(id: string, order: int, question: string, answer: string)

  function OrderOf(item: FaqItem): int
  {
    item.order
  }

  /** `[...(faqData.items || [])].sort((a, b) => a.order - b.order)`: a
      sorted copy of the items, empty when the document has none. */
  function SortedItems(items: Option<seq<FaqItem>>): (r: seq<FaqItem>)
    ensures items.None? ==> r == []
    ensures items.Some? ==> SortedBy(r, OrderOf) && multiset(r) == multiset(items.value)
  {
    if items.None? then [] else SortBy(items.value, OrderOf)
  }

  /** Items of equal order are listed as the document lists them. */
  lemma SortedItemsStable(items: seq<FaqItem>, k: int)
    ensures Filter(SortedItems(Some(items)), HasKey(OrderOf, k)) == Filter(items, HasKey(OrderOf, k))
  {
    SortStable(items, OrderOf, k);
  }

  /** `openItem === index ? -1 : index`: clicking the open item closes it,
      clicking any other item opens that one. */
  function Toggled(openItem: int, index: int): (r: int)
    ensures r == -1 || r == index
    ensures r == index <==> openItem != index || index == -1
  {
    if openItem == index then -1 else index
  }

  /** Clicking one item twice puts it back as it was: an item that was
      open is open again, and one that was closed is closed again. */
  lemma ToggleTwice(openItem: int, index: int)
    requires index != -1
    ensures Toggled(Toggled(openItem, index), index) == index <==> openItem == index
  {
  }

  /** The `aria-expanded` of the rendered buttons, by position. */
  function AriaExpanded(openItem: int, n: nat): (r: seq<bool>)
    ensures |r| == n && forall i :: 0 <= i < n ==> (r[i] <==> i == openItem)
  {
    seq(n, i => i == openItem)
  }

  function CountTrue(s: seq<bool>): nat
  {
    if s == [] then 0 else (if s[|s| - 1] then 1 else 0) + CountTrue(s[..|s| - 1])
  }

  /** Exactly one answer is open while the open index names an item, and
      none once it is closed. */
  lemma {:induction false} OneOpen(openItem: int, n: nat)
    ensures CountTrue(AriaExpanded(openItem, n)) == if 0 <= openItem < n then 1 else 0
  {
    if n > 0 {
      var r := AriaExpanded(openItem, n);
      assert r[..n - 1] == AriaExpanded(openItem, n - 1);
      OneOpen(openItem, n - 1);
    }
  }

  /** What the section shows: a loading text while the document loads,
      otherwise the sorted items with the expanded flag of each. A failed
      load is not told apart: the section then shows the items of the
      initial document, of which there are none. */
  datatype View = Loading | Items(items: seq<FaqItem>, expanded: seq<bool>)

  function Render(loading: bool, items: Option<seq<FaqItem>>, openItem: int): (v: View)
    ensures loading <==> v.Loading?
    ensures v.Items? ==> v.items == SortedItems(items) && |v.expanded| == |v.items|
  {
    if loading then Loading
    else
      var sorted := SortedItems(items);
      Items(sorted, AriaExpanded(openItem, |sorted|))
  }

  /** The section's state. */
  class FaqState {
    var openItem: int

    /** The first item starts open. */
    constructor ()
      ensures openItem == 0
    {
      openItem := 0;
    }

    /** `toggleItem(index)`. */
    method Toggle(index: int)
      modifies this
      ensures openItem == Toggled(old(openItem), index)
    {
      if openItem == index {
        openItem := -1;
      } else {
        openItem := index;
      }
    }
  }
}
