/** frontend/src/components/ui/sidebar/sidebar.tsx (`Sidebar`): a collapsible menu
    that shows its items seven at a time, with an up and a down control when there
    are more than seven. */
module Sidebar {
  const ItemsPerPage: nat := 7

  /** `Math.ceil(items.length / itemsPerPage)`. */
  function TotalPages(n: nat): (pages: nat)
    ensures pages * ItemsPerPage >= n
    ensures pages == 0 || (pages - 1) * ItemsPerPage < n
    ensures pages == 0 <==> n == 0
  {
    (n + ItemsPerPage - 1) / ItemsPerPage
  }

  /** `items.slice(start, start + itemsPerPage)` with `start = page * itemsPerPage`;
      `slice` clips both ends to the list. */
  function VisibleItems<T>(items: seq<T>, page: nat): (visible: seq<T>)
    ensures |visible| <= ItemsPerPage
    ensures visible == [] <==> page >= TotalPages(|items|)
    ensures page * ItemsPerPage + |visible| <= |items| || visible == []
    ensures forall i :: 0 <= i < |visible| ==> visible[i] == items[page * ItemsPerPage + i]
  {
    var start := page * ItemsPerPage;
    if start >= |items| then []
    else if start + ItemsPerPage <= |items| then items[start..start + ItemsPerPage]
    else items[start..]
  }

  /** `showPagination`. */
  predicate ShowPagination(n: nat)
    ensures ShowPagination(n) <==> TotalPages(n) >= 2
  {
    n > ItemsPerPage
  }

  /** The first `k` pages, one after the other. */
  function Pages<T>(items: seq<T>, k: nat): seq<T>
  {
    if k == 0 then [] else Pages(items, k - 1) + VisibleItems(items, k - 1)
  }

  /** The first `k` pages are exactly the first `7k` items (clipped). */
  lemma {:induction false} PagesArePrefix<T>(items: seq<T>, k: nat)
    ensures k * ItemsPerPage <= |items| ==> Pages(items, k) == items[..k * ItemsPerPage]
    ensures k * ItemsPerPage > |items| ==> Pages(items, k) == items
  {
    if k > 0 {
      PagesArePrefix(items, k - 1);
      var start := (k - 1) * ItemsPerPage;
      if start >= |items| {
        assert Pages(items, k - 1) == items;
      } else if start + ItemsPerPage <= |items| {
        assert items[..start] + items[start..start + ItemsPerPage] == items[..start + ItemsPerPage];
      } else {
        assert items[..start] + items[start..] == items;
      }
    }
  }

  /** The pages partition the list: read in order, they give back every item once and
      in order, and each page holds at most seven. */
  lemma PagesPartitionItems<T>(items: seq<T>)
    ensures Pages(items, TotalPages(|items|)) == items
  {
    var k := TotalPages(|items|);
    PagesArePrefix(items, k);
    if k * ItemsPerPage <= |items| {
      assert items[..k * ItemsPerPage] == items;
    }
  }

  /** The down control as written: `setCurrentPage(prev => prev + 1)` on every click;
      the "disabled" class only changes its look. */
  function NextPageAsWritten(page: int): (next: int)
    ensures next > page
    ensures forall n: nat :: TotalPages(n) <= page + 1 ==> next >= TotalPages(n)
  {
    page + 1
  }

  /** With eight items there are two pages; a click on the down control on the last
      page moves to a third page that shows nothing. */
  lemma PageDownOverrunsAsWritten<T>(items: seq<T>)
    requires |items| == 8
    ensures ShowPagination(|items|) && TotalPages(|items|) == 2
    ensures NextPageAsWritten(1) == 2 && VisibleItems(items, NextPageAsWritten(1)) == []
  {
  }

  /** The down control as its styling intends: it moves only while a later page
      exists. */
  function NextPage(page: int, n: nat): (next: int)
    ensures next == page + 1 <==> page < TotalPages(n) - 1
    ensures next != page + 1 ==> next == page
    ensures 0 <= page < TotalPages(n) ==> 0 <= next < TotalPages(n)
  {
    if page < TotalPages(n) - 1 then page + 1 else page
  }

  /** The corrected control never leaves the pages, so the menu never goes blank. */
  lemma NextPageStaysOnAPage<T>(items: seq<T>, page: nat)
    requires page < TotalPages(|items|)
    ensures 0 <= NextPage(page, |items|) < TotalPages(|items|)
    ensures NextPage(page, |items|) == page + 1 <==> page < TotalPages(|items|) - 1
    ensures VisibleItems(items, NextPage(page, |items|)) != []
  {
  }

  class SidebarState {
    const itemCount: nat
    var expanded: bool
    var currentPage: int

    /** The page is never negative: the up control is the only step down, and it is
        guarded. */
    predicate Valid()
      reads this
    {
      0 <= currentPage
    }

    /** The page is a real page, or page 0 of an empty menu. */
    predicate OnAPage()
      reads this
    {
      currentPage == 0 || currentPage < TotalPages(itemCount)
    }

    constructor (itemCount: nat)
      ensures this.itemCount == itemCount && Valid() && OnAPage() && !expanded && currentPage == 0
    {
      this.itemCount := itemCount;
      expanded := false;
      currentPage := 0;
    }

    /** The items on the current page: empty exactly past the last page, so on a real
        page the menu shows something exactly when there are items. */
    function Visible<T>(items: seq<T>): (visible: seq<T>)
      reads this
      requires Valid() && |items| == itemCount
      ensures visible == [] <==> currentPage >= TotalPages(itemCount)
      ensures OnAPage() ==> (visible != [] <==> items != [])
      ensures visible != [] ==> currentPage * ItemsPerPage + |visible| <= |items|
      ensures forall i :: 0 <= i < |visible| ==> visible[i] == items[currentPage * ItemsPerPage + i]
    {
      VisibleItems(items, currentPage)
    }

    /** The menu icon. */
    method ToggleMenu()
      modifies this
      ensures expanded == !old(expanded) && currentPage == old(currentPage)
    {
      expanded := !expanded;
    }

    /** The close icon. */
    method Close()
      modifies this
      ensures !expanded && currentPage == old(currentPage)
    {
      expanded := false;
    }

    /** The up control (shown only with more than seven items): it steps back only
        from a page after the first, and from the blank page past the last it comes
        back to the last page. */
    method PageUp()
      modifies this
      requires Valid() && ShowPagination(itemCount)
      ensures Valid()
      ensures currentPage == (if old(currentPage) > 0 then old(currentPage) - 1 else old(currentPage))
      ensures old(currentPage) <= TotalPages(itemCount) ==> OnAPage()
      ensures expanded == old(expanded)
    {
      if currentPage > 0 {
        currentPage := currentPage - 1;
      }
    }

    /** The down control as written (shown only with more than seven items): every
        click moves one page on, past the last page too. */
    method PageDownAsWritten()
      modifies this
      requires Valid() && ShowPagination(itemCount)
      ensures Valid()
      ensures currentPage == NextPageAsWritten(old(currentPage))
      ensures old(currentPage) == TotalPages(itemCount) - 1 ==> !OnAPage()
      ensures expanded == old(expanded)
    {
      currentPage := NextPageAsWritten(currentPage);
    }

    /** The down control with the guard its styling implies: it keeps the page on a
        real page. */
    method PageDown()
      modifies this
      requires Valid() && ShowPagination(itemCount)
      ensures Valid()
      ensures old(OnAPage()) ==> OnAPage()
      ensures currentPage == NextPage(old(currentPage), itemCount)
      ensures expanded == old(expanded)
    {
      currentPage := NextPage(currentPage, itemCount);
    }
  }
}
