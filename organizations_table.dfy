/** The admin organizations table: which rows are expanded and which page
    of rows is shown. */
module OrganizationsTable {

  // ---------------------------------------------------------------------------
  // Paging arithmetic

  /** `Math.ceil(n / size)` for a non-empty table, 0 for an empty one. */
  function PageCount(rowCount: nat, pageSize: nat): nat
    requires pageSize > 0
  {
    if rowCount > 0 then (rowCount + pageSize - 1) / pageSize else 0
  }

  /** The page count is the fewest pages of `pageSize` rows that hold every
      row. */
  lemma PageCountMeaning(rowCount: nat, pageSize: nat)
    requires pageSize > 0
    ensures rowCount == 0 <==> PageCount(rowCount, pageSize) == 0
    ensures rowCount > 0 ==> (PageCount(rowCount, pageSize) - 1) * pageSize < rowCount <= PageCount(rowCount, pageSize) * pageSize
  {
    if rowCount > 0 {
      var m := rowCount + pageSize - 1;
      var q := m / pageSize;
      assert m == q * pageSize + m % pageSize;
      assert (q - 1) * pageSize == q * pageSize - pageSize;
      assert q > 0;
    }
  }

  function CanPreviousPage(pageIndex: int): bool
  {
    pageIndex > 0
  }

  function CanNextPage(rowCount: nat, pageIndex: int, pageSize: nat): bool
    requires pageSize > 0
  {
    if rowCount > 0 then pageIndex < PageCount(rowCount, pageSize) - 1 else false
  }

  /** `previousPage`: one page back, never below the first. */
  function PreviousIndex(pageIndex: int): int
  {
    if pageIndex - 1 > 0 then pageIndex - 1 else 0
  }

  /** `nextPage`: one page on, never past the last (the first, for an empty
      table). */
  function NextIndex(rowCount: nat, pageIndex: int, pageSize: nat): int
    requires pageSize > 0
  {
    var last := if rowCount > 0 then PageCount(rowCount, pageSize) - 1 else 0;
    if last < pageIndex + 1 then last else pageIndex + 1
  }

  /** Moving back stays on a page, and moves exactly when the table says it
      can; moving on never passes the last page, and from a page of the
      table moves exactly when the table says it can, staying in the
      table. */
  lemma PagingMeaning(rowCount: nat, pageIndex: int, pageSize: nat)
    requires pageSize > 0
    ensures PreviousIndex(pageIndex) >= 0
    ensures pageIndex >= 0 ==> (CanPreviousPage(pageIndex) <==> PreviousIndex(pageIndex) == pageIndex - 1)
    ensures NextIndex(rowCount, pageIndex, pageSize) <= if PageCount(rowCount, pageSize) > 0 then PageCount(rowCount, pageSize) - 1 else 0
    ensures 0 <= pageIndex < PageCount(rowCount, pageSize) ==>
              && (CanNextPage(rowCount, pageIndex, pageSize) <==> NextIndex(rowCount, pageIndex, pageSize) == pageIndex + 1)
              && 0 <= NextIndex(rowCount, pageIndex, pageSize) < PageCount(rowCount, pageSize)
  {
    PageCountMeaning(rowCount, pageSize);
  }

  /** `Array.prototype.slice(start, end)`: a negative bound counts from the
      end, and both are clamped to the array. */
  function Slice<T>(xs: seq<T>, start: int, end: int): (r: seq<T>)
  {
    var s := if start < 0 then (if |xs| + start > 0 then |xs| + start else 0) else (if start < |xs| then start else |xs|);
    var e := if end < 0 then (if |xs| + end > 0 then |xs| + end else 0) else (if end < |xs| then end else |xs|);
    if s < e then xs[s..e] else []
  }

  /** The rows on the current page. */
  function VisibleRows<T>(rows: seq<T>, pageIndex: int, pageSize: nat): seq<T>
  {
    Slice(rows, pageIndex * pageSize, (pageIndex + 1) * pageSize)
  }

  /** A page shows at most `pageSize` rows; from the first page on, it shows
      the rows from `pageIndex * pageSize` up to the next page or the end,
      and nothing past the last page. */
  lemma VisibleRowsMeaning<T>(rows: seq<T>, pageIndex: int, pageSize: nat)
    ensures |VisibleRows(rows, pageIndex, pageSize)| <= pageSize
    ensures pageIndex >= 0 && pageIndex * pageSize < |rows| ==>
              var start := pageIndex * pageSize;
              VisibleRows(rows, pageIndex, pageSize)
              == rows[start..if start + pageSize < |rows| then start + pageSize else |rows|]
    ensures pageIndex >= 0 && pageIndex * pageSize >= |rows| ==> VisibleRows(rows, pageIndex, pageSize) == []
  {
    assert (pageIndex + 1) * pageSize == pageIndex * pageSize + pageSize;
    if pageIndex >= 0 {
      assert pageIndex * pageSize >= 0;
    }
  }

  // ---------------------------------------------------------------------------
  // Expanded rows

  /** `toggleExpand` on the set of expanded organizations. */
  function Toggled(expanded: set<string>, orgId: string): set<string>
  {
    if orgId in expanded then expanded - {orgId} else expanded + {orgId}
  }

  /** Toggling flips the one organization, leaves every other as it was, and
      toggling again restores the set. */
  lemma ToggleMeaning(expanded: set<string>, orgId: string)
    ensures orgId in Toggled(expanded, orgId) <==> orgId !in expanded
    ensures forall other :: other != orgId ==> (other in Toggled(expanded, orgId) <==> other in expanded)
    ensures Toggled(Toggled(expanded, orgId), orgId) == expanded
  {
  }

  // ---------------------------------------------------------------------------
  // The table's state

  class Table {
    var expandedOrgs: set<string>
    var pageIndex: int
    var pageSize: nat

    predicate Valid()
      reads this
    {
      pageSize > 0
    }

    /** Nothing expanded, first page, 50 rows a page. */
    constructor()
      ensures Valid()
      ensures expandedOrgs == {} && pageIndex == 0 && pageSize == 50
    {
      expandedOrgs := {};
      pageIndex := 0;
      pageSize := 50;
    }

    method ToggleExpand(orgId: string)
      modifies this
      ensures expandedOrgs == Toggled(old(expandedOrgs), orgId)
      ensures pageIndex == old(pageIndex) && pageSize == old(pageSize)
    {
      var newExpanded := expandedOrgs;
      if orgId in newExpanded {
        newExpanded := newExpanded - {orgId};
      } else {
        newExpanded := newExpanded + {orgId};
      }
      expandedOrgs := newExpanded;
    }

    /** `setPageIndex`: only the page index changes. */
    method SetPageIndex(index: int)
      modifies this
      ensures pageIndex == index
      ensures pageSize == old(pageSize) && expandedOrgs == old(expandedOrgs)
    {
      pageIndex := index;
    }

    method PreviousPage()
      modifies this
      ensures pageIndex == PreviousIndex(old(pageIndex))
      ensures pageSize == old(pageSize) && expandedOrgs == old(expandedOrgs)
    {
      pageIndex := PreviousIndex(pageIndex);
    }

    method NextPage(rowCount: nat)
      requires Valid()
      modifies this
      ensures pageSize == old(pageSize) && expandedOrgs == old(expandedOrgs)
      ensures pageIndex == NextIndex(rowCount, old(pageIndex), pageSize)
    {
      pageIndex := NextIndex(rowCount, pageIndex, pageSize);
    }
  }
}
