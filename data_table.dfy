/**
 * The generic table of src/components/ui/DataTable.tsx: click-to-sort on a
 * column (nulls last in either direction), a stable sort, and paging with
 * first / previous / next / last buttons and a "Showing a to b of n" footer.
 *
 * A row's value in a column is given by `cellOf(row, column)`: `Missing` for
 * null or undefined, otherwise the value's place in the order JavaScript's
 * `<` puts the column's values in.
 */
module DataTable {
  import opened Common

  datatype SortDirection = Asc | Desc
  datatype Cell = Missing | Present(rank: int)

  const DefaultPageSize := 10

  // ---------------------------------------------------------------------
  // The comparator
  // ---------------------------------------------------------------------

  /** The comparator on two cells of the sort column: equal cells tie, a missing
      cell sorts after a present one whichever the direction, and present cells
      compare by `<`, reversed for a descending sort. */
  function CompareCells(x: Cell, y: Cell, dir: SortDirection): (r: int)
    ensures r == 0 <==> x == y
    ensures x.Missing? && y.Present? ==> r == 1
    ensures x.Present? && y.Missing? ==> r == -1
    ensures x.Present? && y.Present? && x != y ==>
              r == (if (x.rank < y.rank) == (dir == Asc) then -1 else 1)
  {
    if x == y then 0
    else if x.Missing? then 1
    else if y.Missing? then -1
    else
      var comparison := if x.rank < y.rank then -1 else 1;
      if dir == Asc then comparison else -comparison
  }

  /** Reversing the arguments reverses the answer. */
  lemma CompareCellsAntisymmetric(x: Cell, y: Cell, dir: SortDirection)
    ensures CompareCells(x, y, dir) == -CompareCells(y, x, dir)
  {
  }

  /** "Sorts no later than" is transitive, so the comparator is a total preorder. */
  lemma CompareCellsTransitive(x: Cell, y: Cell, z: Cell, dir: SortDirection)
    requires CompareCells(x, y, dir) <= 0 && CompareCells(y, z, dir) <= 0
    ensures CompareCells(x, z, dir) <= 0
  {
  }

  /** A column is chosen when `sortColumn` is set and not the empty string. */
  predicate Sorting(sortColumn: Option<string>)
  {
    sortColumn.Some? && sortColumn.value != ""
  }

  /** The row comparator handed to `Array.prototype.sort`. */
  function RowComparator<T>(cellOf: (T, string) -> Cell, sortColumn: Option<string>, dir: SortDirection): (T, T) -> int
  {
    (a: T, b: T) =>
      if !Sorting(sortColumn) then 0
      else CompareCells(cellOf(a, sortColumn.value), cellOf(b, sortColumn.value), dir)
  }

  // ---------------------------------------------------------------------
  // A stable sort by a comparator
  // ---------------------------------------------------------------------

  ghost predicate TotalPreorder<T(!new)>(cmp: (T, T) -> int)
  {
    (forall a, b :: cmp(a, b) <= 0 || cmp(b, a) <= 0) &&
    (forall a, b, c :: cmp(a, b) <= 0 && cmp(b, c) <= 0 ==> cmp(a, c) <= 0)
  }

  predicate SortedBy<T>(s: seq<T>, cmp: (T, T) -> int)
  {
    forall i, j | 0 <= i < j < |s| :: cmp(s[i], s[j]) <= 0
  }

  lemma RowComparatorIsPreorder<T(!new)>(cellOf: (T, string) -> Cell, sortColumn: Option<string>, dir: SortDirection)
    ensures TotalPreorder(RowComparator(cellOf, sortColumn, dir))
  {
    var cmp := RowComparator(cellOf, sortColumn, dir);
    forall a, b ensures cmp(a, b) <= 0 || cmp(b, a) <= 0 {
      if Sorting(sortColumn) {
        CompareCellsAntisymmetric(cellOf(a, sortColumn.value), cellOf(b, sortColumn.value), dir);
      }
    }
    forall a, b, c | cmp(a, b) <= 0 && cmp(b, c) <= 0 ensures cmp(a, c) <= 0 {
      if Sorting(sortColumn) {
        var col := sortColumn.value;
        CompareCellsTransitive(cellOf(a, col), cellOf(b, col), cellOf(c, col), dir);
      }
    }
  }

  /** Puts `x` before the first element it sorts no later than. */
  function Insert<T>(x: T, s: seq<T>, cmp: (T, T) -> int): (r: seq<T>)
    ensures multiset(r) == multiset(s) + multiset{x}
    decreases |s|
  {
    if |s| == 0 then [x]
    else if cmp(x, s[0]) <= 0 then [x] + s
    else
      assert s == [s[0]] + s[1..];
      [s[0]] + Insert(x, s[1..], cmp)
  }

  /** Insertion sort: keeps the original order among ties, as `Array.prototype.sort` does. */
  function SortBy<T>(s: seq<T>, cmp: (T, T) -> int): (r: seq<T>)
    ensures multiset(r) == multiset(s)
    decreases |s|
  {
    if |s| == 0 then []
    else
      assert s == [s[0]] + s[1..];
      Insert(s[0], SortBy(s[1..], cmp), cmp)
  }

  lemma ConsSorted<T>(y: T, s: seq<T>, cmp: (T, T) -> int)
    requires SortedBy(s, cmp) && forall j | 0 <= j < |s| :: cmp(y, s[j]) <= 0
    ensures SortedBy([y] + s, cmp)
  {
    var r := [y] + s;
    forall i, j | 0 <= i < j < |r| ensures cmp(r[i], r[j]) <= 0 {
      if i == 0 {
        assert r[j] == s[j - 1];
      } else {
        assert r[i] == s[i - 1] && r[j] == s[j - 1];
      }
    }
  }

  /** Inserting keeps every element above a common lower bound. */
  lemma {:induction false} InsertLowerBound<T>(y: T, x: T, s: seq<T>, cmp: (T, T) -> int)
    requires cmp(y, x) <= 0 && forall j | 0 <= j < |s| :: cmp(y, s[j]) <= 0
    ensures forall j | 0 <= j < |Insert(x, s, cmp)| :: cmp(y, Insert(x, s, cmp)[j]) <= 0
    decreases |s|
  {
    if |s| > 0 && cmp(x, s[0]) > 0 {
      InsertLowerBound(y, x, s[1..], cmp);
      var rest := Insert(x, s[1..], cmp);
      var r := [s[0]] + rest;
      assert r == Insert(x, s, cmp);
      forall j | 0 <= j < |r| ensures cmp(y, r[j]) <= 0 {
        if j > 0 {
          assert r[j] == rest[j - 1];
        }
      }
    } else if |s| > 0 {
      var r := [x] + s;
      forall j | 0 <= j < |r| ensures cmp(y, r[j]) <= 0 {
        if j > 0 {
          assert r[j] == s[j - 1];
        }
      }
    }
  }

  lemma {:induction false} InsertSorted<T(!new)>(x: T, s: seq<T>, cmp: (T, T) -> int)
    requires TotalPreorder(cmp) && SortedBy(s, cmp)
    ensures SortedBy(Insert(x, s, cmp), cmp)
    decreases |s|
  {
    if |s| == 0 {
    } else if cmp(x, s[0]) <= 0 {
      forall j | 0 <= j < |s| ensures cmp(x, s[j]) <= 0 {
        if j > 0 {
          assert cmp(s[0], s[j]) <= 0;
        }
      }
      ConsSorted(x, s, cmp);
    } else {
      assert cmp(s[0], x) <= 0;
      var tail := s[1..];
      assert SortedBy(tail, cmp) by {
        forall i, j | 0 <= i < j < |tail| ensures cmp(tail[i], tail[j]) <= 0 {
          assert cmp(s[i + 1], s[j + 1]) <= 0;
        }
      }
      forall j | 0 <= j < |tail| ensures cmp(s[0], tail[j]) <= 0 {
        assert cmp(s[0], s[j + 1]) <= 0;
      }
      InsertSorted(x, tail, cmp);
      InsertLowerBound(s[0], x, tail, cmp);
      ConsSorted(s[0], Insert(x, tail, cmp), cmp);
    }
  }

  /** With a total preorder the sort's result is ordered. */
  lemma {:induction false} SortBySorted<T(!new)>(s: seq<T>, cmp: (T, T) -> int)
    requires TotalPreorder(cmp)
    ensures SortedBy(SortBy(s, cmp), cmp)
    decreases |s|
  {
    if |s| > 0 {
      SortBySorted(s[1..], cmp);
      InsertSorted(s[0], SortBy(s[1..], cmp), cmp);
    }
  }

  /** A comparator that ties everything leaves the order alone. */
  lemma {:induction false} SortByAllTiesKeepsOrder<T(!new)>(s: seq<T>, cmp: (T, T) -> int)
    requires forall a, b :: cmp(a, b) == 0
    ensures SortBy(s, cmp) == s
    decreases |s|
  {
    if |s| > 0 {
      SortByAllTiesKeepsOrder(s[1..], cmp);
      assert [s[0]] + s[1..] == s;
    }
  }

  /** The elements that tie with `y` under `cmp`: sorted no later than it and it no later than them. */
  function TiesWith<T>(cmp: (T, T) -> int, y: T): T -> bool
  {
    (z: T) => cmp(z, y) <= 0 && cmp(y, z) <= 0
  }

  /** Inserting `x` leaves the relative order of each class of tied elements as
      if `x` had been put in front. */
  lemma {:induction false} InsertKeepsTieOrder<T(!new)>(x: T, s: seq<T>, cmp: (T, T) -> int, y: T)
    requires TotalPreorder(cmp)
    ensures KeepIf(Insert(x, s, cmp), TiesWith(cmp, y)) == KeepIf([x] + s, TiesWith(cmp, y))
    decreases |s|
  {
    var p := TiesWith(cmp, y);
    if |s| > 0 && cmp(x, s[0]) > 0 {
      InsertKeepsTieOrder(x, s[1..], cmp, y);
      if p(x) {
        TieClassIsContiguous(x, s[0], cmp, y);
      }
      InsertStepKeepsFilter(x, s, cmp, p);
    } else if |s| == 0 {
      assert [x] + s == [x];
    }
  }

  /** The step of `InsertKeepsTieOrder` past the head of `s`, for any filter that does
      not keep both `x` and the head. */
  lemma InsertStepKeepsFilter<T(!new)>(x: T, s: seq<T>, cmp: (T, T) -> int, p: T -> bool)
    requires |s| > 0 && cmp(x, s[0]) > 0 && !(p(x) && p(s[0]))
    requires KeepIf(Insert(x, s[1..], cmp), p) == KeepIf([x] + s[1..], p)
    ensures KeepIf(Insert(x, s, cmp), p) == KeepIf([x] + s, p)
  {
    var tail := s[1..];
    assert [s[0]] + tail == s;
    KeepIfCons(s[0], Insert(x, tail, cmp), p);
    KeepIfCons(x, tail, p);
    KeepIfCons(x, s, p);
    KeepIfCons(s[0], tail, p);
  }

  /** An element that sorts strictly after a member of a tie class is not in it. */
  lemma TieClassIsContiguous<T(!new)>(x: T, a: T, cmp: (T, T) -> int, y: T)
    requires TotalPreorder(cmp)
    requires TiesWith(cmp, y)(x) && cmp(x, a) > 0
    ensures !TiesWith(cmp, y)(a)
  {
  }

  /** The sort is stable: elements that tie keep the order they had. */
  lemma {:induction false} SortByStable<T(!new)>(s: seq<T>, cmp: (T, T) -> int, y: T)
    requires TotalPreorder(cmp)
    ensures KeepIf(SortBy(s, cmp), TiesWith(cmp, y)) == KeepIf(s, TiesWith(cmp, y))
    decreases |s|
  {
    if |s| > 0 {
      var p := TiesWith(cmp, y);
      SortByStable(s[1..], cmp, y);
      InsertKeepsTieOrder(s[0], SortBy(s[1..], cmp), cmp, y);
      KeepIfAppend([s[0]], SortBy(s[1..], cmp), p);
      KeepIfAppend([s[0]], s[1..], p);
      assert [s[0]] + s[1..] == s;
    }
  }

  /** `const sortedData = [...data].sort(comparator)`. */
  function SortedData<T>(data: seq<T>, cellOf: (T, string) -> Cell, sortColumn: Option<string>, dir: SortDirection): seq<T>
  {
    SortBy(data, RowComparator(cellOf, sortColumn, dir))
  }

  /** The sorted rows are the rows rearranged; with a column chosen, ordered by it,
      rows with a missing value after all the others; with none, in their order. */
  lemma SortedDataSpec<T(!new)>(data: seq<T>, cellOf: (T, string) -> Cell, sortColumn: Option<string>, dir: SortDirection)
    ensures multiset(SortedData(data, cellOf, sortColumn, dir)) == multiset(data)
    ensures !Sorting(sortColumn) ==> SortedData(data, cellOf, sortColumn, dir) == data
    ensures Sorting(sortColumn) ==>
              var r := SortedData(data, cellOf, sortColumn, dir);
              forall i, j | 0 <= i < j < |r| ::
                CompareCells(cellOf(r[i], sortColumn.value), cellOf(r[j], sortColumn.value), dir) <= 0
    ensures Sorting(sortColumn) ==>
              var r := SortedData(data, cellOf, sortColumn, dir);
              forall i, j | 0 <= i < j < |r| ::
                !(cellOf(r[i], sortColumn.value).Missing? && cellOf(r[j], sortColumn.value).Present?)
  {
    var cmp := RowComparator(cellOf, sortColumn, dir);
    RowComparatorIsPreorder(cellOf, sortColumn, dir);
    SortBySorted(data, cmp);
    if !Sorting(sortColumn) {
      SortByAllTiesKeepsOrder(data, cmp);
    } else {
      var r := SortedData(data, cellOf, sortColumn, dir);
      forall i, j | 0 <= i < j < |r|
        ensures CompareCells(cellOf(r[i], sortColumn.value), cellOf(r[j], sortColumn.value), dir) <= 0
      {
        assert cmp(r[i], r[j]) <= 0;
      }
    }
  }

  /** Rows whose sort-column values are equal keep the order they had in `data`. */
  lemma SortedDataStable<T(!new)>(data: seq<T>, cellOf: (T, string) -> Cell, sortColumn: Option<string>, dir: SortDirection, y: T)
    ensures var ties := TiesWith(RowComparator(cellOf, sortColumn, dir), y);
            KeepIf(SortedData(data, cellOf, sortColumn, dir), ties) == KeepIf(data, ties)
    ensures Sorting(sortColumn) ==>
              forall x :: TiesWith(RowComparator(cellOf, sortColumn, dir), y)(x) <==>
                          cellOf(x, sortColumn.value) == cellOf(y, sortColumn.value)
  {
    var cmp := RowComparator(cellOf, sortColumn, dir);
    RowComparatorIsPreorder(cellOf, sortColumn, dir);
    SortByStable(data, cmp, y);
    if Sorting(sortColumn) {
      forall x ensures TiesWith(cmp, y)(x) <==> cellOf(x, sortColumn.value) == cellOf(y, sortColumn.value) {
        CompareCellsAntisymmetric(cellOf(x, sortColumn.value), cellOf(y, sortColumn.value), dir);
      }
    }
  }

  // ---------------------------------------------------------------------
  // Paging
  // ---------------------------------------------------------------------

  /** `Math.ceil(n / pageSize)`. */
  function TotalPages(n: nat, pageSize: nat): (r: nat)
    requires pageSize > 0
    ensures r * pageSize >= n && (r - 1) * pageSize < n
  {
    (n + pageSize - 1) / pageSize
  }

  /** Index normalisation of `Array.prototype.slice`: negative counts from the end. */
  function SliceIndex(i: int, n: nat): (r: nat)
    ensures r <= n
  {
    if i < 0 then Max(n + i, 0) else Min(i, n)
  }

  /** `s.slice(from, to)`. */
  function Slice<T>(s: seq<T>, from: int, to: int): seq<T>
  {
    var a, b := SliceIndex(from, |s|), SliceIndex(to, |s|);
    if a <= b then s[a..b] else []
  }

  /** The rows of `page`: `sortedData.slice((page - 1) * pageSize, page * pageSize)`. */
  function PageRows<T>(rows: seq<T>, page: int, pageSize: nat): (r: seq<T>)
    requires pageSize > 0
    ensures |r| <= pageSize
    ensures 1 <= page ==> r == rows[Min((page - 1) * pageSize, |rows|)..Min(page * pageSize, |rows|)]
  {
    var lo, hi := (page - 1) * pageSize, page * pageSize;
    assert hi == lo + pageSize;
    assert 1 <= page ==> 0 <= lo by {
      if 1 <= page {
        MulMonotone(pageSize, 0, page - 1);
      }
    }
    Slice(rows, lo, hi)
  }

  /** Pages 1 to k, one after the other. */
  function FirstPages<T>(rows: seq<T>, k: nat, pageSize: nat): seq<T>
    requires pageSize > 0
  {
    if k == 0 then [] else FirstPages(rows, k - 1, pageSize) + PageRows(rows, k, pageSize)
  }

  lemma {:induction false} FirstPagesArePrefix<T>(rows: seq<T>, k: nat, pageSize: nat)
    requires pageSize > 0
    ensures FirstPages(rows, k, pageSize) == rows[..Min(k * pageSize, |rows|)]
  {
    if k > 0 {
      FirstPagesArePrefix(rows, k - 1, pageSize);
      assert k * pageSize == (k - 1) * pageSize + pageSize;
      var a, b := Min((k - 1) * pageSize, |rows|), Min(k * pageSize, |rows|);
      PrefixThenSlice(rows, a, b);
    }
  }

  /** Where page `p` starts and ends relative to `n` rows: an existing page starts
      before the end, and every page but the last ends before it. */
  lemma PageBounds(n: nat, pageSize: nat, p: int)
    requires pageSize > 0 && 1 <= p <= TotalPages(n, pageSize)
    ensures p * pageSize == (p - 1) * pageSize + pageSize
    ensures 0 <= (p - 1) * pageSize < n
    ensures p < TotalPages(n, pageSize) ==> p * pageSize < n
  {
    MulMonotone(pageSize, 0, p - 1);
    var t := TotalPages(n, pageSize);
    MulMonotone(pageSize, p - 1, t - 1);
    if p < t {
      MulMonotone(pageSize, p, t - 1);
    }
  }

  /** An existing page holds the rows from its start to its end or to the last row. */
  lemma PageLength<T>(rows: seq<T>, p: int, pageSize: nat)
    requires pageSize > 0 && 1 <= p <= TotalPages(|rows|, pageSize)
    ensures |PageRows(rows, p, pageSize)| == Min(p * pageSize, |rows|) - (p - 1) * pageSize
  {
    PageBounds(|rows|, pageSize, p);
  }

  /** Pages 1 to totalPages hold every row once, in order; each page but the last
      is full and none is empty. */
  lemma PagesPartitionRows<T>(rows: seq<T>, pageSize: nat)
    requires pageSize > 0
    ensures FirstPages(rows, TotalPages(|rows|, pageSize), pageSize) == rows
    ensures forall p | 1 <= p < TotalPages(|rows|, pageSize) :: |PageRows(rows, p, pageSize)| == pageSize
    ensures forall p | 1 <= p <= TotalPages(|rows|, pageSize) :: |PageRows(rows, p, pageSize)| > 0
  {
    var t := TotalPages(|rows|, pageSize);
    FirstPagesArePrefix(rows, t, pageSize);
    forall p | 1 <= p <= t
      ensures |PageRows(rows, p, pageSize)| > 0
      ensures p < t ==> |PageRows(rows, p, pageSize)| == pageSize
    {
      PageBounds(|rows|, pageSize, p);
      PageLength(rows, p, pageSize);
    }
  }

  /** "Showing {from} to {to} of {n} results". */
  datatype Footer = Footer(from: int, to: int, total: nat)

  function FooterFor(page: int, pageSize: nat, n: nat): Footer
  {
    Footer((page - 1) * pageSize + 1, Min(page * pageSize, n), n)
  }

  /** On a page in range the footer names exactly the 1-based positions of the rows shown. */
  lemma FooterMatchesPage<T>(rows: seq<T>, page: int, pageSize: nat)
    requires pageSize > 0 && 1 <= page <= TotalPages(|rows|, pageSize)
    ensures var f := FooterFor(page, pageSize, |rows|);
            var shown := PageRows(rows, page, pageSize);
            f.from == (page - 1) * pageSize + 1 && f.to == f.from + |shown| - 1 && 1 <= f.from <= f.to <= |rows|
  {
    PageBounds(|rows|, pageSize, page);
    PageLength(rows, page, pageSize);
  }

  /** The pager is drawn only when there is more than one page. */
  predicate PagerShown(n: nat, pageSize: nat)
    requires pageSize > 0
  {
    TotalPages(n, pageSize) > 1
  }

  lemma PagerShownIffMoreThanAPage(n: nat, pageSize: nat)
    requires pageSize > 0
    ensures PagerShown(n, pageSize) <==> n > pageSize
  {
    var t := TotalPages(n, pageSize);
    if t <= 1 {
      MulMonotone(pageSize, t, 1);
    } else {
      MulMonotone(pageSize, 1, t - 1);
    }
  }

  // ---------------------------------------------------------------------
  // Rows shown when `data` shrinks under a kept page
  // ---------------------------------------------------------------------

  /** As written: the kept `currentPage` is used even when `data` now has fewer pages. */
  function ShownRowsAsWritten<T>(rows: seq<T>, currentPage: int, pageSize: nat): seq<T>
    requires pageSize > 0
  {
    PageRows(rows, currentPage, pageSize)
  }

  /** A search that narrows 25 rows to 5 while on page 3 shows no rows at all, and the
      pager that could lead back to page 1 is hidden. */
  lemma ShrunkDataShowsNothing(rows: seq<int>)
    requires |rows| == 5
    ensures TotalPages(25, DefaultPageSize) == 3
    ensures ShownRowsAsWritten(rows, 3, DefaultPageSize) == [] && !PagerShown(|rows|, DefaultPageSize)
  {
  }

  /** Any page past the last one is empty. */
  lemma PastLastPageIsEmpty<T>(rows: seq<T>, page: int, pageSize: nat)
    requires pageSize > 0 && page > TotalPages(|rows|, pageSize)
    ensures PageRows(rows, page, pageSize) == []
  {
    MulMonotone(pageSize, TotalPages(|rows|, pageSize), page - 1);
  }

  /** The page shown, clamped to the pages that exist. */
  function EffectivePage(currentPage: int, n: nat, pageSize: nat): (r: int)
    requires pageSize > 0
    ensures 1 <= r
    ensures n > 0 ==> r <= TotalPages(n, pageSize)
    ensures 1 <= currentPage <= TotalPages(n, pageSize) ==> r == currentPage
  {
    Max(1, Min(currentPage, TotalPages(n, pageSize)))
  }

  function ShownRows<T>(rows: seq<T>, currentPage: int, pageSize: nat): (r: seq<T>)
    requires pageSize > 0
    ensures |rows| > 0 ==> |r| > 0
    ensures 1 <= currentPage <= TotalPages(|rows|, pageSize) ==> r == ShownRowsAsWritten(rows, currentPage, pageSize)
  {
    PagesPartitionRows(rows, pageSize);
    PageRows(rows, EffectivePage(currentPage, |rows|, pageSize), pageSize)
  }

  // ---------------------------------------------------------------------
  // The table's own state
  // ---------------------------------------------------------------------

  function Flip(d: SortDirection): SortDirection
  {
    if d == Asc then Desc else Asc
  }

  class TableState {
    var currentPage: int
    var sortColumn: Option<string>
    var sortDirection: SortDirection

    constructor ()
      ensures currentPage == 1 && sortColumn == None && sortDirection == Asc
    {
      currentPage, sortColumn, sortDirection := 1, None, Asc;
    }

    /** Clicking the sorted column flips the direction; clicking another sorts by it ascending. */
    method HandleSort(columnKey: string)
      modifies this`sortColumn, this`sortDirection
      ensures sortColumn == Some(columnKey)
      ensures sortDirection == if old(sortColumn) == Some(columnKey) then Flip(old(sortDirection)) else Asc
    {
      if sortColumn == Some(columnKey) {
        sortDirection := Flip(sortDirection);
      } else {
        sortColumn := Some(columnKey);
        sortDirection := Asc;
      }
    }

    method FirstPage()
      modifies this`currentPage
      ensures currentPage == 1
    {
      currentPage := 1;
    }

    method PreviousPage()
      modifies this`currentPage
      ensures currentPage == Max(1, old(currentPage) - 1)
      ensures old(currentPage) >= 1 ==> 1 <= currentPage <= old(currentPage)
    {
      currentPage := Max(1, currentPage - 1);
    }

    method NextPage(totalPages: nat)
      modifies this`currentPage
      ensures currentPage == Min(totalPages, old(currentPage) + 1)
      ensures 1 <= old(currentPage) <= totalPages ==> old(currentPage) <= currentPage <= totalPages && 1 <= currentPage
    {
      currentPage := Min(totalPages, currentPage + 1);
    }

    method LastPage(totalPages: nat)
      modifies this`currentPage
      ensures currentPage == totalPages
    {
      currentPage := totalPages;
    }

    /** The rows the table body lists: the kept `currentPage` of the sorted rows, unchecked
        against the pages `data` has now, so a page past the end lists nothing. */
    method VisibleRows<T>(data: seq<T>, cellOf: (T, string) -> Cell, pageSize: nat) returns (rows: seq<T>)
      requires pageSize > 0
      ensures rows == ShownRowsAsWritten(SortedData(data, cellOf, sortColumn, sortDirection), currentPage, pageSize)
      ensures 1 <= currentPage <= TotalPages(|data|, pageSize) ==> 0 < |rows| <= pageSize
      ensures currentPage > TotalPages(|data|, pageSize) ==> rows == []
    {
      var sorted := SortedData(data, cellOf, sortColumn, sortDirection);
      assert |sorted| == |data| by {
        assert |multiset(sorted)| == |multiset(data)|;
      }
      PagesPartitionRows(sorted, pageSize);
      if currentPage > TotalPages(|data|, pageSize) {
        PastLastPageIsEmpty(sorted, currentPage, pageSize);
      }
      rows := ShownRowsAsWritten(sorted, currentPage, pageSize);
    }
  }
}
