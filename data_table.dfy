/**
 * The query engine of components/DataTable.tsx: the case-insensitive search over every
 * value of a row, pages of ten rows, the Prev/Next handlers and the "showing a to b of n"
 * label. The component's two pieces of state, the current page and the search term,
 * form the class DataTableState.
 */
module DataTable {
  import opened Strings
  import opened SheetTypes

  /** ROWS_PER_PAGE. */
  const RowsPerPage := 10

  function Min(a: int, b: int): int { if a <= b then a else b }
  function Max(a: int, b: int): int { if a >= b then a else b }

  // ---------------------------------------------------------------------------
  // Filter
  // ---------------------------------------------------------------------------

  /** `String(val)`: null becomes the text "null", not the empty string. */
  function ValueText(v: Value): string
  {
    match v
    case Null => "null"
    case Str(s) => s
    case Num(n) => IntToString(n)
    case Bool(b) => if b then "true" else "false"
  }

  /** `Object.values(row).some(val => String(val).toLowerCase().includes(term.toLowerCase()))`. */
  predicate RowMatches(row: Row, term: string)
  {
    exists key | key in row :: Contains(Lower(ValueText(row[key])), Lower(term))
  }

  /** `data.rows.filter(...)`: the rows that match, in their original order. */
  function FilterRows(rows: seq<Row>, term: string): (r: seq<Row>)
    ensures |r| <= |rows|
    ensures forall k | 0 <= k < |r| :: RowMatches(r[k], term) && r[k] in rows
  {
    if rows == [] then []
    else (if RowMatches(rows[0], term) then [rows[0]] else []) + FilterRows(rows[1..], term)
  }

  /** Filtering respects concatenation: the result is an order-preserving subsequence. */
  lemma {:induction false} FilterAppend(a: seq<Row>, b: seq<Row>, term: string)
    ensures FilterRows(a + b, term) == FilterRows(a, term) + FilterRows(b, term)
  {
    if a != [] {
      assert (a + b)[1..] == a[1..] + b;
      FilterAppend(a[1..], b, term);
    } else {
      assert a + b == b;
    }
  }

  /** A row is in the result exactly when it is one of the rows and it matches. */
  lemma {:induction false} FilterMembership(rows: seq<Row>, term: string, row: Row)
    ensures row in FilterRows(rows, term) <==> row in rows && RowMatches(row, term)
  {
    if rows != [] {
      FilterMembership(rows[1..], term, row);
      assert rows == [rows[0]] + rows[1..];
    }
  }

  /** A list whose every row matches filters to itself. */
  lemma {:induction false} FilterKeepsMatching(rows: seq<Row>, term: string)
    requires forall k | 0 <= k < |rows| :: RowMatches(rows[k], term)
    ensures FilterRows(rows, term) == rows
  {
    if rows != [] {
      FilterKeepsMatching(rows[1..], term);
    }
  }

  /** Filtering the filtered rows again with the same term changes nothing. */
  lemma FilterIdempotent(rows: seq<Row>, term: string)
    ensures FilterRows(FilterRows(rows, term), term) == FilterRows(rows, term)
  {
    FilterKeepsMatching(FilterRows(rows, term), term);
  }

  /** The empty term matches exactly the rows that hold at least one value. */
  lemma EmptyTermMatches(row: Row)
    ensures RowMatches(row, "") <==> row != map[]
  {
    if row != map[] {
      var key :| key in row;
      ContainsEmpty(Lower(ValueText(row[key])));
    }
  }

  /** With the empty term, every row that holds a value is kept, in order. */
  lemma FilterEmptyTerm(rows: seq<Row>)
    requires forall k | 0 <= k < |rows| :: rows[k] != map[]
    ensures FilterRows(rows, "") == rows
  {
    forall k | 0 <= k < |rows| ensures RowMatches(rows[k], "") {
      EmptyTermMatches(rows[k]);
    }
    FilterKeepsMatching(rows, "");
  }

  // ---------------------------------------------------------------------------
  // Pagination
  // ---------------------------------------------------------------------------

  /** `Math.ceil(n / ROWS_PER_PAGE)`: the fewest pages of ten that hold n rows (0 for none). */
  function TotalPages(n: nat): (pages: nat)
    ensures pages * RowsPerPage >= n
    ensures pages == 0 || (pages - 1) * RowsPerPage < n
  {
    (n + RowsPerPage - 1) / RowsPerPage
  }

  /** How `Array.prototype.slice` turns an index into a position: negative counts from the end. */
  function SliceIndex(i: int, length: nat): (p: nat)
    ensures p <= length
  {
    if i < 0 then Max(length + i, 0) else Min(i, length)
  }

  /** `s.slice(start, end)`. */
  function Slice<T>(s: seq<T>, start: int, end: int): seq<T>
  {
    var from, to := SliceIndex(start, |s|), SliceIndex(end, |s|);
    if from < to then s[from..to] else []
  }

  /** `filteredRows.slice(startIndex, startIndex + ROWS_PER_PAGE)` for a 1-based page. */
  function PageRows(rows: seq<Row>, page: int): (r: seq<Row>)
    ensures |r| <= RowsPerPage
    ensures page >= 1 ==> r == rows[Min((page - 1) * RowsPerPage, |rows|)..Min(page * RowsPerPage, |rows|)]
    ensures page == 0 || page > TotalPages(|rows|) ==> r == []
  {
    var startIndex := (page - 1) * RowsPerPage;
    Slice(rows, startIndex, startIndex + RowsPerPage)
  }

  /** Pages 1..count laid end to end. */
  function AllPages(rows: seq<Row>, count: nat): seq<Row>
  {
    if count == 0 then [] else AllPages(rows, count - 1) + PageRows(rows, count)
  }

  /** The first `count` pages are the first `count * 10` rows. */
  lemma {:induction false} AllPagesPrefix(rows: seq<Row>, count: nat)
    ensures AllPages(rows, count) == rows[..Min(count * RowsPerPage, |rows|)]
  {
    if count > 0 {
      AllPagesPrefix(rows, count - 1);
      var a, b := Min((count - 1) * RowsPerPage, |rows|), Min(count * RowsPerPage, |rows|);
      assert rows[..a] + rows[a..b] == rows[..b];
    }
  }

  /** The pages partition the rows: together they give back every row once, in order. */
  lemma PagesPartition(rows: seq<Row>)
    ensures AllPages(rows, TotalPages(|rows|)) == rows
  {
    AllPagesPrefix(rows, TotalPages(|rows|));
  }

  /** Every page between 1 and the page count shows at least one row. */
  lemma PageInRangeNonEmpty(rows: seq<Row>, page: int)
    requires 1 <= page <= TotalPages(|rows|)
    ensures 1 <= |PageRows(rows, page)|
  {
  }

  /** The "showing first to last of total" figures. */
  datatype RangeText = RangeText(first: int, last: int, total: nat)

  /** `startIndex + 1`, `Math.min(startIndex + ROWS_PER_PAGE, n)` and `n`. */
  function RangeLabel(startIndex: int, n: nat): RangeText
  {
    RangeText(startIndex + 1, Min(startIndex + RowsPerPage, n), n)
  }

  /** On a page in range the label names exactly the rows the page shows. */
  lemma RangeLabelMatchesPage(rows: seq<Row>, page: int)
    requires 1 <= page <= TotalPages(|rows|)
    ensures var shown := RangeLabel((page - 1) * RowsPerPage, |rows|);
      && 1 <= shown.first <= shown.last <= shown.total == |rows|
      && rows[shown.first - 1..shown.last] == PageRows(rows, page)
  {
  }

  // ---------------------------------------------------------------------------
  // The component's state
  // ---------------------------------------------------------------------------

  /** One mounted DataTable: the table it shows, the current page and the search term. */
  class DataTableState {
    const data: SheetData
    var currentPage: int
    var searchTerm: string

    function FilteredRows(): seq<Row>
      reads this
    {
      FilterRows(data.rows, searchTerm)
    }

    function TotalPageCount(): nat
      reads this
    {
      TotalPages(|FilteredRows()|)
    }

    function StartIndex(): int
      reads this
    {
      (currentPage - 1) * RowsPerPage
    }

    function CurrentRows(): seq<Row>
      reads this
    {
      PageRows(FilteredRows(), currentPage)
    }

    function ShownRange(): RangeText
      reads this
    {
      RangeLabel(StartIndex(), |FilteredRows()|)
    }

    /** The current page is one of 1..totalPages, or 0 or 1 while there is no page at all. */
    predicate Valid()
      reads this
    {
      && 0 <= currentPage <= Max(1, TotalPageCount())
      && (currentPage == 0 ==> TotalPageCount() == 0)
    }

    /** `useState(1)` and `useState('')`. */
    constructor (data: SheetData)
      ensures this.data == data && currentPage == 1 && searchTerm == ""
      ensures Valid()
    {
      this.data := data;
      currentPage := 1;
      searchTerm := "";
    }

    /** The search box's onChange: a new term always sends the view back to page 1. */
    method SetSearchTerm(term: string)
      modifies this
      ensures searchTerm == term && currentPage == 1
      ensures Valid()
    {
      searchTerm := term;
      currentPage := 1;
    }

    /** `handlePrev`: one page back, never below page 1. */
    method HandlePrev()
      requires Valid()
      modifies this
      ensures currentPage == Max(1, old(currentPage) - 1) && searchTerm == old(searchTerm)
      ensures 1 <= currentPage
      ensures Valid()
    {
      currentPage := Max(1, currentPage - 1);
    }

    /** `handleNext`: one page forward, never past the last page. */
    method HandleNext()
      requires Valid()
      modifies this
      ensures currentPage == Min(TotalPageCount(), old(currentPage) + 1) && searchTerm == old(searchTerm)
      ensures currentPage <= TotalPageCount()
      ensures Valid()
    {
      currentPage := Min(TotalPageCount(), currentPage + 1);
    }

    /** While a search has results, the page on show is never empty and the label counts its rows. */
    lemma CurrentPageShowsRows()
      requires Valid()
      requires |FilteredRows()| > 0
      ensures 1 <= |CurrentRows()|
      ensures ShownRange().last - ShownRange().first + 1 == |CurrentRows()|
    {
      PageInRangeNonEmpty(FilteredRows(), currentPage);
      RangeLabelMatchesPage(FilteredRows(), currentPage);
    }
  }
}
