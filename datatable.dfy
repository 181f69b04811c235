/**
 * The admin data table: free-text search over every field, per-column
 * filters, sorting by a column in either direction, pagination, the
 * filter-option lists and the state handlers behind the table's controls.
 *
 * A row is a plain object (a record with distinct keys). The `data`
 * property may be null or undefined, which the table treats as no rows.
 */
module DataTable {
  import opened Common
  import opened JsValue
  import Sorting

  type Item = Record

  /** The `filters` state: column key and selected text, in insertion order. */
  type Filters = seq<(string, string)>

  // ------------------------------------------------------------- search

  /** `String(v).toLowerCase().includes(text.toLowerCase())`. */
  predicate TextMatches(v: Value, text: string)
  {
    Contains(Lower(ToJsString(v)), Lower(text))
  }

  /** Some value of the row, as text, contains the search term. */
  predicate SearchMatch(item: Item, term: string)
  {
    exists i :: 0 <= i < |item| && TextMatches(item[i].1, term)
  }

  /** The search step: applied only for a non-empty term on a searchable table. */
  function Searched(rows: seq<Item>, term: string, searchable: bool): seq<Item>
  {
    if term != "" && searchable then Filter(rows, (item: Item) => SearchMatch(item, term)) else rows
  }

  // ------------------------------------------------------------- column filters

  /**
   * One column filter on a row: an array-valued field matches when one of its
   * elements contains the text, any other value when its text contains it (a
   * missing field reads "undefined").
   */
  predicate ColumnMatch(item: Item, key: string, text: string)
  {
    var v := Lookup(item, key);
    if v.Arr? then exists j :: 0 <= j < |v.elems| && TextMatches(v.elems[j], text)
    else TextMatches(v, text)
  }

  /** The row passes the filter entries applied so far; an empty text is skipped. */
  predicate PassesFilters(item: Item, fs: Filters)
    decreases |fs|
  {
    fs == [] ||
    (PassesFilters(item, fs[..|fs| - 1]) && (fs[|fs| - 1].1 == "" || ColumnMatch(item, fs[|fs| - 1].0, fs[|fs| - 1].1)))
  }

  function Passing(fs: Filters): Item -> bool
  {
    (item: Item) => PassesFilters(item, fs)
  }

  /** A row passes the filters exactly when it matches every entry whose text is not empty. */
  lemma {:induction false} PassesFiltersAll(item: Item, fs: Filters)
    ensures PassesFilters(item, fs) <==>
      forall j :: 0 <= j < |fs| && fs[j].1 != "" ==> ColumnMatch(item, fs[j].0, fs[j].1)
    decreases |fs|
  {
    if fs != [] {
      var init := fs[..|fs| - 1];
      PassesFiltersAll(item, init);
      assert forall j :: 0 <= j < |init| ==> init[j] == fs[j];
    }
  }

  /** The rows the table lists before sorting: search first, then each column filter. */
  function FilteredData(rows: seq<Item>, term: string, searchable: bool, filters: Filters): seq<Item>
  {
    Filter(Searched(rows, term, searchable), Passing(filters))
  }

  /**
   * The filtered rows keep their order, and a row is listed exactly when it
   * passes the search (if one applies) and every non-empty column filter.
   */
  lemma FilteredDataMembers(rows: seq<Item>, term: string, searchable: bool, filters: Filters, item: Item)
    ensures IsSubsequence(FilteredData(rows, term, searchable, filters), rows)
    ensures item in FilteredData(rows, term, searchable, filters) <==>
      item in rows
      && (term != "" && searchable ==> SearchMatch(item, term))
      && (forall j :: 0 <= j < |filters| && filters[j].1 != "" ==> ColumnMatch(item, filters[j].0, filters[j].1))
  {
    var search := (item: Item) => SearchMatch(item, term);
    var searched := Searched(rows, term, searchable);
    if term != "" && searchable {
      FilterMembers(rows, search, item);
      var both := (x: Item) => search(x) && Passing(filters)(x);
      FilterFilter(rows, search, Passing(filters), both);
      FilterIsSubsequence(rows, both);
    } else {
      FilterIsSubsequence(rows, Passing(filters));
    }
    FilterMembers(searched, Passing(filters), item);
    PassesFiltersAll(item, filters);
  }

  /**
   * The filtering as the table runs it: the search pass, then one more
   * filtering pass for every filter entry with a non-empty text.
   */
  method ApplyFilters(rows: seq<Item>, term: string, searchable: bool, filters: Filters)
    returns (filtered: seq<Item>)
    ensures filtered == FilteredData(rows, term, searchable, filters)
  {
    filtered := rows;
    if term != "" && searchable {
      filtered := Filter(filtered, (item: Item) => SearchMatch(item, term));
    }
    ghost var searched := filtered;
    FilterAll(searched, Passing([]));
    for k := 0 to |filters|
      invariant filtered == Filter(searched, Passing(filters[..k]))
    {
      var key := filters[k].0;
      var value := filters[k].1;
      assert filters[..k + 1][..k] == filters[..k];
      if value != "" {
        var column := (item: Item) => ColumnMatch(item, key, value);
        FilterFilter(searched, Passing(filters[..k]), column, Passing(filters[..k + 1]));
        filtered := Filter(filtered, column);
      } else {
        FilterSameTest(searched, Passing(filters[..k]), Passing(filters[..k + 1]));
      }
    }
    assert filters[..|filters|] == filters;
  }

  // ------------------------------------------------------------- sorting

  /** `a[field] < b[field]` when ascending, `a[field] > b[field]` when descending. */
  function ComesBefore(field: string, ascending: bool): (Item, Item) -> bool
  {
    (a: Item, b: Item) =>
      if ascending then LessThan(Lookup(a, field), Lookup(b, field))
      else LessThan(Lookup(b, field), Lookup(a, field))
  }

  /**
   * The sort step: rows keep their order without a sort field or on a table
   * that does not sort; otherwise a stable sort by the field, ascending
   * exactly when the direction is "asc".
   */
  function SortedData(rows: seq<Item>, sortField: string, sortDirection: string, sortable: bool): (r: seq<Item>)
    ensures multiset(r) == multiset(rows)
    ensures |r| == |rows|
  {
    assert |multiset(rows)| == |rows|;
    if sortField == "" || !sortable then rows
    else Sorting.Sort(rows, ComesBefore(sortField, sortDirection == "asc"))
  }

  /** On rows holding strings in the field, the comparison is the string order of the field. */
  lemma StringFieldOrder(rows: seq<Item>, field: string, ascending: bool)
    requires forall i :: 0 <= i < |rows| ==> Lookup(rows[i], field).Str?
    ensures Sorting.StrictWeakOn(rows, ComesBefore(field, ascending))
  {
    var key := (x: Item) => if Lookup(x, field).Str? then Lookup(x, field).s else "";
    var lt := ComesBefore(field, ascending);
    var klt := if ascending then (x: Item, y: Item) => Sorting.StrLt(key(x), key(y))
               else (x: Item, y: Item) => Sorting.StrLt(key(y), key(x));
    forall a, b | a in rows && b in rows ensures lt(a, b) == klt(a, b) {
      LessThanStrings(key(a), key(b));
      LessThanStrings(key(b), key(a));
    }
    forall a, b | a in rows && b in rows && klt(a, b) ensures !klt(b, a) {
      Sorting.StrLtTotal(key(a), key(b));
    }
    forall a, b, c | a in rows && b in rows && c in rows && klt(a, c) ensures klt(a, b) || klt(b, c) {
      Sorting.StrLtTotal(key(a), key(b));
      Sorting.StrLtTotal(key(b), key(c));
      if ascending {
        if Sorting.StrLt(key(b), key(a)) { Sorting.StrLtTransitive(key(b), key(a), key(c)); }
      } else {
        if Sorting.StrLt(key(a), key(b)) { Sorting.StrLtTransitive(key(c), key(a), key(b)); }
      }
    }
  }

  /** On rows holding numbers in the field, the comparison is the numeric order of the field. */
  lemma NumberFieldOrder(rows: seq<Item>, field: string, ascending: bool)
    requires forall i :: 0 <= i < |rows| ==> Lookup(rows[i], field).Num?
    ensures Sorting.StrictWeakOn(rows, ComesBefore(field, ascending))
  {
    var key := (x: Item) => if Lookup(x, field).Num? then Lookup(x, field).n else 0;
    var lt := ComesBefore(field, ascending);
    forall a, b | a in rows && b in rows
      ensures lt(a, b) == if ascending then key(a) < key(b) else key(b) < key(a)
    {
      LessThanNumbers(key(a), key(b));
      LessThanNumbers(key(b), key(a));
    }
  }

  /**
   * When every row holds a string in the sort field, the sorted rows are in
   * lexicographic order of that field: non-decreasing for "asc",
   * non-increasing for any other direction.
   */
  lemma SortedByStringField(rows: seq<Item>, field: string, sortDirection: string)
    requires field != ""
    requires forall i :: 0 <= i < |rows| ==> Lookup(rows[i], field).Str?
    ensures forall i :: 0 <= i < |SortedData(rows, field, sortDirection, true)| ==>
      Lookup(SortedData(rows, field, sortDirection, true)[i], field).Str?
    ensures var r := SortedData(rows, field, sortDirection, true);
      forall i, j :: 0 <= i < j < |r| ==>
        if sortDirection == "asc" then !Sorting.StrLt(Lookup(r[j], field).s, Lookup(r[i], field).s)
        else !Sorting.StrLt(Lookup(r[i], field).s, Lookup(r[j], field).s)
  {
    var ascending := sortDirection == "asc";
    StringFieldOrder(rows, field, ascending);
    Sorting.SortSorted(rows, ComesBefore(field, ascending));
    var r := SortedData(rows, field, sortDirection, true);
    forall i | 0 <= i < |r| ensures Lookup(r[i], field).Str? {
      assert r[i] in multiset(rows);
    }
    forall i, j | 0 <= i < j < |r|
      ensures if ascending then !Sorting.StrLt(Lookup(r[j], field).s, Lookup(r[i], field).s)
        else !Sorting.StrLt(Lookup(r[i], field).s, Lookup(r[j], field).s)
    {
      assert !ComesBefore(field, ascending)(r[j], r[i]);
      LessThanStrings(Lookup(r[j], field).s, Lookup(r[i], field).s);
      LessThanStrings(Lookup(r[i], field).s, Lookup(r[j], field).s);
    }
  }

  /**
   * When every row holds a number in the sort field, the sorted rows are in
   * numeric order of that field: non-decreasing for "asc", non-increasing
   * otherwise.
   */
  lemma SortedByNumberField(rows: seq<Item>, field: string, sortDirection: string)
    requires field != ""
    requires forall i :: 0 <= i < |rows| ==> Lookup(rows[i], field).Num?
    ensures forall i :: 0 <= i < |SortedData(rows, field, sortDirection, true)| ==>
      Lookup(SortedData(rows, field, sortDirection, true)[i], field).Num?
    ensures var r := SortedData(rows, field, sortDirection, true);
      forall i, j :: 0 <= i < j < |r| ==>
        if sortDirection == "asc" then Lookup(r[i], field).n <= Lookup(r[j], field).n
        else Lookup(r[i], field).n >= Lookup(r[j], field).n
  {
    var ascending := sortDirection == "asc";
    NumberFieldOrder(rows, field, ascending);
    Sorting.SortSorted(rows, ComesBefore(field, ascending));
    var r := SortedData(rows, field, sortDirection, true);
    forall i | 0 <= i < |r| ensures Lookup(r[i], field).Num? {
      assert r[i] in multiset(rows);
    }
    forall i, j | 0 <= i < j < |r|
      ensures if ascending then Lookup(r[i], field).n <= Lookup(r[j], field).n
        else Lookup(r[i], field).n >= Lookup(r[j], field).n
    {
      assert !ComesBefore(field, ascending)(r[j], r[i]);
      LessThanNumbers(Lookup(r[j], field).n, Lookup(r[i], field).n);
      LessThanNumbers(Lookup(r[i], field).n, Lookup(r[j], field).n);
    }
  }

  // ------------------------------------------------------------- pagination

  /** Page `currentPage` of `itemsPerPage` rows, or every row without pagination. */
  function PageRows(sorted: seq<Item>, currentPage: int, itemsPerPage: int, pagination: bool): seq<Item>
  {
    if !pagination then sorted
    else
      var start := (currentPage - 1) * itemsPerPage;
      Slice(sorted, start, start + itemsPerPage)
  }

  function Min(a: int, b: int): int { if a < b then a else b }

  /**
   * Page `p` (counting from 1) shows rows `(p - 1) * n` up to but excluding
   * `p * n`, cut at the end of the list, so never more than `n` rows.
   */
  lemma PageWindow(sorted: seq<Item>, currentPage: int, itemsPerPage: int)
    requires currentPage >= 1 && itemsPerPage >= 0
    ensures var start := Min((currentPage - 1) * itemsPerPage, |sorted|);
      var end := Min(currentPage * itemsPerPage, |sorted|);
      PageRows(sorted, currentPage, itemsPerPage, true) == sorted[start..end]
    ensures |PageRows(sorted, currentPage, itemsPerPage, true)| <= itemsPerPage
  {
    MulMonotone(currentPage - 1, 0, itemsPerPage);
    MulStep(currentPage, itemsPerPage);
  }

  lemma MulStep(a: int, n: int)
    ensures (a - 1) * n + n == a * n
  {
  }

  lemma MulMonotone(a: int, b: int, n: int)
    requires a >= b && n >= 0
    ensures a * n >= b * n
  {
    assert a * n - b * n == (a - b) * n;
  }

  /** Pages 1 to `k`, one after the other. */
  function FirstPages(sorted: seq<Item>, itemsPerPage: int, k: nat): seq<Item>
  {
    if k == 0 then [] else FirstPages(sorted, itemsPerPage, k - 1) + PageRows(sorted, k, itemsPerPage, true)
  }

  lemma {:induction false} FirstPagesPrefix(sorted: seq<Item>, itemsPerPage: int, k: nat)
    requires itemsPerPage > 0
    ensures FirstPages(sorted, itemsPerPage, k) == sorted[..Min(k * itemsPerPage, |sorted|)]
  {
    if k > 0 {
      FirstPagesPrefix(sorted, itemsPerPage, k - 1);
      PageWindow(sorted, k, itemsPerPage);
      var lo := (k - 1) * itemsPerPage;
      var hi := k * itemsPerPage;
      assert hi == lo + itemsPerPage;
      MulMonotone(k - 1, 0, itemsPerPage);
      var a := Min(lo, |sorted|);
      var b := Min(hi, |sorted|);
      assert 0 <= a <= b <= |sorted|;
      assert sorted[..a] + sorted[a..b] == sorted[..b];
    }
  }

  /**
   * `totalPages = Math.ceil(count / itemsPerPage)` is exactly enough: pages 1
   * to totalPages, one after the other, are all the rows in order, and every
   * page after the last is empty.
   */
  lemma PagesCoverRows(sorted: seq<Item>, itemsPerPage: int, p: int)
    requires itemsPerPage > 0
    ensures FirstPages(sorted, itemsPerPage, CeilDiv(|sorted|, itemsPerPage)) == sorted
    ensures p > CeilDiv(|sorted|, itemsPerPage) ==> PageRows(sorted, p, itemsPerPage, true) == []
  {
    var total := CeilDiv(|sorted|, itemsPerPage);
    FirstPagesPrefix(sorted, itemsPerPage, total);
    assert Min(total * itemsPerPage, |sorted|) == |sorted|;
    assert sorted[..|sorted|] == sorted;
    if p > total {
      PageWindow(sorted, p, itemsPerPage);
      MulMonotone(p - 1, total, itemsPerPage);
    }
  }

  // ------------------------------------------------------------- filter options

  /** `data.map(item => item[field])`. */
  function ColumnValues(rows: seq<Item>, field: string): (r: seq<Value>)
    ensures |r| == |rows|
    ensures forall i :: 0 <= i < |rows| ==> r[i] == Lookup(rows[i], field)
  {
    seq(|rows|, i requires 0 <= i < |rows| => Lookup(rows[i], field))
  }

  /**
   * `getFilterOptions(field)`: the truthy values of the column, each once,
   * sorted by their text.
   */
  function FilterOptions(rows: seq<Item>, field: string): seq<Value>
  {
    DefaultSort(Dedup(Filter(ColumnValues(rows, field), Truthy)))
  }

  /** A value is offered exactly when it is truthy and some row holds it in the column. */
  lemma FilterOptionsMembers(rows: seq<Item>, field: string, v: Value)
    ensures v in FilterOptions(rows, field) <==>
      Truthy(v) && exists i :: 0 <= i < |rows| && Lookup(rows[i], field) == v
  {
    var values := ColumnValues(rows, field);
    var present := Filter(values, Truthy);
    var distinct := Dedup(present);
    FilterMembers(values, Truthy, v);
    assert v in DefaultSort(distinct) <==> v in multiset(distinct);
    if v in distinct {
      var i :| 0 <= i < |distinct| && distinct[i] == v;
    }
    if v in present {
      var i :| 0 <= i < |present| && present[i] == v;
    }
    if v in values {
      var i :| 0 <= i < |values| && values[i] == v;
    }
  }

  /** The options are without repetition and in non-decreasing order of their text. */
  lemma FilterOptionsOrdered(rows: seq<Item>, field: string)
    ensures Distinct(FilterOptions(rows, field))
    ensures forall i, j :: 0 <= i < j < |FilterOptions(rows, field)| ==>
      !Sorting.StrLt(ToJsString(FilterOptions(rows, field)[j]), ToJsString(FilterOptions(rows, field)[i]))
  {
    var distinct := Dedup(Filter(ColumnValues(rows, field), Truthy));
    var r := FilterOptions(rows, field);
    DistinctPermutation(distinct, r);
    DefaultSortOrdered(distinct);
    forall j | 0 <= j < |r| ensures r[j] != Undefined {
      FilterOptionsMembers(rows, field, r[j]);
    }
  }

  // ------------------------------------------------------------- handlers

  /** The (field, direction) a click on a column header leaves behind. */
  function NextSort(sortable: bool, sortField: string, sortDirection: string, field: string): (r: (string, string))
    ensures !sortable ==> r == (sortField, sortDirection)
    ensures sortable && field != sortField ==> r == (field, "asc")
    ensures sortable && field == sortField ==> r.0 == field && (r.1 == "asc" <==> sortDirection != "asc")
  {
    if !sortable then (sortField, sortDirection)
    else if sortField == field then (sortField, if sortDirection == "asc" then "desc" else "asc")
    else (field, "asc")
  }

  /** Clicking the sorted column twice restores its direction; a new column starts ascending. */
  lemma SortClickTwice(sortField: string, sortDirection: string, field: string)
    requires sortDirection == "asc" || sortDirection == "desc"
    ensures var once := NextSort(true, sortField, sortDirection, field);
      NextSort(true, once.0, once.1, field) == (field, if field == sortField then sortDirection else "desc")
  {
  }

  /**
   * After a filter change a row passes exactly when it matches the new text
   * for that column (an empty text accepts every row) and every other
   * non-empty column filter.
   */
  lemma SetFilterEffect(fs: Filters, field: string, value: string, item: Item)
    requires EntryKeysDistinct(fs)
    ensures PassesFilters(item, SetEntry(fs, field, value)) <==>
      (value == "" || ColumnMatch(item, field, value))
      && (forall j :: 0 <= j < |fs| && fs[j].0 != field && fs[j].1 != "" ==> ColumnMatch(item, fs[j].0, fs[j].1))
  {
    var r := SetEntry(fs, field, value);
    PassesFiltersAll(item, r);
    PassesFiltersAll(item, fs);
    if PassesFilters(item, r) {
      var i :| 0 <= i < |r| && r[i] == (field, value);
      forall j | 0 <= j < |fs| && fs[j].0 != field && fs[j].1 != "" ensures ColumnMatch(item, fs[j].0, fs[j].1) {
        var k :| 0 <= k < |r| && r[k] == fs[j];
      }
    }
    if (value == "" || ColumnMatch(item, field, value))
      && (forall j :: 0 <= j < |fs| && fs[j].0 != field && fs[j].1 != "" ==> ColumnMatch(item, fs[j].0, fs[j].1)) {
      forall j | 0 <= j < |r| && r[j].1 != "" ensures ColumnMatch(item, r[j].0, r[j].1) {
        if r[j] != (field, value) {
          var k :| 0 <= k < |fs| && fs[k] == r[j];
        }
      }
    }
  }

  /** The table's state together with the properties it was rendered with. */
  class Table {
    const rows: seq<Item>
    const searchable: bool
    const filterable: bool
    const sortable: bool
    const pagination: bool
    const itemsPerPage: int
    var searchTerm: string
    var sortField: string
    var sortDirection: string
    var currentPage: int
    var filters: Filters
    var showFilters: bool

    ghost predicate Valid()
      reads this
    {
      itemsPerPage > 0 && currentPage >= 1 && (sortDirection == "asc" || sortDirection == "desc")
      && EntryKeysDistinct(filters)
    }

    /** The initial state; missing data is no rows. */
    constructor (data: Option<seq<Item>>, searchable: bool, filterable: bool, sortable: bool,
                 pagination: bool, itemsPerPage: int)
      requires itemsPerPage > 0
      ensures Valid()
      ensures rows == (if data.Some? then data.value else [])
      ensures this.searchable == searchable && this.filterable == filterable
      ensures this.sortable == sortable && this.pagination == pagination && this.itemsPerPage == itemsPerPage
      ensures searchTerm == "" && sortField == "" && sortDirection == "asc"
      ensures currentPage == 1 && filters == [] && !showFilters
    {
      rows := if data.Some? then data.value else [];
      this.searchable := searchable;
      this.filterable := filterable;
      this.sortable := sortable;
      this.pagination := pagination;
      this.itemsPerPage := itemsPerPage;
      searchTerm := "";
      sortField := "";
      sortDirection := "asc";
      currentPage := 1;
      filters := [];
      showFilters := false;
    }

    function Filtered(): seq<Item>
      reads this
    {
      FilteredData(rows, searchTerm, searchable, filters)
    }

    function TotalPages(): nat
      reads this
      requires itemsPerPage > 0
    {
      CeilDiv(|Filtered()|, itemsPerPage)
    }

    /**
     * What the table shows: the filtered, sorted rows of the current page,
     * and the page count.
     */
    method Render() returns (shown: seq<Item>, totalPages: nat)
      requires Valid()
      ensures shown == PageRows(SortedData(Filtered(), sortField, sortDirection, sortable), currentPage, itemsPerPage, pagination)
      ensures totalPages == TotalPages()
      ensures |shown| <= (if pagination then itemsPerPage else |Filtered()|)
    {
      var filtered := ApplyFilters(rows, searchTerm, searchable, filters);
      var sorted := SortedData(filtered, sortField, sortDirection, sortable);
      shown := PageRows(sorted, currentPage, itemsPerPage, pagination);
      totalPages := CeilDiv(|filtered|, itemsPerPage);
      if pagination {
        PageWindow(sorted, currentPage, itemsPerPage);
      }
    }

    /** A click on a column header. */
    method HandleSort(field: string)
      requires Valid()
      modifies this
      ensures Valid()
      ensures (sortField, sortDirection) == NextSort(sortable, old(sortField), old(sortDirection), field)
      ensures searchTerm == old(searchTerm) && currentPage == old(currentPage)
      ensures filters == old(filters) && showFilters == old(showFilters)
    {
      if !sortable {
        return;
      }
      if sortField == field {
        sortDirection := if sortDirection == "asc" then "desc" else "asc";
      } else {
        sortField := field;
        sortDirection := "asc";
      }
    }

    /** Typing in the search box; the page is left as it is. */
    method SetSearchTerm(term: string)
      requires Valid()
      modifies this
      ensures Valid()
      ensures searchTerm == term
      ensures sortField == old(sortField) && sortDirection == old(sortDirection) && currentPage == old(currentPage)
      ensures filters == old(filters) && showFilters == old(showFilters)
    {
      searchTerm := term;
    }

    /** Choosing a value in a column's filter list; back to the first page. */
    method HandleFilterChange(field: string, value: string)
      requires Valid()
      modifies this
      ensures Valid()
      ensures filters == SetEntry(old(filters), field, value) && currentPage == 1
      ensures searchTerm == old(searchTerm) && sortField == old(sortField) && sortDirection == old(sortDirection)
      ensures showFilters == old(showFilters)
    {
      filters := SetEntry(filters, field, value);
      currentPage := 1;
    }

    /** The Clear button: no filters, no search, first page; every row is listed again. */
    method ClearFilters()
      requires Valid()
      modifies this
      ensures Valid()
      ensures filters == [] && searchTerm == "" && currentPage == 1
      ensures sortField == old(sortField) && sortDirection == old(sortDirection) && showFilters == old(showFilters)
      ensures Filtered() == rows
    {
      filters := [];
      searchTerm := "";
      currentPage := 1;
      FilterAll(rows, Passing([]));
    }

    /** The Filters button shows or hides the filter panel. */
    method ToggleFilters()
      requires Valid()
      modifies this
      ensures Valid()
      ensures showFilters == !old(showFilters)
      ensures searchTerm == old(searchTerm) && sortField == old(sortField) && sortDirection == old(sortDirection)
      ensures currentPage == old(currentPage) && filters == old(filters)
    {
      showFilters := !showFilters;
    }

    /** The Previous button, shown only while there is more than one page. */
    method PreviousPage()
      requires Valid() && pagination && TotalPages() > 1
      modifies this
      ensures Valid()
      ensures currentPage == (if old(currentPage) - 1 > 1 then old(currentPage) - 1 else 1)
      ensures old(currentPage) <= TotalPages() + 1 ==> currentPage <= TotalPages()
      ensures searchTerm == old(searchTerm) && sortField == old(sortField) && sortDirection == old(sortDirection)
      ensures filters == old(filters) && showFilters == old(showFilters)
    {
      currentPage := if currentPage - 1 > 1 then currentPage - 1 else 1;
    }

    /** The Next button, shown only while there is more than one page; it stops at the last page. */
    method NextPage()
      requires Valid() && pagination && TotalPages() > 1
      modifies this
      ensures Valid()
      ensures currentPage == Min(old(currentPage) + 1, TotalPages())
      ensures 1 <= currentPage <= TotalPages()
      ensures searchTerm == old(searchTerm) && sortField == old(sortField) && sortDirection == old(sortDirection)
      ensures filters == old(filters) && showFilters == old(showFilters)
    {
      currentPage := Min(currentPage + 1, TotalPages());
    }

    /** A numbered page button, one for each page from 1 to the page count. */
    method GoToPage(page: int)
      requires Valid() && pagination && TotalPages() > 1
      requires 1 <= page <= TotalPages()
      modifies this
      ensures Valid()
      ensures currentPage == page
      ensures searchTerm == old(searchTerm) && sortField == old(sortField) && sortDirection == old(sortDirection)
      ensures filters == old(filters) && showFilters == old(showFilters)
    {
      currentPage := page;
    }
  }
}
