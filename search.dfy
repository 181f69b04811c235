/**
 * The search and filter hooks of the list pages: a text search over a few
 * fields with case and exact-match options, multi-value filters per field,
 * the option lists the filters offer, and the two combined.
 *
 * Items are plain objects. A filter's selection is a list of values, as the
 * filter dropdowns pass it. The debounce timer is an explicit event.
 */
module Search {
  import opened Common
  import opened JsValue

  type Item = Record

  datatype SearchOptions = SearchOptions(caseSensitive: bool, exactMatch: bool, minLength: int)

  /** The defaults: case-insensitive substring search from the first character on. */
  const DefaultOptions := SearchOptions(false, false, 1)

  const DefaultSearchFields: seq<string> := ["title", "description"]

  // ------------------------------------------------------------- search

  /** `v.toLowerCase()`; `None` when `v` is no string (a TypeError). */
  function LowerValue(v: Value): (r: Option<Value>)
    ensures r.Some? <==> v.Str?
    ensures v.Str? ==> r.value == Str(Lower(v.s))
  {
    if v.Str? then Some(Str(Lower(v.s))) else None
  }

  /** The test of one search field; `None` when it throws. A falsy field never matches. */
  function FieldMatch(item: Item, field: string, searchValue: string, opts: SearchOptions): Option<bool>
  {
    var fieldValue := Lookup(item, field);
    if !Truthy(fieldValue) then Some(false)
    else
      var itemValue := if opts.caseSensitive then Some(fieldValue) else LowerValue(fieldValue);
      match itemValue
      case None => None
      case Some(v) => if opts.exactMatch then Some(v == Str(searchValue)) else Includes(v, searchValue)
  }

  /** `searchFields.some(...)`: stops at the first field that matches or throws. */
  function AnyField(item: Item, fields: seq<string>, searchValue: string, opts: SearchOptions): Option<bool>
    decreases |fields|
  {
    if fields == [] then Some(false)
    else
      match FieldMatch(item, fields[0], searchValue, opts)
      case None => None
      case Some(true) => Some(true)
      case Some(false) => AnyField(item, fields[1..], searchValue, opts)
  }

  /** A term is used only when it is non-empty and at least `minLength` long. */
  predicate TermActive(term: string, opts: SearchOptions)
  {
    term != "" && |term| >= opts.minLength
  }

  /** `searchFunction(item, term)`. */
  function SearchFunction(item: Item, term: string, fields: seq<string>, opts: SearchOptions): Option<bool>
  {
    if !TermActive(term, opts) then Some(true)
    else AnyField(item, fields, if opts.caseSensitive then term else Lower(term), opts)
  }

  /**
   * If no field throws, some field matching is what the search tests; a
   * match is always a match of some field that comes after none that throws.
   */
  lemma {:induction false} AnyFieldMatches(item: Item, fields: seq<string>, searchValue: string, opts: SearchOptions)
    ensures AnyField(item, fields, searchValue, opts) == Some(true) ==>
      exists k :: 0 <= k < |fields| && FieldMatch(item, fields[k], searchValue, opts) == Some(true)
    ensures (forall k :: 0 <= k < |fields| ==> FieldMatch(item, fields[k], searchValue, opts).Some?) ==>
      AnyField(item, fields, searchValue, opts) ==
        Some(exists k :: 0 <= k < |fields| && FieldMatch(item, fields[k], searchValue, opts) == Some(true))
    decreases |fields|
  {
    if fields != [] {
      AnyFieldMatches(item, fields[1..], searchValue, opts);
      assert forall k :: 1 <= k < |fields| ==> fields[k] == fields[1..][k - 1];
      if AnyField(item, fields[1..], searchValue, opts) == Some(true) {
        var k :| 0 <= k < |fields[1..]| && FieldMatch(item, fields[1..][k], searchValue, opts) == Some(true);
        assert fields[k + 1] == fields[1..][k];
      }
      if exists k :: 1 <= k < |fields| && FieldMatch(item, fields[k], searchValue, opts) == Some(true) {
        var k :| 1 <= k < |fields| && FieldMatch(item, fields[k], searchValue, opts) == Some(true);
        assert FieldMatch(item, fields[1..][k - 1], searchValue, opts) == Some(true);
      }
    }
  }

  /**
   * On a string field the default search is a case-insensitive substring
   * test, an exact-match search a case-insensitive equality, and with
   * `caseSensitive` both compare the characters as they are; a missing or
   * empty field never matches.
   */
  lemma FieldMatchOnText(item: Item, field: string, term: string, opts: SearchOptions)
    ensures !Truthy(Lookup(item, field)) ==> FieldMatch(item, field, term, opts) == Some(false)
    ensures Lookup(item, field).Str? && Lookup(item, field).s != "" ==>
      var s := Lookup(item, field).s;
      var text := if opts.caseSensitive then s else Lower(s);
      FieldMatch(item, field, term, opts) == Some(if opts.exactMatch then text == term else Contains(text, term))
  {
  }

  /**
   * `filteredData`: every item for a term that is too short; otherwise the
   * items the search function accepts, or `None` when it throws on any item.
   */
  function SearchResults(data: seq<Item>, term: string, fields: seq<string>, opts: SearchOptions): Option<seq<Item>>
  {
    if !TermActive(term, opts) then Some(data)
    else if exists i :: 0 <= i < |data| && SearchFunction(data[i], term, fields, opts).None? then None
    else Some(Filter(data, (item: Item) => SearchFunction(item, term, fields, opts) == Some(true)))
  }

  /**
   * A short term returns the data unchanged; otherwise the results keep the
   * data's order and hold exactly the items the search accepts, and the
   * search throws exactly when it throws on some item.
   */
  lemma SearchResultsSpec(data: seq<Item>, term: string, fields: seq<string>, opts: SearchOptions, item: Item)
    ensures !TermActive(term, opts) ==> SearchResults(data, term, fields, opts) == Some(data)
    ensures SearchResults(data, term, fields, opts).None? <==>
      exists i :: 0 <= i < |data| && SearchFunction(data[i], term, fields, opts).None?
    ensures SearchResults(data, term, fields, opts).Some? ==>
      var r := SearchResults(data, term, fields, opts).value;
      IsSubsequence(r, data)
      && (item in r <==> item in data && SearchFunction(item, term, fields, opts) == Some(true))
  {
    var test := (x: Item) => SearchFunction(x, term, fields, opts) == Some(true);
    if !TermActive(term, opts) {
      FilterAll(data, test);
      FilterIsSubsequence(data, test);
      FilterMembers(data, test, item);
    } else if SearchResults(data, term, fields, opts).Some? {
      FilterIsSubsequence(data, test);
      FilterMembers(data, test, item);
    }
  }

  datatype SearchStats = SearchStats(
    totalItems: nat, filteredItems: nat, searchTerm: string, isSearching: bool, hasResults: bool, hasSearchTerm: bool)

  /** `searchStats` over the data and the search results. */
  function StatsOf(data: seq<Item>, filtered: seq<Item>, term: string, isSearching: bool, minLength: int): (r: SearchStats)
    ensures r.hasResults <==> r.filteredItems > 0
  {
    SearchStats(|data|, |filtered|, term, isSearching, |filtered| > 0, |term| >= minLength)
  }

  /** The search never reports more results than items. */
  lemma StatsBounded(data: seq<Item>, term: string, fields: seq<string>, opts: SearchOptions, isSearching: bool)
    requires SearchResults(data, term, fields, opts).Some?
    ensures var st := StatsOf(data, SearchResults(data, term, fields, opts).value, term, isSearching, opts.minLength);
      st.filteredItems <= st.totalItems && st.totalItems == |data|
  {
  }

  /**
   * The search box: the typed term, the term the search uses, whether a
   * search is pending, and the debounce timers not yet fired. Each render
   * that sees a new typed term starts a timer holding that term, and no
   * timer is ever cleared; timers of the same delay fire in the order they
   * were started, oldest first.
   */
  class SearchBox {
    const opts: SearchOptions
    const fields: seq<string>
    var searchTerm: string
    var debouncedSearchTerm: string
    var isSearching: bool
    var timers: seq<string>

    /** The newest timer holds the typed term; with none pending, the search uses the typed term. */
    predicate Valid()
      reads this
    {
      (timers == [] ==> debouncedSearchTerm == searchTerm)
      && (timers != [] ==> timers[|timers| - 1] == searchTerm)
    }

    /** The first render starts a timer for the empty term. */
    constructor (fields: seq<string>, opts: SearchOptions)
      ensures Valid()
      ensures this.fields == fields && this.opts == opts
      ensures searchTerm == "" && debouncedSearchTerm == "" && !isSearching
      ensures timers == [""]
    {
      this.fields := fields;
      this.opts := opts;
      searchTerm := "";
      debouncedSearchTerm := "";
      isSearching := false;
      timers := [""];
    }

    /**
     * `updateSearchTerm(term)`: the term is typed and a search is pending; a
     * new timer starts only when the term differs from the typed one, since
     * the memoised timer depends on the term.
     */
    method UpdateSearchTerm(term: string)
      requires Valid()
      modifies this
      ensures Valid()
      ensures searchTerm == term && isSearching
      ensures debouncedSearchTerm == old(debouncedSearchTerm)
      ensures timers == if term == old(searchTerm) then old(timers) else old(timers) + [term]
    {
      if term != searchTerm {
        timers := timers + [term];
      }
      isSearching := true;
      searchTerm := term;
    }

    /** The oldest timer fires: the search takes the term that timer holds, which may be an old one. */
    method TimerFires()
      requires Valid() && timers != []
      modifies this
      ensures Valid()
      ensures debouncedSearchTerm == old(timers)[0] && !isSearching
      ensures searchTerm == old(searchTerm) && timers == old(timers)[1..]
      ensures timers == [] ==> debouncedSearchTerm == searchTerm
    {
      debouncedSearchTerm := timers[0];
      isSearching := false;
      timers := timers[1..];
    }

    /**
     * `clearSearch()`: every item is listed again; clearing a typed term
     * starts a timer for the empty term, and the older timers still fire.
     */
    method ClearSearch(data: seq<Item>)
      requires Valid()
      modifies this
      ensures Valid()
      ensures searchTerm == "" && debouncedSearchTerm == "" && !isSearching
      ensures timers == if old(searchTerm) == "" then old(timers) else old(timers) + [""]
      ensures FilteredData(data) == Some(data)
    {
      if searchTerm != "" {
        timers := timers + [""];
      }
      searchTerm := "";
      debouncedSearchTerm := "";
      isSearching := false;
    }

    function FilteredData(data: seq<Item>): Option<seq<Item>>
      reads this
    {
      SearchResults(data, debouncedSearchTerm, fields, opts)
    }
  }

  /**
   * Typing "a" and then "ab" starts two timers; when the first fires the
   * search uses "a" while "ab" is typed, and only the second brings the
   * search up to date.
   */
  method StaleTimerScenario(fields: seq<string>, opts: SearchOptions) returns (searched: string, typed: string)
    ensures searched == "a" && typed == "ab"
  {
    var box := new SearchBox(fields, opts);
    box.TimerFires();
    box.UpdateSearchTerm("a");
    box.UpdateSearchTerm("ab");
    assert box.timers == ["a", "ab"];
    box.TimerFires();
    searched, typed := box.debouncedSearchTerm, box.searchTerm;
    box.TimerFires();
    assert box.debouncedSearchTerm == "ab" && box.timers == [];
  }

  // ------------------------------------------------------------- filters

  /** The active filters: a field and its selected values, in insertion order. */
  type ActiveFilters = seq<(string, seq<Value>)>

  /**
   * One filter on an item: an empty selection accepts everything, an
   * array-valued field needs one selected value among its elements, any
   * other field needs its value to be selected.
   */
  predicate EntryPasses(item: Item, field: string, values: seq<Value>)
  {
    |values| == 0 ||
    (var v := Lookup(item, field);
     if v.Arr? then exists k :: 0 <= k < |values| && values[k] in v.elems else v in values)
  }

  predicate ItemPasses(item: Item, fs: ActiveFilters)
  {
    forall j :: 0 <= j < |fs| ==> EntryPasses(item, fs[j].0, fs[j].1)
  }

  /** `useFilters(...).filteredData`. */
  function ApplyFilters(data: seq<Item>, fs: ActiveFilters): seq<Item>
  {
    Filter(data, (item: Item) => ItemPasses(item, fs))
  }

  /** The filtered items keep the data's order and are exactly the items every filter accepts. */
  lemma ApplyFiltersSpec(data: seq<Item>, fs: ActiveFilters, item: Item)
    ensures IsSubsequence(ApplyFilters(data, fs), data)
    ensures item in ApplyFilters(data, fs) <==> item in data && ItemPasses(item, fs)
    ensures fs == [] ==> ApplyFilters(data, fs) == data
  {
    var test := (x: Item) => ItemPasses(x, fs);
    FilterIsSubsequence(data, test);
    FilterMembers(data, test, item);
    if fs == [] {
      FilterAll(data, test);
    }
  }

  /** After `updateFilter(field, values)` an item passes when the new selection and every other filter accept it. */
  lemma UpdateFilterEffect(fs: ActiveFilters, field: string, values: seq<Value>, item: Item)
    requires EntryKeysDistinct(fs)
    ensures ItemPasses(item, SetEntry(fs, field, values)) <==>
      EntryPasses(item, field, values) && forall j :: 0 <= j < |fs| && fs[j].0 != field ==> EntryPasses(item, fs[j].0, fs[j].1)
  {
    var r := SetEntry(fs, field, values);
    if ItemPasses(item, r) {
      var i :| 0 <= i < |r| && r[i] == (field, values);
      forall j | 0 <= j < |fs| && fs[j].0 != field ensures EntryPasses(item, fs[j].0, fs[j].1) {
        var k :| 0 <= k < |r| && r[k] == fs[j];
      }
    }
    if EntryPasses(item, field, values) && forall j :: 0 <= j < |fs| && fs[j].0 != field ==> EntryPasses(item, fs[j].0, fs[j].1) {
      forall j | 0 <= j < |r| ensures EntryPasses(item, r[j].0, r[j].1) {
        if r[j] != (field, values) {
          var k :| 0 <= k < |fs| && fs[k] == r[j];
        }
      }
    }
  }

  /** After `clearFilter(field)` an item passes when every other filter accepts it. */
  lemma ClearFilterEffect(fs: ActiveFilters, field: string, item: Item)
    ensures ItemPasses(item, RemoveEntry(fs, field)) <==>
      forall j :: 0 <= j < |fs| && fs[j].0 != field ==> EntryPasses(item, fs[j].0, fs[j].1)
  {
    var r := RemoveEntry(fs, field);
    if ItemPasses(item, r) {
      forall j | 0 <= j < |fs| && fs[j].0 != field ensures EntryPasses(item, fs[j].0, fs[j].1) {
        var k :| 0 <= k < |r| && r[k] == fs[j];
      }
    }
    if forall j :: 0 <= j < |fs| && fs[j].0 != field ==> EntryPasses(item, fs[j].0, fs[j].1) {
      forall j | 0 <= j < |r| ensures EntryPasses(item, r[j].0, r[j].1) {
        var k :| 0 <= k < |fs| && fs[k] == r[j];
      }
    }
  }

  /** `activeFilterCount`: the number of selected values over all filters. */
  function ActiveFilterCount(fs: ActiveFilters): nat
    decreases |fs|
  {
    if fs == [] then 0 else |fs[0].1| + ActiveFilterCount(fs[1..])
  }

  /** The number of values selected for one field, 0 if it has no filter. */
  function SelectedCount(fs: ActiveFilters, field: string): nat
    decreases |fs|
  {
    if fs == [] then 0 else if fs[0].0 == field then |fs[0].1| else SelectedCount(fs[1..], field)
  }

  lemma {:induction false} SelectedCountAbsent(fs: ActiveFilters, field: string)
    requires forall j :: 0 <= j < |fs| ==> fs[j].0 != field
    ensures SelectedCount(fs, field) == 0
    ensures RemoveEntry(fs, field) == fs
    decreases |fs|
  {
    if fs != [] {
      SelectedCountAbsent(fs[1..], field);
    }
  }

  /** Clearing a filter takes exactly its selected values off the count. */
  lemma {:induction false} ClearFilterCount(fs: ActiveFilters, field: string)
    requires EntryKeysDistinct(fs)
    ensures ActiveFilterCount(RemoveEntry(fs, field)) == ActiveFilterCount(fs) - SelectedCount(fs, field)
    decreases |fs|
  {
    if fs != [] {
      assert EntryKeysDistinct(fs[1..]) by {
        assert forall i :: 0 <= i < |fs[1..]| ==> fs[1..][i] == fs[i + 1];
      }
      if fs[0].0 == field {
        SelectedCountAbsent(fs[1..], field);
      } else {
        ClearFilterCount(fs[1..], field);
        assert RemoveEntry(fs, field)[1..] == RemoveEntry(fs[1..], field);
      }
    }
  }

  /** Setting a filter's selection replaces its values in the count. */
  lemma {:induction false} UpdateFilterCount(fs: ActiveFilters, field: string, values: seq<Value>)
    requires EntryKeysDistinct(fs)
    ensures ActiveFilterCount(SetEntry(fs, field, values)) == ActiveFilterCount(fs) - SelectedCount(fs, field) + |values|
    decreases |fs|
  {
    if fs != [] {
      assert EntryKeysDistinct(fs[1..]) by {
        assert forall i :: 0 <= i < |fs[1..]| ==> fs[1..][i] == fs[i + 1];
      }
      var r := SetEntry(fs, field, values);
      if fs[0].0 == field {
        assert r[1..] == fs[1..];
      } else {
        UpdateFilterCount(fs[1..], field, values);
        assert r[1..] == SetEntry(fs[1..], field, values);
      }
    }
  }

  /** The filter state of a list page. */
  class FilterPanel {
    var activeFilters: ActiveFilters

    ghost predicate Valid()
      reads this
    {
      EntryKeysDistinct(activeFilters)
    }

    constructor ()
      ensures Valid() && activeFilters == []
    {
      activeFilters := [];
    }

    method UpdateFilter(field: string, values: seq<Value>)
      requires Valid()
      modifies this
      ensures Valid()
      ensures activeFilters == SetEntry(old(activeFilters), field, values)
      ensures ActiveFilterCount(activeFilters) ==
        ActiveFilterCount(old(activeFilters)) - SelectedCount(old(activeFilters), field) + |values|
    {
      UpdateFilterCount(activeFilters, field, values);
      activeFilters := SetEntry(activeFilters, field, values);
    }

    method ClearFilter(field: string)
      requires Valid()
      modifies this
      ensures Valid()
      ensures activeFilters == RemoveEntry(old(activeFilters), field)
      ensures ActiveFilterCount(activeFilters) == ActiveFilterCount(old(activeFilters)) - SelectedCount(old(activeFilters), field)
    {
      ClearFilterCount(activeFilters, field);
      activeFilters := RemoveEntry(activeFilters, field);
    }

    method ClearAllFilters()
      modifies this
      ensures Valid() && activeFilters == [] && ActiveFilterCount(activeFilters) == 0
    {
      activeFilters := [];
    }
  }

  // ------------------------------------------------------------- filter options

  /** What one item adds to a field's option set: nothing when null or undefined, an array's elements, else the value. */
  function ItemValues(item: Item, field: string): seq<Value>
  {
    var v := Lookup(item, field);
    if IsNullish(v) then [] else if v.Arr? then v.elems else [v]
  }

  /** The values in the order the nested loops add them. */
  function FieldValues(data: seq<Item>, field: string): seq<Value>
    decreases |data|
  {
    if data == [] then [] else FieldValues(data[..|data| - 1], field) + ItemValues(data[|data| - 1], field)
  }

  lemma {:induction false} FieldValuesMembers(data: seq<Item>, field: string, v: Value)
    ensures v in FieldValues(data, field) <==> exists i :: 0 <= i < |data| && v in ItemValues(data[i], field)
    decreases |data|
  {
    if data != [] {
      var n := |data| - 1;
      var init := data[..n];
      var last := ItemValues(data[n], field);
      FieldValuesMembers(init, field, v);
      assert FieldValues(data, field) == FieldValues(init, field) + last;
      assert v in FieldValues(data, field) <==> v in FieldValues(init, field) || v in last;
      if v in FieldValues(data, field) {
        if v in FieldValues(init, field) {
          var i :| 0 <= i < |init| && v in ItemValues(init[i], field);
          assert init[i] == data[i];
          assert v in ItemValues(data[i], field);
        } else {
          assert v in ItemValues(data[n], field);
        }
      }
      if exists i :: 0 <= i < |data| && v in ItemValues(data[i], field) {
        var i :| 0 <= i < |data| && v in ItemValues(data[i], field);
        if i < n {
          assert init[i] == data[i];
          assert v in ItemValues(init[i], field);
        }
      }
    }
  }

  /** `added.forEach(v => values.add(v))` on the set built from `seen`. */
  method AddEach(values: seq<Value>, ghost seen: seq<Value>, added: seq<Value>) returns (r: seq<Value>)
    requires values == Dedup(seen)
    ensures r == Dedup(seen + added)
  {
    r := values;
    assert seen + added[..0] == seen;
    for j := 0 to |added|
      invariant r == Dedup(seen + added[..j])
    {
      DedupPrefixStep(r, seen, added, j);
      if added[j] !in r {
        r := r + [added[j]];
      }
    }
    FullPrefix(added);
  }

  /**
   * The set of values of one field, as the nested `forEach` loops fill it:
   * `values` holds every value once, in the order first added.
   */
  method CollectValues(data: seq<Item>, field: string) returns (values: seq<Value>)
    ensures values == Dedup(FieldValues(data, field))
  {
    values := [];
    ghost var cur: seq<Value> := [];
    for i := 0 to |data|
      invariant cur == FieldValues(data[..i], field)
      invariant values == Dedup(cur)
    {
      var value := Lookup(data[i], field);
      if !IsNullish(value) {
        var added := if value.Arr? then value.elems else [value];
        values := AddEach(values, cur, added);
      } else {
        assert cur + ItemValues(data[i], field) == cur;
      }
      cur := cur + ItemValues(data[i], field);
      assert data[..i + 1][..i] == data[..i];
    }
    assert data[..|data|] == data;
  }

  /** `Array.from(values).sort()` for one field. */
  function OptionValues(data: seq<Item>, field: string): seq<Value>
  {
    DefaultSort(Dedup(FieldValues(data, field)))
  }

  /**
   * A field's options hold each value once, sorted by text with undefined
   * last, and a value is an option exactly when some item holds it in the
   * field, directly or as an element of an array.
   */
  lemma OptionValuesSpec(data: seq<Item>, field: string, v: Value)
    ensures Distinct(OptionValues(data, field))
    ensures v in OptionValues(data, field) <==> exists i :: 0 <= i < |data| && v in ItemValues(data[i], field)
    ensures forall i, j :: 0 <= i < j < |OptionValues(data, field)| && OptionValues(data, field)[j] != Undefined ==>
      OptionValues(data, field)[i] != Undefined &&
      !Sorting.StrLt(ToJsString(OptionValues(data, field)[j]), ToJsString(OptionValues(data, field)[i]))
  {
    var all := FieldValues(data, field);
    var distinct := Dedup(all);
    DistinctPermutation(distinct, DefaultSort(distinct));
    DefaultSortOrdered(distinct);
    FieldValuesMembers(data, field, v);
    assert v in DefaultSort(distinct) <==> v in multiset(distinct);
    if v in distinct {
      var i :| 0 <= i < |distinct| && distinct[i] == v;
    }
    if v in all {
      var i :| 0 <= i < |all| && all[i] == v;
    }
  }

  /** `{...config, values}` for one field. */
  function OptionEntry(data: seq<Item>, config: Value, field: string): Value
  {
    Obj(Put(Spread(config), "values", Arr(OptionValues(data, field))))
  }

  /** `filterOptions` after handling the fields `keys` in order. */
  function OptionsFor(data: seq<Item>, filterConfig: Record, keys: seq<string>): Record
    decreases |keys|
  {
    if keys == [] then []
    else
      var field := keys[|keys| - 1];
      Put(OptionsFor(data, filterConfig, keys[..|keys| - 1]), field, OptionEntry(data, Lookup(filterConfig, field), field))
  }

  /** Every configured field gets its configuration with its option values; no other field appears. */
  lemma {:induction false} OptionsForLookup(data: seq<Item>, filterConfig: Record, keys: seq<string>, field: string)
    ensures Lookup(OptionsFor(data, filterConfig, keys), field) ==
      if field in keys then OptionEntry(data, Lookup(filterConfig, field), field) else Undefined
    ensures HasKey(OptionsFor(data, filterConfig, keys), field) <==> field in keys
    decreases |keys|
  {
    if keys != [] {
      var init := keys[..|keys| - 1];
      var last := keys[|keys| - 1];
      var prev := OptionsFor(data, filterConfig, init);
      var e := OptionEntry(data, Lookup(filterConfig, last), last);
      assert OptionsFor(data, filterConfig, keys) == Put(prev, last, e);
      InFrontOrLast(keys, field);
      LookupPut(prev, last, e, field);
      if field != last {
        OptionsForLookup(data, filterConfig, init, field);
      }
    }
  }

  lemma OptionsForStep(data: seq<Item>, filterConfig: Record, keys: seq<string>, k: nat)
    requires k < |keys|
    ensures OptionsFor(data, filterConfig, keys[..k + 1]) ==
      Put(OptionsFor(data, filterConfig, keys[..k]), keys[k], OptionEntry(data, Lookup(filterConfig, keys[k]), keys[k]))
  {
    assert keys[..k + 1][..k] == keys[..k];
  }

  /** `filterOptions`: one pass per configured field. */
  method FilterOptions(data: seq<Item>, filterConfig: Record) returns (options: Record)
    ensures options == OptionsFor(data, filterConfig, Keys(filterConfig))
  {
    var keys := Keys(filterConfig);
    options := [];
    for k := 0 to |keys|
      invariant options == OptionsFor(data, filterConfig, keys[..k])
    {
      var field := keys[k];
      var values := CollectValues(data, field);
      var sorted := DefaultSort(values);
      OptionsForStep(data, filterConfig, keys, k);
      options := Put(options, field, Obj(Put(Spread(Lookup(filterConfig, field)), "values", Arr(sorted))));
    }
    assert keys[..|keys|] == keys;
  }

  // ------------------------------------------------------------- combined

  /** `useSearchAndFilter(...).finalData`: the filters applied to the search results. */
  function FinalData(data: seq<Item>, term: string, fields: seq<string>, opts: SearchOptions, fs: ActiveFilters): Option<seq<Item>>
  {
    match SearchResults(data, term, fields, opts)
    case None => None
    case Some(found) => Some(ApplyFilters(found, fs))
  }

  /**
   * The final list keeps the data's order and holds exactly the items both
   * the search and every filter accept.
   */
  lemma FinalDataSpec(data: seq<Item>, term: string, fields: seq<string>, opts: SearchOptions, fs: ActiveFilters, item: Item)
    requires SearchResults(data, term, fields, opts).Some?
    ensures var r := FinalData(data, term, fields, opts, fs).value;
      IsSubsequence(r, data)
      && (item in r <==> item in data && SearchFunction(item, term, fields, opts) == Some(true) && ItemPasses(item, fs))
  {
    var found := SearchResults(data, term, fields, opts).value;
    SearchResultsSpec(data, term, fields, opts, item);
    ApplyFiltersSpec(found, fs, item);
    var filterTest := (x: Item) => ItemPasses(x, fs);
    if !TermActive(term, opts) {
      FilterIsSubsequence(data, filterTest);
    } else {
      var searchTest := (x: Item) => SearchFunction(x, term, fields, opts) == Some(true);
      var both := (x: Item) => searchTest(x) && filterTest(x);
      FilterFilter(data, searchTest, filterTest, both);
      FilterIsSubsequence(data, both);
    }
  }
}
