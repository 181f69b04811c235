/**
 * The search-and-filter controls: the filter dropdown's selection toggle,
 * keyboard handling and button text, the results-count line, and the
 * chips that list the active filters.
 *
 * The dropdown's selection is a property owned by its parent; a handler
 * returns the selection it passes to `onChange` rather than storing it.
 * Focus moves and the outside-click listener are not modelled.
 */
module SearchFilter {
  import opened Common
  import Accessibility

  /** An option of a dropdown: the value it selects and the label it shows. */
  datatype Choice = Choice(value: string, caption: string)

  // ------------------------------------------------------------ selection

  /** The selection `handleOptionClick` hands to `onChange` when `value` is clicked. */
  function Toggled(selected: seq<string>, value: string, multiple: bool): (r: seq<string>)
    ensures !multiple ==> r == [value]
    ensures multiple ==> (value in r <==> value !in selected)
    ensures multiple ==> forall x :: x != value ==> (x in r <==> x in selected)
  {
    if !multiple then [value]
    else if value in selected then
      DeselectMembers(selected, value);
      Filter(selected, (v: string) => v != value)
    else
      selected + [value]
  }

  lemma DeselectMembers(selected: seq<string>, value: string)
    ensures forall x :: x in Filter(selected, (v: string) => v != value) <==> x in selected && x != value
  {
    forall x {
      FilterMembers(selected, (v: string) => v != value, x);
    }
  }

  /** Clicking the same value twice in multiple mode restores which values are selected. */
  lemma ToggleTwiceRestoresMembership(selected: seq<string>, value: string, x: string)
    ensures x in Toggled(Toggled(selected, value, true), value, true) <==> x in selected
  {
  }

  /** On a selection without repeats, selecting and then deselecting a new value gives the selection back exactly. */
  lemma SelectThenDeselect(selected: seq<string>, value: string)
    requires value !in selected
    ensures Toggled(Toggled(selected, value, true), value, true) == selected
  {
    var p := (v: string) => v != value;
    FilterSnoc(selected, value, p);
    FilterAll(selected, p);
  }

  /** Deselecting keeps the other values in their order. */
  lemma DeselectKeepsOrder(selected: seq<string>, value: string)
    requires value in selected
    ensures IsSubsequence(Toggled(selected, value, true), selected)
  {
    FilterIsSubsequence(selected, (v: string) => v != value);
  }

  // ------------------------------------------------------------ button text

  /** `options.find(opt => opt.value === value)?.caption`. */
  function FindLabel(options: seq<Choice>, value: string): (r: Option<string>)
    ensures r.None? <==> forall i :: 0 <= i < |options| ==> options[i].value != value
    ensures r.Some? ==> exists i :: 0 <= i < |options| && options[i].value == value && options[i].caption == r.value
                                    && forall j :: 0 <= j < i ==> options[j].value != value
  {
    if options == [] then None
    else if options[0].value == value then Some(options[0].caption)
    else
      var rest := FindLabel(options[1..], value);
      if rest.Some? then
        var i :| 0 <= i < |options[1..]| && options[1..][i].value == value && options[1..][i].caption == rest.value
                 && forall j :: 0 <= j < i ==> options[1..][j].value != value;
        assert options[i + 1].value == value && options[i + 1].caption == rest.value;
        assert forall j :: 1 <= j < i + 1 ==> options[j] == options[1..][j - 1];
        rest
      else
        assert forall i :: 1 <= i < |options| ==> options[i] == options[1..][i - 1];
        rest
  }

  /** `displayText`: the placeholder, the one selected value's label (or the value), or a count. */
  function DisplayText(selected: seq<string>, options: seq<Choice>, placeholder: string): (r: string)
    ensures |selected| == 0 ==> r == placeholder
    ensures |selected| == 1 ==> (r == selected[0] || exists i :: 0 <= i < |options| && options[i].value == selected[0]
                                                              && options[i].caption == r && r != "")
    ensures |selected| >= 2 ==> r == IntToString(|selected|) + " selected"
  {
    if |selected| == 0 then placeholder
    else if |selected| == 1 then
      var found := FindLabel(options, selected[0]);
      if found.Some? && found.value != "" then found.value else selected[0]
    else IntToString(|selected|) + " selected"
  }

  /** A single value without a labelled option shows as itself. */
  lemma UnlabelledValueShown(value: string, options: seq<Choice>, placeholder: string)
    requires forall i :: 0 <= i < |options| && options[i].value == value ==> options[i].caption == ""
    ensures DisplayText([value], options, placeholder) == value
  {
    var found := FindLabel(options, value);
    if found.Some? {
      var i :| 0 <= i < |options| && options[i].value == value && options[i].caption == found.value
               && forall j :: 0 <= j < i ==> options[j].value != value;
    }
  }

  // ------------------------------------------------------------ the dropdown

  /** `FilterDropdown`'s own state: whether the list is open and which option has focus. */
  class Dropdown {
    var isOpen: bool
    var focusedIndex: int

    constructor()
      ensures !isOpen && focusedIndex == -1
    {
      isOpen := false;
      focusedIndex := -1;
    }

    /** `handleToggle`: opens or closes the list and clears the focus. */
    method HandleToggle()
      modifies this
      ensures isOpen == !old(isOpen)
      ensures focusedIndex == -1
    {
      isOpen := !isOpen;
      focusedIndex := -1;
    }

    /** `handleOptionClick`: the toggled selection; a single-choice dropdown also closes. */
    method HandleOptionClick(selected: seq<string>, option: Choice, multiple: bool) returns (emitted: seq<string>)
      modifies this
      ensures emitted == Toggled(selected, option.value, multiple)
      ensures isOpen == (multiple && old(isOpen))
      ensures focusedIndex == old(focusedIndex)
    {
      emitted := Toggled(selected, option.value, multiple);
      if !multiple {
        isOpen := false;
      }
    }

    /**
     * `handleKeyDown`: the arrow keys move the focus; Enter and Space pick
     * the focused option when there is one and otherwise toggle the list;
     * Escape closes it. Returns the selection handed to `onChange`, if any.
     */
    method HandleKeyDown(key: string, options: seq<Choice>, selected: seq<string>, multiple: bool)
      returns (prevented: bool, emitted: Option<seq<string>>)
      modifies this
      ensures var arrows := Accessibility.HandleArrowKeys(key, |options|, old(focusedIndex));
              prevented <==> arrows.prevented || key == "Enter" || key == " "
      ensures emitted.Some? <==> (key == "Enter" || key == " ") && 0 <= old(focusedIndex) < |options|
      ensures emitted.Some? ==> emitted.value == Toggled(selected, options[old(focusedIndex)].value, multiple)
                                && isOpen == (multiple && old(isOpen)) && focusedIndex == old(focusedIndex)
      ensures (key == "Enter" || key == " ") && emitted.None? ==> isOpen == !old(isOpen) && focusedIndex == -1
      ensures key == "Escape" ==> !isOpen && focusedIndex == old(focusedIndex)
      ensures var arrows := Accessibility.HandleArrowKeys(key, |options|, old(focusedIndex));
              arrows.prevented ==> isOpen == old(isOpen) && focusedIndex == arrows.newIndex.value
      ensures !(key in {"ArrowDown", "ArrowUp", "Home", "End", "Enter", " ", "Escape"}) ==>
                isOpen == old(isOpen) && focusedIndex == old(focusedIndex) && !prevented
    {
      var arrows := Accessibility.HandleArrowKeys(key, |options|, focusedIndex);
      prevented := arrows.prevented;
      emitted := None;
      if arrows.newIndex.Some? {
        focusedIndex := arrows.newIndex.value;
      }
      if key == "Enter" || key == " " {
        prevented := true;
        if 0 <= focusedIndex < |options| {
          var picked := HandleOptionClick(selected, options[focusedIndex], multiple);
          emitted := Some(picked);
        } else {
          HandleToggle();
        }
      }
      if key == "Escape" {
        isOpen := false;
      }
    }
  }

  // ------------------------------------------------------------ results count

  /** What the results line shows: both counts with the number hidden, or a bare count. */
  datatype ResultsLine = Showing(shown: int, total: int, hidden: Option<int>) | Bare(count: int)

  /** The results line of `SearchFilter`; `None` stands for an `undefined` count. */
  function ResultsSummary(resultsCount: Option<int>, totalCount: Option<int>): (r: ResultsLine)
    ensures r.Showing? <==> resultsCount.Some? && totalCount.Some?
    ensures r.Showing? ==> r.shown == resultsCount.value && r.total == totalCount.value
    ensures r.Showing? ==> (r.hidden.Some? <==> r.shown != r.total)
    ensures r.Showing? && r.hidden.Some? ==> r.shown + r.hidden.value == r.total
    ensures r.Bare? ==> r.count == (if resultsCount.Some? then resultsCount.value else 0)
  {
    if resultsCount.Some? && totalCount.Some? then
      var results, total := resultsCount.value, totalCount.value;
      Showing(results, total, if results != total then Some(total - results) else None)
    else
      Bare(if resultsCount.Some? && resultsCount.value != 0 then resultsCount.value else 0)
  }

  // ------------------------------------------------------------ chips

  /** A filter as `SearchFilter` and `FilterChips` receive it; `None` stands for no `selectedValues`. */
  datatype FilterSpec = FilterSpec(key: string, title: string, options: seq<Choice>, selectedValues: Option<seq<string>>)

  /** A filter with at least one selected value. */
  predicate Active(f: FilterSpec)
  {
    f.selectedValues.Some? && |f.selectedValues.value| > 0
  }

  /** `hasFilters`: some filter has a selection. */
  function HasFilters(filters: seq<FilterSpec>): (r: bool)
    ensures r <==> exists i :: 0 <= i < |filters| && Active(filters[i])
  {
    if filters == [] then false
    else if Active(filters[0]) then true
    else
      assert forall i :: 1 <= i < |filters| ==> filters[i] == filters[1..][i - 1];
      HasFilters(filters[1..])
  }

  /** A chip: the filter's key and label, the value it removes, and the text it shows. */
  datatype Chip = Chip(key: string, title: string, value: string, text: string)

  /** The text of one chip: the option's label when it has one, else the value. */
  function ChipText(options: seq<Choice>, value: string): (r: string)
    ensures r == value || r != ""
  {
    var found := FindLabel(options, value);
    if found.Some? && found.value != "" then found.value else value
  }

  function ChipsOf(f: FilterSpec): seq<Chip>
  {
    if f.selectedValues.None? then []
    else
      var vs := f.selectedValues.value;
      seq(|vs|, i requires 0 <= i < |vs| => Chip(f.key, f.title, vs[i], ChipText(f.options, vs[i])))
  }

  /** The chips `FilterChips` renders, one per selected value, filter by filter; nothing without an active filter. */
  function Chips(filters: seq<FilterSpec>): (r: seq<Chip>)
  {
    if !HasFilters(filters) then [] else AllChips(filters)
  }

  function AllChips(filters: seq<FilterSpec>): (r: seq<Chip>)
    decreases |filters|
  {
    if filters == [] then [] else ChipsOf(filters[0]) + AllChips(filters[1..])
  }

  /** There is one chip per selected value, so the check before rendering only skips an empty list. */
  lemma {:induction false} AllChipsCount(filters: seq<FilterSpec>)
    ensures |AllChips(filters)| == 0 <==> !HasFilters(filters)
    decreases |filters|
  {
    if filters != [] {
      AllChipsCount(filters[1..]);
    }
  }

  /** Every chip names one of the filters and removes a value selected in it. */
  predicate CarriesSelected(filters: seq<FilterSpec>, c: Chip)
  {
    exists i :: 0 <= i < |filters| && filters[i].key == c.key && filters[i].selectedValues.Some?
                && c.value in filters[i].selectedValues.value
  }

  lemma {:induction false} AllChipsCarrySelected(filters: seq<FilterSpec>)
    ensures forall c :: c in AllChips(filters) ==> CarriesSelected(filters, c)
    decreases |filters|
  {
    if filters != [] {
      AllChipsCarrySelected(filters[1..]);
      forall c | c in AllChips(filters)
        ensures CarriesSelected(filters, c)
      {
        if c in ChipsOf(filters[0]) {
          var vs := filters[0].selectedValues.value;
          var k :| 0 <= k < |vs| && ChipsOf(filters[0])[k] == c;
          assert c.value == vs[k];
        } else {
          assert c in AllChips(filters[1..]);
          var i :| 0 <= i < |filters[1..]| && filters[1..][i].key == c.key && filters[1..][i].selectedValues.Some?
                   && c.value in filters[1..][i].selectedValues.value;
          assert filters[i + 1] == filters[1..][i];
        }
      }
    }
  }

  /** Chips render exactly when some filter is active, and each carries a selected value of its filter. */
  lemma ChipsPresent(filters: seq<FilterSpec>)
    ensures Chips(filters) != [] <==> HasFilters(filters)
    ensures forall c :: c in Chips(filters) ==> CarriesSelected(filters, c)
  {
    AllChipsCount(filters);
    AllChipsCarrySelected(filters);
  }
}
