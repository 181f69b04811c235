/**
 * The admin panel's shared state: the reducer over its twelve action types,
 * and the provider's actions that log in and out and add, edit and delete
 * entries of a content section.
 *
 * Every payload is an arbitrary JavaScript value. A content section such as
 * `data.projects` is an object whose first own key holds the section's list.
 */
module AdminContext {
  import opened Common
  import opened JsValue

  datatype State = State(
    isAuthenticated: Value,
    user: Value,
    data: Value,
    activeTab: Value,
    sidebarOpen: Value,
    editingItem: Value,
    editingType: Value,
    showAddForm: Value,
    loading: Value,
    error: Value)

  /** The nine content sections; every one but `home` holds an empty list under its own name. */
  const Sections: seq<string> :=
    ["home", "projects", "publications", "skills", "experience", "achievements", "certifications", "about", "contact"]

  function SectionRecord(name: string): Value
  {
    if name == "home" then Obj([]) else Obj([(name, Arr([]))])
  }

  function InitialData(): Value
  {
    Obj(seq(|Sections|, i requires 0 <= i < |Sections| => (Sections[i], SectionRecord(Sections[i]))))
  }

  function InitialState(): State
  {
    State(Bool(false), Null, InitialData(), Str("dashboard"), Bool(false), Null, Str(""), Bool(false), Bool(false), Null)
  }

  datatype Action =
    | SetAuthenticated(payload: Value)
    | SetUser(payload: Value)
    | SetData(payload: Value)
    | UpdateData(kind: string, payload: Value)
    | SetActiveTab(payload: Value)
    | SetSidebarOpen(payload: Value)
    | SetEditingItem(payload: Value)
    | SetEditingType(payload: Value)
    | SetShowAddForm(payload: Value)
    | SetLoading(payload: Value)
    | SetError(payload: Value)
    | ResetState
    | Unknown(name: string)

  /** `state[name]` for the state's ten fields. */
  function Field(s: State, name: string): Value
  {
    match name
    case "isAuthenticated" => s.isAuthenticated
    case "user" => s.user
    case "data" => s.data
    case "activeTab" => s.activeTab
    case "sidebarOpen" => s.sidebarOpen
    case "editingItem" => s.editingItem
    case "editingType" => s.editingType
    case "showAddForm" => s.showAddForm
    case "loading" => s.loading
    case "error" => s.error
    case _ => Undefined
  }

  /** The field an action writes, or "" for the actions that write the whole state or nothing. */
  function Target(a: Action): string
  {
    match a
    case SetAuthenticated(_) => "isAuthenticated"
    case SetUser(_) => "user"
    case SetData(_) => "data"
    case UpdateData(_, _) => "data"
    case SetActiveTab(_) => "activeTab"
    case SetSidebarOpen(_) => "sidebarOpen"
    case SetEditingItem(_) => "editingItem"
    case SetEditingType(_) => "editingType"
    case SetShowAddForm(_) => "showAddForm"
    case SetLoading(_) => "loading"
    case SetError(_) => "error"
    case ResetState => ""
    case Unknown(_) => ""
  }

  /** `adminReducer`. */
  function Reduce(s: State, a: Action): State
  {
    match a
    case SetAuthenticated(p) => s.(isAuthenticated := p)
    case SetUser(p) => s.(user := p)
    case SetData(p) => s.(data := p)
    case UpdateData(kind, p) => s.(data := Obj(Put(Spread(s.data), kind, p)))
    case SetActiveTab(p) => s.(activeTab := p)
    case SetSidebarOpen(p) => s.(sidebarOpen := p)
    case SetEditingItem(p) => s.(editingItem := p)
    case SetEditingType(p) => s.(editingType := p)
    case SetShowAddForm(p) => s.(showAddForm := p)
    case SetLoading(p) => s.(loading := p)
    case SetError(p) => s.(error := p)
    case ResetState => InitialState()
    case Unknown(_) => s
  }

  /** Every SET_ action stores its payload in its own field and changes no other field. */
  lemma SetterChangesOneField(s: State, a: Action, name: string)
    requires !a.UpdateData? && !a.ResetState? && !a.Unknown?
    ensures Field(Reduce(s, a), Target(a)) == a.payload
    ensures name != Target(a) ==> Field(Reduce(s, a), name) == Field(s, name)
  {
  }

  /**
   * UPDATE_DATA stores its data under `data[type]` and keeps every other
   * section, and every other field of the state, as it was.
   */
  lemma UpdateDataChangesOneSection(s: State, kind: string, d: Value, name: string, key: string)
    ensures var r := Reduce(s, UpdateData(kind, d));
      r.data.Obj? && Lookup(r.data.fields, kind) == d
      && (key != kind ==> Lookup(r.data.fields, key) == Lookup(Spread(s.data), key))
      && (HasKey(r.data.fields, key) <==> HasKey(Spread(s.data), key) || key == kind)
      && (name != "data" ==> Field(r, name) == Field(s, name))
  {
    LookupPut(Spread(s.data), kind, d, key);
    LookupPut(Spread(s.data), kind, d, kind);
  }

  /** RESET_STATE yields the initial state and an unknown action changes nothing. */
  lemma ResetAndUnknown(s: State, name: string)
    ensures Reduce(s, ResetState) == InitialState()
    ensures Reduce(s, Unknown(name)) == s
  {
  }

  /** Dispatching the same action twice has the effect of dispatching it once. */
  lemma ReduceIdempotent(s: State, a: Action)
    ensures Reduce(Reduce(s, a), a) == Reduce(s, a)
  {
    if a.UpdateData? {
      PutTwice(Spread(s.data), a.kind, a.payload);
    }
  }

  // ------------------------------------------------------------- list edits

  /** The key the list of a section lives under: its first own key, "undefined" for an empty object. */
  function FirstKey(keys: seq<string>): string
  {
    if keys == [] then "undefined" else keys[0]
  }

  /**
   * `Object.keys(currentData)[0]` and `[...(currentData[firstKey] || [])]`;
   * `None` when either throws: a section that is null or undefined, or a
   * truthy list value that cannot be spread.
   */
  function SectionList(current: Value): Option<(string, seq<Value>)>
  {
    match OwnKeys(current)
    case None => None
    case Some(keys) =>
      var k := FirstKey(keys);
      match ArraySpread(Or(Property(current, k), Arr([])))
      case None => None
      case Some(xs) => Some((k, xs))
  }

  /** A section whose first key holds an array yields that key and that array. */
  lemma SectionListOfObject(r: Record)
    requires Keys(r) != [] && Lookup(r, Keys(r)[0]).Arr?
    ensures SectionList(Obj(r)) == Some((Keys(r)[0], Lookup(r, Keys(r)[0]).elems))
  {
    var k := Keys(r)[0];
    assert OwnKeys(Obj(r)) == Some(Keys(r));
    assert FirstKey(Keys(r)) == k;
    assert Property(Obj(r), k) == Lookup(r, k);
  }

  /** An empty section keeps its list under the key "undefined"; a missing section throws. */
  lemma SectionListEdgeCases()
    ensures SectionList(Obj([])) == Some(("undefined", []))
    ensures SectionList(Undefined) == None && SectionList(Null) == None
  {
    assert KeysOf([]) == [];
    assert Keys([]) == [];
    assert OwnKeys(Obj([])) == Some([]);
  }

  /** `{...currentData, [firstKey]: list}`. */
  function WithList(current: Value, k: string, xs: seq<Value>): (r: Value)
    ensures r.Obj?
  {
    Obj(Put(Spread(current), k, Arr(xs)))
  }

  /** The section after an edit holds the new list under its key and keeps every other key. */
  lemma WithListEffect(current: Value, k: string, xs: seq<Value>, key: string)
    ensures Lookup(WithList(current, k, xs).fields, k) == Arr(xs)
    ensures key != k ==> Lookup(WithList(current, k, xs).fields, key) == Lookup(Spread(current), key)
  {
    LookupPut(Spread(current), k, Arr(xs), key);
    LookupPut(Spread(current), k, Arr(xs), k);
  }

  /**
   * `array[index] = item`: an index inside the list replaces that entry, one
   * past the end grows the list with holes (read as undefined) up to it; a
   * negative index is no array element and leaves the elements as they are.
   */
  function SetIndex(xs: seq<Value>, index: int, item: Value): (r: seq<Value>)
    ensures |r| == if index >= |xs| then index + 1 else |xs|
    ensures 0 <= index ==> r[index] == item
    ensures forall i :: 0 <= i < |xs| && i != index ==> r[i] == xs[i]
    ensures forall i :: |xs| <= i < |r| && i != index ==> r[i] == Undefined
  {
    if index < 0 then xs
    else if index < |xs| then xs[index := item]
    else xs + seq(index - |xs|, _ => Undefined) + [item]
  }

  /** `array.splice(index, 1)`: a negative index counts from the end; past the end nothing is removed. */
  function RemoveAt(xs: seq<Value>, index: int): (r: seq<Value>)
    ensures var start := RelativeIndex(index, |xs|);
      if start < |xs| then
        |r| == |xs| - 1
        && (forall i :: 0 <= i < start ==> r[i] == xs[i])
        && (forall i :: start <= i < |r| ==> r[i] == xs[i + 1])
      else r == xs
  {
    var start := RelativeIndex(index, |xs|);
    if start < |xs| then xs[..start] + xs[start + 1..] else xs
  }

  /** Deleting the entry just appended restores the list; writing an entry back unchanged changes nothing. */
  lemma EditsUndo(xs: seq<Value>, item: Value, index: int)
    ensures RemoveAt(xs + [item], |xs|) == xs
    ensures 0 <= index < |xs| ==> SetIndex(xs, index, xs[index]) == xs
  {
    assert (xs + [item])[..|xs|] == xs;
  }

  /** `addItem`'s new section: the list with `newItem` at the end, or `None` when it throws. */
  function AddItemData(current: Value, newItem: Value): (r: Option<Value>)
    ensures r.Some? <==> SectionList(current).Some?
    ensures r.Some? ==> var (k, xs) := SectionList(current).value;
      r.value == WithList(current, k, xs + [newItem])
  {
    match SectionList(current)
    case None => None
    case Some((k, xs)) => Some(WithList(current, k, xs + [newItem]))
  }

  /** `addItem` grows the list by one entry at the end and keeps the earlier entries. */
  lemma AddItemAppends(current: Value, newItem: Value, key: string)
    requires SectionList(current).Some?
    ensures var (k, xs) := SectionList(current).value;
      var list := Lookup(AddItemData(current, newItem).value.fields, k);
      list.Arr? && |list.elems| == |xs| + 1 && list.elems[..|xs|] == xs && list.elems[|xs|] == newItem
      && (key != k ==> Lookup(AddItemData(current, newItem).value.fields, key) == Lookup(Spread(current), key))
  {
    var (k, xs) := SectionList(current).value;
    WithListEffect(current, k, xs + [newItem], key);
    assert (xs + [newItem])[..|xs|] == xs;
  }

  /** `editItem`'s new section, or `None` when it throws. */
  function EditItemData(current: Value, index: int, item: Value): (r: Option<Value>)
    ensures r.Some? <==> SectionList(current).Some?
  {
    match SectionList(current)
    case None => None
    case Some((k, xs)) => Some(WithList(current, k, SetIndex(xs, index, item)))
  }

  /** `editItem` at an index inside the list replaces only that entry. */
  lemma EditItemReplaces(current: Value, index: int, item: Value, key: string)
    requires SectionList(current).Some?
    requires 0 <= index < |SectionList(current).value.1|
    ensures var (k, xs) := SectionList(current).value;
      var list := Lookup(EditItemData(current, index, item).value.fields, k);
      list.Arr? && |list.elems| == |xs| && list.elems[index] == item
      && (forall i :: 0 <= i < |xs| && i != index ==> list.elems[i] == xs[i])
      && (key != k ==> Lookup(EditItemData(current, index, item).value.fields, key) == Lookup(Spread(current), key))
  {
    var (k, xs) := SectionList(current).value;
    WithListEffect(current, k, SetIndex(xs, index, item), key);
  }

  /** `deleteItem`'s new section, or `None` when it throws. */
  function DeleteItemData(current: Value, index: int): (r: Option<Value>)
    ensures r.Some? <==> SectionList(current).Some?
  {
    match SectionList(current)
    case None => None
    case Some((k, xs)) => Some(WithList(current, k, RemoveAt(xs, index)))
  }

  /** `deleteItem` at an index inside the list removes that entry; later entries move down by one. */
  lemma DeleteItemRemoves(current: Value, index: int, key: string)
    requires SectionList(current).Some?
    requires 0 <= index < |SectionList(current).value.1|
    ensures var (k, xs) := SectionList(current).value;
      var list := Lookup(DeleteItemData(current, index).value.fields, k);
      list.Arr? && |list.elems| == |xs| - 1
      && (forall i :: 0 <= i < index ==> list.elems[i] == xs[i])
      && (forall i :: index <= i < |xs| - 1 ==> list.elems[i] == xs[i + 1])
      && (key != k ==> Lookup(DeleteItemData(current, index).value.fields, key) == Lookup(Spread(current), key))
  {
    var (k, xs) := SectionList(current).value;
    WithListEffect(current, k, RemoveAt(xs, index), key);
  }

  /** The provider: the reducer's state and the actions it hands to the admin pages. */
  class AdminStore {
    var state: State

    constructor ()
      ensures state == InitialState()
    {
      state := InitialState();
    }

    method Dispatch(a: Action)
      modifies this
      ensures state == Reduce(old(state), a)
    {
      state := Reduce(state, a);
    }

    /** `login(user)`: authenticated, with that user; nothing else changes. */
    method Login(user: Value)
      modifies this
      ensures state == old(state).(isAuthenticated := Bool(true), user := user)
    {
      Dispatch(SetAuthenticated(Bool(true)));
      Dispatch(SetUser(user));
    }

    /** `logout()`: back to the initial state. */
    method Logout()
      modifies this
      ensures state == InitialState()
    {
      Dispatch(ResetState);
    }

    /** `saveData(type, newData)`: the section is replaced. */
    method SaveData(kind: string, newData: Value)
      modifies this
      ensures state == Reduce(old(state), UpdateData(kind, newData))
    {
      Dispatch(UpdateData(kind, newData));
    }

    /** `addItem(type, newItem)`; when the section cannot be read it throws and nothing is dispatched. */
    method AddItem(kind: string, newItem: Value) returns (ok: bool)
      modifies this
      ensures var updated := AddItemData(Property(old(state).data, kind), newItem);
        ok == updated.Some?
        && state == if ok then Reduce(old(state), UpdateData(kind, updated.value)) else old(state)
    {
      var updated := AddItemData(Property(state.data, kind), newItem);
      ok := updated.Some?;
      if ok {
        Dispatch(UpdateData(kind, updated.value));
      }
    }

    /** `editItem(type, index, updatedItem)`. */
    method EditItem(kind: string, index: int, updatedItem: Value) returns (ok: bool)
      modifies this
      ensures var updated := EditItemData(Property(old(state).data, kind), index, updatedItem);
        ok == updated.Some?
        && state == if ok then Reduce(old(state), UpdateData(kind, updated.value)) else old(state)
    {
      var updated := EditItemData(Property(state.data, kind), index, updatedItem);
      ok := updated.Some?;
      if ok {
        Dispatch(UpdateData(kind, updated.value));
      }
    }

    /** `deleteItem(type, index)`. */
    method DeleteItem(kind: string, index: int) returns (ok: bool)
      modifies this
      ensures var updated := DeleteItemData(Property(old(state).data, kind), index);
        ok == updated.Some?
        && state == if ok then Reduce(old(state), UpdateData(kind, updated.value)) else old(state)
    {
      var updated := DeleteItemData(Property(state.data, kind), index);
      ok := updated.Some?;
      if ok {
        Dispatch(UpdateData(kind, updated.value));
      }
    }
  }
}
