/**
 * Helpers of the admin panel: required-field validation of a content form
 * against its table configuration, the default form, the item list of a
 * content section, how a table cell shows a value, and the health badge.
 *
 * A table configuration is typed: its columns carry a key, a title, a cell
 * type and a required flag, and its default item is a plain object.
 */
module AdminUtils {
  import opened Common
  import opened JsValue
  import AdminContext

  datatype Column = Column(key: string, title: string, kind: string, required: bool)

  datatype TableConfig = TableConfig(columns: seq<Column>, defaultItem: Record)

  /** `config.tableConfigs`: a configuration per content type. */
  type TableConfigs = seq<(string, TableConfig)>

  /** `config.tableConfigs[type]`; a configuration is never falsy, so `None` is the only miss. */
  function ConfigFor(configs: TableConfigs, contentType: string): (r: Option<TableConfig>)
    ensures r.Some? <==> exists i :: 0 <= i < |configs| && configs[i].0 == contentType
    ensures r.Some? ==> exists i :: 0 <= i < |configs| && configs[i] == (contentType, r.value)
    decreases |configs|
  {
    if configs == [] then None
    else if configs[0].0 == contentType then Some(configs[0].1)
    else
      var r := ConfigFor(configs[1..], contentType);
      assert forall i :: 0 <= i < |configs[1..]| ==> configs[1..][i] == configs[i + 1];
      r
  }

  // ------------------------------------------------------------ validateFormData

  function RequiredMessage(title: string): string { title + " is required" }

  /** A required column whose value in the form is falsy. */
  predicate Missing(data: Record, c: Column)
  {
    c.required && !Truthy(Lookup(data, c.key))
  }

  /** The errors object the columns fill in, one after the other; a later column with the same key overwrites. */
  function FormErrors(data: Record, columns: seq<Column>): (r: Record)
    ensures KeysDistinct(r)
    decreases |columns|
  {
    if columns == [] then []
    else
      var n := |columns| - 1;
      var prev := FormErrors(data, columns[..n]);
      if Missing(data, columns[n]) then
        PutKeysDistinct(prev, columns[n].key, Str(RequiredMessage(columns[n].title)));
        Put(prev, columns[n].key, Str(RequiredMessage(columns[n].title)))
      else prev
  }

  /** A key carries an error exactly when some column with that key is required and missing. */
  lemma {:induction false} FormErrorsKeys(data: Record, columns: seq<Column>, k: string)
    ensures HasKey(FormErrors(data, columns), k) <==>
            exists i :: 0 <= i < |columns| && columns[i].key == k && Missing(data, columns[i])
    decreases |columns|
  {
    if columns != [] {
      var n := |columns| - 1;
      var init := columns[..n];
      FormErrorsKeys(data, init, k);
      if exists i :: 0 <= i < |init| && init[i].key == k && Missing(data, init[i]) {
        var i :| 0 <= i < |init| && init[i].key == k && Missing(data, init[i]);
        assert columns[i] == init[i];
      }
      if exists i :: 0 <= i < n && columns[i].key == k && Missing(data, columns[i]) {
        var i :| 0 <= i < n && columns[i].key == k && Missing(data, columns[i]);
        assert init[i] == columns[i];
      }
    }
  }

  predicate ColumnKeysDistinct(columns: seq<Column>)
  {
    forall i, j :: 0 <= i < j < |columns| ==> columns[i].key != columns[j].key
  }

  /** With distinct column keys, a missing column's error is its title followed by " is required". */
  lemma {:induction false} FormErrorsMessage(data: Record, columns: seq<Column>, i: int)
    requires ColumnKeysDistinct(columns)
    requires 0 <= i < |columns| && Missing(data, columns[i])
    ensures Lookup(FormErrors(data, columns), columns[i].key) == Str(RequiredMessage(columns[i].title))
    decreases |columns|
  {
    var n := |columns| - 1;
    var init := columns[..n];
    var prev := FormErrors(data, init);
    if i == n {
      LookupPut(prev, columns[n].key, Str(RequiredMessage(columns[n].title)), columns[n].key);
    } else {
      assert init[i] == columns[i];
      FormErrorsMessage(data, init, i);
      if Missing(data, columns[n]) {
        LookupPut(prev, columns[n].key, Str(RequiredMessage(columns[n].title)), columns[i].key);
      }
    }
  }

  /** `validateFormData`: no errors for an unknown type, else the required columns' errors. */
  method ValidateFormData(data: Record, contentType: string, configs: TableConfigs) returns (errors: Record)
    ensures ConfigFor(configs, contentType).None? ==> errors == []
    ensures ConfigFor(configs, contentType).Some? ==>
            errors == FormErrors(data, ConfigFor(configs, contentType).value.columns)
  {
    errors := [];
    var tableConfig := ConfigFor(configs, contentType);
    if tableConfig.None? {
      return;
    }
    var columns := tableConfig.value.columns;
    for i := 0 to |columns|
      invariant errors == FormErrors(data, columns[..i])
    {
      assert columns[..i + 1][..i] == columns[..i];
      var column := columns[i];
      if column.required && !Truthy(Lookup(data, column.key)) {
        errors := Put(errors, column.key, Str(RequiredMessage(column.title)));
      }
    }
    assert columns[..|columns|] == columns;
  }

  /** What `validateFormData` gives as written: its errors object, or the TypeError `forEach` throws. */
  datatype Validation = Checked(errors: Record) | ColumnsThrow

  /**
   * `validateFormData` as written: `config.tableConfigs[type]` also sees the
   * members every object inherits; such a member is truthy and has no
   * `columns`, so `tableConfig.columns.forEach` throws.
   */
  function ValidateFormDataAsWritten(data: Record, contentType: string, configs: TableConfigs): Validation
  {
    match ReadLiteral(ConfigFor(configs, contentType), contentType, TableConfig([], []))
    case Listed(tc) => Checked(FormErrors(data, tc.columns))
    case InheritedMember(_) => ColumnsThrow
  }

  /** As written, validation throws exactly for an inherited type without its own configuration, and agrees otherwise. */
  lemma ValidateFormDataAsWrittenDeparts(data: Record, contentType: string, configs: TableConfigs)
    ensures ValidateFormDataAsWritten(data, contentType, configs) == ColumnsThrow <==>
            ConfigFor(configs, contentType).None? && contentType in InheritedNames
    ensures ConfigFor(configs, contentType).Some? ==>
            ValidateFormDataAsWritten(data, contentType, configs) ==
            Checked(FormErrors(data, ConfigFor(configs, contentType).value.columns))
    ensures ConfigFor(configs, contentType).None? && contentType !in InheritedNames ==>
            ValidateFormDataAsWritten(data, contentType, configs) == Checked([])
  {
  }

  /** The type "constructor" with no configuration of its own throws as written, where the method reports no errors. */
  lemma ConstructorTypeValidation(data: Record, configs: TableConfigs)
    requires forall i :: 0 <= i < |configs| ==> configs[i].0 != "constructor"
    ensures ConfigFor(configs, "constructor").None?
    ensures ValidateFormDataAsWritten(data, "constructor", configs) == ColumnsThrow
  {
    ValidateFormDataAsWrittenDeparts(data, "constructor", configs);
  }

  // ------------------------------------------------------------ getDefaultFormData

  /** `{ ...tableConfig.defaultItem }`, or `{}` for an unknown type. */
  function DefaultFormData(contentType: string, configs: TableConfigs): (r: Record)
    ensures ConfigFor(configs, contentType).None? ==> r == []
    ensures ConfigFor(configs, contentType).Some? ==> r == ConfigFor(configs, contentType).value.defaultItem
  {
    match ConfigFor(configs, contentType)
    case None => []
    case Some(tc) => Spread(Obj(tc.defaultItem))
  }

  /** A fresh default form fails validation on exactly the required columns its defaults leave falsy. */
  lemma DefaultFormErrors(contentType: string, configs: TableConfigs, k: string)
    requires ConfigFor(configs, contentType).Some?
    ensures var tc := ConfigFor(configs, contentType).value;
            HasKey(FormErrors(DefaultFormData(contentType, configs), tc.columns), k) <==>
            exists i :: 0 <= i < |tc.columns| && tc.columns[i].key == k && tc.columns[i].required
                        && !Truthy(Lookup(tc.defaultItem, k))
  {
    var tc := ConfigFor(configs, contentType).value;
    FormErrorsKeys(tc.defaultItem, tc.columns, k);
  }

  // ------------------------------------------------------------ getTableData

  /** `getTableData`: the array under the section's first key, or `[]`. */
  function TableData(data: Record, contentType: string): (r: seq<Value>)
    ensures !Truthy(Lookup(data, contentType)) ==> r == []
  {
    var tabData := Lookup(data, contentType);
    if !Truthy(tabData) then []
    else
      match OwnKeys(tabData)
      case None => []
      case Some(keys) =>
        var v := Property(tabData, AdminContext.FirstKey(keys));
        if v.Arr? then v.elems else []
  }

  /** A section object whose first key holds an array yields that array; anything else yields `[]`. */
  lemma TableDataOfSection(data: Record, contentType: string, section: Record)
    requires Lookup(data, contentType) == Obj(section)
    ensures Keys(section) != [] && Lookup(section, Keys(section)[0]).Arr? ==>
            TableData(data, contentType) == Lookup(section, Keys(section)[0]).elems
    ensures Keys(section) != [] && !Lookup(section, Keys(section)[0]).Arr? ==> TableData(data, contentType) == []
    ensures Keys(section) == [] ==> TableData(data, contentType) == []
  {
    assert OwnKeys(Obj(section)) == Some(Keys(section));
    if Keys(section) == [] {
      KeysPermutation(section);
    }
  }

  // ------------------------------------------------------------ formatCellContent

  /** What a table cell shows: a value, a status badge, or a value formatted for the locale. */
  datatype Cell =
    | Rendered(v: Value)
    | Status(value: Value, className: string)
    | LocaleDate(date: Value)
    | LocaleNumber(number: Value)

  const GrayBadge := "bg-gray-100 text-gray-800"

  /** The status colours of the table; `None` for any other status. */
  function StatusColor(status: string): (r: Option<string>)
    ensures r.Some? <==> status in {"Completed", "Published", "In Development", "Submitted", "Planned", "Presented"}
  {
    if status == "Completed" || status == "Published" then Some("bg-green-100 text-green-800")
    else if status == "In Development" || status == "Submitted" then Some("bg-yellow-100 text-yellow-800")
    else if status == "Planned" then Some(GrayBadge)
    else if status == "Presented" then Some("bg-blue-100 text-blue-800")
    else None
  }

  /** `statusColors[value] || 'bg-gray-100 text-gray-800'` of the status cell, the class the cell then gets. */
  function StatusClass(status: string): (r: string)
    ensures StatusColor(status).Some? ==> r == StatusColor(status).value
    ensures StatusColor(status).None? ==> r == GrayBadge
  {
    if StatusColor(status).Some? then StatusColor(status).value else GrayBadge
  }

  /**
   * The status class as written: `statusColors[value]` also sees the members
   * every object inherits, and such a member is truthy, so it becomes the
   * class instead of the gray badge.
   */
  function StatusClassAsWritten(status: string): Found<string>
  {
    ReadLiteral(StatusColor(status), status, GrayBadge)
  }

  /** No inherited member is a status name: all status names begin with a capital letter. */
  lemma InheritedNotStatus(status: string)
    requires status in InheritedNames
    ensures StatusColor(status).None?
  {
    assert status[0] == '_' || 'a' <= status[0] <= 'z';
  }

  /** As written, the status class departs exactly for an inherited status and is `StatusClass` otherwise. */
  lemma StatusClassAsWrittenDeparts(status: string)
    ensures StatusClassAsWritten(status).InheritedMember? <==> status in InheritedNames
    ensures status !in InheritedNames ==> StatusClassAsWritten(status) == Listed(StatusClass(status))
  {
    if status in InheritedNames {
      InheritedNotStatus(status);
    }
  }

  /** The status "valueOf" gets the inherited method as its class as written, and the gray badge by the rule. */
  lemma ValueOfStatusClass()
    ensures StatusClassAsWritten("valueOf") == InheritedMember("valueOf")
    ensures StatusClass("valueOf") == GrayBadge
  {
    StatusClassAsWrittenDeparts("valueOf");
    InheritedNotStatus("valueOf");
  }

  /** An array element's label: an object's `name`, else its `description`; other values as they are. */
  function ItemLabel(item: Value): Value
  {
    match item
    case Obj(r) => Or(Lookup(r, "name"), Lookup(r, "description"))
    case Arr(_) => Or(Property(item, "name"), Property(item, "description"))
    case _ => item
  }

  /** `.map(item => ...)` over the shown elements. */
  function ItemLabels(items: seq<Value>): (r: seq<Value>)
    ensures |r| == |items|
    ensures forall i :: 0 <= i < |items| ==> r[i] == ItemLabel(items[i])
  {
    seq(|items|, i requires 0 <= i < |items| => ItemLabel(items[i]))
  }

  /** The trailing " +k more" when an array has more than three elements. */
  function MoreSuffix(n: nat): (r: string)
    ensures r != "" <==> n > 3
  {
    if n > 3 then " +" + NatToString(n - 3) + " more" else ""
  }

  /**
   * `formatCellContent`; `None` where it throws: a `null` among the first
   * three array elements (`typeof null` is "object"), or a long "text" value
   * that is not a string.
   */
  function FormatCell(value: Value, column: Column): Option<Cell>
  {
    if column.kind == "array" && value.Arr? then
      var shown := value.elems[..Min(3, |value.elems|)];
      if Null in shown then None
      else
        Some(Rendered(Str(ArrayJoin(ItemLabels(shown), ", ") + MoreSuffix(|value.elems|))))
    else if column.kind == "status" then
      Some(Status(value, StatusClass(ToJsString(value))))
    else if column.kind == "date" then Some(LocaleDate(value))
    else if column.kind == "number" then
      if IsNullish(value) then Some(Rendered(Undefined)) else Some(LocaleNumber(value))
    else if column.kind == "text" && Truthy(value) && LessThan(Num(50), LengthProp(value)) then
      if value.Str? then Some(Rendered(Str(value.s[..50] + "..."))) else None
    else Some(Rendered(Or(value, Str("-"))))
  }

  function Min(a: int, b: int): int { if a < b then a else b }

  lemma ArrayTexts(xs: seq<Value>, parts: seq<string>)
    requires |xs| == |parts|
    requires forall i :: 0 <= i < |xs| ==> xs[i] == Str(parts[i])
    ensures seq(|xs|, i requires 0 <= i < |xs| => if IsNullish(xs[i]) then "" else ToJsString(xs[i])) == parts
  {
    var texts := seq(|xs|, i requires 0 <= i < |xs| => if IsNullish(xs[i]) then "" else ToJsString(xs[i]));
    forall i | 0 <= i < |xs| ensures texts[i] == parts[i] {
      assert xs[i] == Str(parts[i]);
    }
  }

  /** Joining string values is joining their texts. */
  lemma ArrayJoinStrings(xs: seq<Value>, parts: seq<string>)
    requires |xs| == |parts|
    requires forall i :: 0 <= i < |xs| ==> xs[i] == Str(parts[i])
    ensures ArrayJoin(xs, ", ") == Join(parts, ", ")
  {
    ArrayTexts(xs, parts);
  }

  /** An array holding the strings `parts`. */
  function StrValues(parts: seq<string>): (r: seq<Value>)
    ensures |r| == |parts|
    ensures forall i :: 0 <= i < |parts| ==> r[i] == Str(parts[i])
  {
    seq(|parts|, i requires 0 <= i < |parts| => Str(parts[i]))
  }

  lemma ShownLabels(parts: seq<string>)
    ensures var xs := StrValues(parts);
            var shown := xs[..Min(3, |xs|)];
            Null !in shown
            && forall i :: 0 <= i < |shown| ==> ItemLabel(shown[i]) == Str(parts[..Min(3, |parts|)][i])
  {
    var xs := StrValues(parts);
    var shown := xs[..Min(3, |xs|)];
    forall i | 0 <= i < |shown| ensures shown[i] != Null && ItemLabel(shown[i]) == Str(parts[..Min(3, |parts|)][i]) {
      assert shown[i] == Str(parts[i]);
    }
  }

  /**
   * An array of strings shows its first three elements joined by ", ", and
   * " +k more" exactly when k > 0 elements are left out.
   */
  lemma ArrayCellOfStrings(parts: seq<string>, column: Column)
    requires column.kind == "array"
    ensures var shown := Min(3, |parts|);
            FormatCell(Arr(StrValues(parts)), column)
            == Some(Rendered(Str(Join(parts[..shown], ", ") + MoreSuffix(|parts|))))
  {
    var xs := StrValues(parts);
    var shown := xs[..Min(3, |xs|)];
    ShownLabels(parts);
    ArrayJoinStrings(ItemLabels(shown), parts[..Min(3, |parts|)]);
    ArrayCellShape(xs, column);
  }

  lemma ArrayCellShape(elems: seq<Value>, column: Column)
    requires column.kind == "array"
    requires Null !in elems[..Min(3, |elems|)]
    ensures FormatCell(Arr(elems), column)
            == Some(Rendered(Str(ArrayJoin(ItemLabels(elems[..Min(3, |elems|)]), ", ") + MoreSuffix(|elems|))))
  {
  }

  /**
   * A text cell: a string longer than 50 characters is cut to its first 50
   * and "..." (53 in all); a shorter non-empty one is shown as it is; an
   * empty one shows "-".
   */
  lemma TextCell(s: string, column: Column)
    requires column.kind == "text"
    ensures |s| > 50 ==> FormatCell(Str(s), column) == Some(Rendered(Str(s[..50] + "..."))) && |s[..50] + "..."| == 53
    ensures 0 < |s| <= 50 ==> FormatCell(Str(s), column) == Some(Rendered(Str(s)))
    ensures s == "" ==> FormatCell(Str(s), column) == Some(Rendered(Str("-")))
  {
  }

  /** Outside status, date and number cells, a falsy value shows "-". */
  lemma FalsyCell(value: Value, column: Column)
    requires column.kind !in {"status", "date", "number"}
    requires !Truthy(value)
    ensures FormatCell(value, column) == Some(Rendered(Str("-")))
  {
  }

  /** A status cell keeps its value; an unknown status gets the gray badge. */
  lemma StatusCell(value: Value, column: Column)
    requires column.kind == "status"
    ensures FormatCell(value, column).Some? && FormatCell(value, column).value.Status?
    ensures FormatCell(value, column).value.value == value
    ensures StatusColor(ToJsString(value)).None? ==> FormatCell(value, column).value.className == GrayBadge
    ensures StatusColor(ToJsString(value)).Some? ==>
            FormatCell(value, column).value.className == StatusColor(ToJsString(value)).value
  {
  }

  // ------------------------------------------------------------ health badge

  /** `getHealthStatusStyle`: the three known states have their colours, anything else is gray. */
  function HealthStatusStyle(status: string): (r: string)
    ensures status !in {"good", "warning", "error"} ==> r == "text-gray-600 bg-gray-100"
    ensures status == "good" ==> r == "text-green-600 bg-green-100"
    ensures status == "warning" ==> r == "text-yellow-600 bg-yellow-100"
    ensures status == "error" ==> r == "text-red-600 bg-red-100"
  {
    if status == "good" then "text-green-600 bg-green-100"
    else if status == "warning" then "text-yellow-600 bg-yellow-100"
    else if status == "error" then "text-red-600 bg-red-100"
    else "text-gray-600 bg-gray-100"
  }

  /** `getHealthStatusIcon`: a check for good, an alert for warning and error, else 'Activity'. */
  function HealthStatusIcon(status: string): (r: string)
    ensures r == "CheckCircle" <==> status == "good"
    ensures r == "AlertCircle" <==> status == "warning" || status == "error"
    ensures r == "Activity" <==> status !in {"good", "warning", "error"}
  {
    if status == "good" then "CheckCircle"
    else if status == "warning" || status == "error" then "AlertCircle"
    else "Activity"
  }

  /** Every state that is not good and has a colour has an alert icon, and the unknown ones have neither. */
  lemma HealthBadgeAgrees(status: string)
    ensures HealthStatusIcon(status) == "Activity" <==> HealthStatusStyle(status) == "text-gray-600 bg-gray-100"
  {
  }

  /** No inherited member is a health state. */
  lemma InheritedNotHealthState(status: string)
    requires status in InheritedNames
    ensures status !in {"good", "warning", "error"}
  {
    if |status| == 7 {
      assert status[0] == 'v';
    }
  }

  /**
   * `getHealthStatusStyle` as written: `styles[status]` also sees the members
   * every object inherits, and such a member is truthy, so it is returned
   * instead of the gray style.
   */
  function HealthStatusStyleAsWritten(status: string): Found<string>
  {
    ReadLiteral(if status in {"good", "warning", "error"} then Some(HealthStatusStyle(status)) else None,
                status, "text-gray-600 bg-gray-100")
  }

  /** As written, the style departs exactly for an inherited status and is `HealthStatusStyle` otherwise. */
  lemma HealthStatusStyleAsWrittenDeparts(status: string)
    ensures HealthStatusStyleAsWritten(status).InheritedMember? <==> status in InheritedNames
    ensures status !in InheritedNames ==> HealthStatusStyleAsWritten(status) == Listed(HealthStatusStyle(status))
  {
    if status in InheritedNames {
      InheritedNotHealthState(status);
    }
  }

  /** `getHealthStatusIcon` as written: an inherited member is truthy and is returned instead of 'Activity'. */
  function HealthStatusIconAsWritten(status: string): Found<string>
  {
    ReadLiteral(if status in {"good", "warning", "error"} then Some(HealthStatusIcon(status)) else None,
                status, "Activity")
  }

  /** As written, the icon departs exactly for an inherited status and is `HealthStatusIcon` otherwise. */
  lemma HealthStatusIconAsWrittenDeparts(status: string)
    ensures HealthStatusIconAsWritten(status).InheritedMember? <==> status in InheritedNames
    ensures status !in InheritedNames ==> HealthStatusIconAsWritten(status) == Listed(HealthStatusIcon(status))
  {
    if status in InheritedNames {
      InheritedNotHealthState(status);
    }
  }

  /** The status "toString" gets the inherited method as style and icon as written, and gray and 'Activity' by the rule. */
  lemma ToStringHealthBadge()
    ensures HealthStatusStyleAsWritten("toString") == InheritedMember("toString")
    ensures HealthStatusIconAsWritten("toString") == InheritedMember("toString")
    ensures HealthStatusStyle("toString") == "text-gray-600 bg-gray-100"
    ensures HealthStatusIcon("toString") == "Activity"
  {
    HealthStatusStyleAsWrittenDeparts("toString");
    HealthStatusIconAsWrittenDeparts("toString");
    InheritedNotHealthState("toString");
  }
}
