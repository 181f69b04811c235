/**
 * The admin panel's content form: the blank item for each content type,
 * the handlers that edit the form a field, a nested field or an array
 * element at a time, the required-field check before saving, and the
 * option lists of its select fields.
 *
 * The current year and time, which the blank items carry, are parameters.
 * A handler that would throw in the browser (spreading or filtering a
 * value that is not an array) reports it and leaves the form as it was.
 */
module ContentForm {
  import opened Common
  import opened JsValue

  // ------------------------------------------------------------ blank items

  /** The types the form has a blank item for. */
  const ContentTypes: set<string> :=
    {"home", "projects", "publications", "skills", "experience", "achievements", "about", "contact"}

  const Blank := Str("")
  const Empty := Arr([])

  /** `getDefaultFormData`: the blank item of a content type, or `{}` for any other type. */
  function DefaultFormData(contentType: string, year: string, now: string): (r: Record)
    ensures contentType !in ContentTypes ==> r == []
    ensures contentType in ContentTypes ==> r != []
  {
    if contentType == "home" then
      [("hero", Obj([("name", Blank), ("title", Blank), ("subtitle", Blank), ("description", Blank)])),
       ("socialLinks", Empty), ("quickStats", Empty), ("coreExpertise", Empty)]
    else if contentType == "projects" then
      [("title", Blank), ("description", Blank), ("image", Blank), ("technologies", Empty),
       ("features", Empty),
       ("links", Obj([("code", Blank), ("demo", Blank), ("paper", Blank), ("app", Blank)])),
       ("status", Str("Completed")), ("year", Str(year)), ("category", Str("Web App")),
       ("icon", Str("Code")), ("color", Str("#3b82f6"))]
    else if contentType == "publications" then
      [("title", Blank), ("authors", Blank), ("venue", Blank), ("publisher", Blank),
       ("year", Str(year)), ("type", Str("Conference Paper")), ("doi", Blank), ("pages", Blank),
       ("isbn", Blank), ("abstract", Blank), ("keywords", Empty), ("status", Str("Published")),
       ("impact", Str("High")), ("citations", Num(0)), ("lastUpdated", Str(now)),
       ("icon", Str("BookOpen")), ("color", Str("#10b981")), ("googleScholarId", Blank)]
    else if contentType == "skills" then
      [("name", Blank), ("level", Str("Intermediate")), ("category", Str("Technical")),
       ("description", Blank), ("icon", Str("Code")), ("color", Str("#3b82f6"))]
    else if contentType == "experience" then
      [("company", Blank), ("position", Blank), ("duration", Blank), ("description", Blank),
       ("technologies", Empty), ("achievements", Empty), ("icon", Str("Building")),
       ("color", Str("#3b82f6"))]
    else if contentType == "achievements" then
      [("title", Blank), ("description", Blank), ("year", Str(year)), ("category", Str("Academic")),
       ("icon", Str("Award")), ("color", Str("#10b981"))]
    else if contentType == "about" then
      [("title", Blank), ("content", Blank), ("image", Blank), ("icon", Str("User")),
       ("color", Str("#3b82f6"))]
    else if contentType == "contact" then
      [("type", Str("Email")), ("value", Blank), ("icon", Str("Mail")), ("color", Str("#3b82f6"))]
    else []
  }

  // ------------------------------------------------------------ required fields

  /** The fields `validateForm` requires for a content type, with their messages, in the order it checks them. */
  function RequiredFields(contentType: string): seq<(string, string)>
  {
    if contentType == "projects" then
      [("title", "Title is required"), ("description", "Description is required")]
    else if contentType == "publications" then
      [("title", "Title is required"), ("authors", "Authors are required"), ("venue", "Venue is required")]
    else if contentType == "skills" then [("name", "Skill name is required")]
    else if contentType == "experience" then
      [("company", "Company is required"), ("position", "Position is required")]
    else if contentType == "achievements" then [("title", "Title is required")]
    else []
  }

  /** The errors of the required fields that are falsy, set one after another. */
  function MissingErrors(data: Record, fields: seq<(string, string)>): (r: Record)
    decreases |fields|
  {
    if fields == [] then []
    else
      var n := |fields| - 1;
      var prev := MissingErrors(data, fields[..n]);
      if !Truthy(Lookup(data, fields[n].0)) then Put(prev, fields[n].0, Str(fields[n].1)) else prev
  }

  /** No error is recorded exactly when every checked field is truthy; otherwise some key is. */
  lemma {:induction false} MissingErrorsEmpty(data: Record, fields: seq<(string, string)>)
    ensures MissingErrors(data, fields) == [] <==> forall i :: 0 <= i < |fields| ==> Truthy(Lookup(data, fields[i].0))
    decreases |fields|
  {
    if fields != [] {
      var n := |fields| - 1;
      MissingErrorsEmpty(data, fields[..n]);
      assert forall i :: 0 <= i < n ==> fields[..n][i] == fields[i];
    }
  }

  /** A field has an error exactly when it is checked and falsy. */
  lemma {:induction false} MissingErrorsKeys(data: Record, fields: seq<(string, string)>, k: string)
    ensures HasKey(MissingErrors(data, fields), k) <==>
            exists i :: 0 <= i < |fields| && fields[i].0 == k && !Truthy(Lookup(data, k))
    decreases |fields|
  {
    if fields != [] {
      var n := |fields| - 1;
      var init := fields[..n];
      var prev := MissingErrors(data, init);
      var f := fields[n];
      MissingErrorsKeys(data, init, k);
      assert HasKey(MissingErrors(data, fields), k) <==> HasKey(prev, k) || (f.0 == k && !Truthy(Lookup(data, k)));
      if HasKey(MissingErrors(data, fields), k) {
        if HasKey(prev, k) {
          var i :| 0 <= i < |init| && init[i].0 == k && !Truthy(Lookup(data, k));
          assert fields[i] == init[i];
        } else {
          assert fields[n].0 == k && !Truthy(Lookup(data, k));
        }
      }
      if exists i :: 0 <= i < |fields| && fields[i].0 == k && !Truthy(Lookup(data, k)) {
        var i :| 0 <= i < |fields| && fields[i].0 == k && !Truthy(Lookup(data, k));
        if i < n {
          assert init[i] == fields[i];
        }
      }
    }
  }

  /** Every required field starts out as the empty string in its type's blank item. */
  lemma RequiredFieldsStartBlank(contentType: string, year: string, now: string, i: int)
    requires 0 <= i < |RequiredFields(contentType)|
    ensures Lookup(DefaultFormData(contentType, year, now), RequiredFields(contentType)[i].0) == Str("")
  {
    var d := DefaultFormData(contentType, year, now);
    if contentType == "projects" {
      assert d[0] == ("title", Blank) && d[1] == ("description", Blank);
    } else if contentType == "publications" {
      assert d[0] == ("title", Blank) && d[1] == ("authors", Blank) && d[2] == ("venue", Blank);
      assert Lookup(d, "authors") == Lookup(d[1..], "authors") == Blank;
      assert Lookup(d, "venue") == Lookup(d[1..], "venue") == Lookup(d[2..], "venue") == Blank;
    } else if contentType == "skills" {
      assert d[0] == ("name", Blank);
    } else if contentType == "experience" {
      assert d[0] == ("company", Blank) && d[1] == ("position", Blank);
    } else if contentType == "achievements" {
      assert d[0] == ("title", Blank);
    }
  }

  /** So a blank item is never accepted, and every required field is reported on it. */
  lemma BlankFormRejected(contentType: string, year: string, now: string, k: string)
    ensures var blank := DefaultFormData(contentType, year, now);
            var errs := MissingErrors(blank, RequiredFields(contentType));
            (RequiredFields(contentType) != [] ==> errs != [])
            && (HasKey(errs, k) <==> exists i :: 0 <= i < |RequiredFields(contentType)| && RequiredFields(contentType)[i].0 == k)
  {
    var blank := DefaultFormData(contentType, year, now);
    var fields := RequiredFields(contentType);
    MissingErrorsEmpty(blank, fields);
    MissingErrorsKeys(blank, fields, k);
    if fields != [] {
      RequiredFieldsStartBlank(contentType, year, now, 0);
    }
    if exists i :: 0 <= i < |fields| && fields[i].0 == k {
      var i :| 0 <= i < |fields| && fields[i].0 == k;
      RequiredFieldsStartBlank(contentType, year, now, i);
    }
  }

  /** No inherited member is named like a content type. */
  lemma InheritedNotContentType(k: string)
    requires k in InheritedNames
    ensures k !in ContentTypes
  {
    if |k| == 8 || |k| == 7 {
      assert k[0] == 't' || k[0] == 'v';
    }
  }

  /**
   * `getDefaultFormData` as written: `defaults[contentType]` also sees the
   * members every object inherits, and such a member is truthy, so it
   * becomes the form's data instead of `{}`.
   */
  function DefaultFormDataAsWritten(contentType: string, year: string, now: string): Found<Record>
  {
    ReadLiteral(if contentType in ContentTypes then Some(DefaultFormData(contentType, year, now)) else None,
                contentType, [])
  }

  /** As written, the default form departs exactly for an inherited type and is `DefaultFormData` otherwise. */
  lemma DefaultFormDataAsWrittenDeparts(contentType: string, year: string, now: string)
    ensures DefaultFormDataAsWritten(contentType, year, now).InheritedMember? <==> contentType in InheritedNames
    ensures contentType !in InheritedNames ==>
            DefaultFormDataAsWritten(contentType, year, now) == Listed(DefaultFormData(contentType, year, now))
  {
    if contentType in InheritedNames {
      InheritedNotContentType(contentType);
    }
  }

  /** The type "hasOwnProperty" starts the form from the inherited method as written, and from `{}` by the rule. */
  lemma HasOwnPropertyDefaultForm(year: string, now: string)
    ensures DefaultFormDataAsWritten("hasOwnProperty", year, now) == InheritedMember("hasOwnProperty")
    ensures DefaultFormData("hasOwnProperty", year, now) == []
  {
    DefaultFormDataAsWrittenDeparts("hasOwnProperty", year, now);
    InheritedNotContentType("hasOwnProperty");
  }

  // ------------------------------------------------------------ array edits

  /** `xs.filter((_, i) => i !== index)`. */
  function WithoutIndex(xs: seq<Value>, index: int): (r: seq<Value>)
  {
    if 0 <= index < |xs| then xs[..index] + xs[index + 1..] else xs
  }

  /** Removing one index keeps every other element, in order; an index outside the list removes nothing. */
  lemma WithoutIndexKeepsOthers(xs: seq<Value>, index: int)
    ensures 0 <= index < |xs| ==> |WithoutIndex(xs, index)| == |xs| - 1
    ensures !(0 <= index < |xs|) ==> WithoutIndex(xs, index) == xs
    ensures forall j :: 0 <= j < |WithoutIndex(xs, index)| ==>
              WithoutIndex(xs, index)[j] == (if 0 <= index <= j then xs[j + 1] else xs[j])
  {
  }

  /** `xs.map((item, i) => i === index ? { ...item, [itemField]: value } : item)`. */
  function WithItemField(xs: seq<Value>, index: int, itemField: string, value: Value): (r: seq<Value>)
    ensures |r| == |xs|
  {
    seq(|xs|, i requires 0 <= i < |xs| => if i == index then Obj(Put(Spread(xs[i]), itemField, value)) else xs[i])
  }

  /** Only `itemField` of the item at `index` changes. */
  lemma WithItemFieldEffect(xs: seq<Value>, index: int, itemField: string, value: Value, j: int, f: string)
    requires 0 <= j < |xs|
    ensures j != index ==> WithItemField(xs, index, itemField, value)[j] == xs[j]
    ensures j == index ==> Lookup(WithItemField(xs, index, itemField, value)[j].fields, f)
                           == if f == itemField then value else Lookup(Spread(xs[j]), f)
  {
    if j == index {
      LookupPut(Spread(xs[j]), itemField, value, f);
    }
  }

  /** The list `handleArrayAdd` appends to: a missing (or any falsy) field counts as `[]`. */
  lemma ArrayAddCreatesMissing(data: Record, field: string)
    ensures !Truthy(Lookup(data, field)) ==> ArraySpread(Or(Lookup(data, field), Arr([]))) == Some([])
    ensures Lookup(data, field).Arr? ==>
              ArraySpread(Or(Lookup(data, field), Arr([]))) == Some(Lookup(data, field).elems)
  {
  }

  /** `{ ...parent, [childField]: value }`. */
  function WithChild(parent: Value, childField: string, value: Value): (r: Value)
    ensures r.Obj?
  {
    Obj(Put(Spread(parent), childField, value))
  }

  /** Only the child changes; the parent's other keys keep their values. */
  lemma WithChildEffect(parent: Value, childField: string, value: Value, f: string)
    ensures Lookup(WithChild(parent, childField, value).fields, f)
            == if f == childField then value else Lookup(Spread(parent), f)
  {
    LookupPut(Spread(parent), childField, value, f);
  }

  // ------------------------------------------------------------ select options

  /** `getSelectOptions`: the choices of a select field (value and label), `[]` for any other field. */
  function SelectOptions(field: string): (r: seq<(string, string)>)
    ensures forall i :: 0 <= i < |r| ==> r[i].0 == r[i].1
    ensures field !in {"status", "category", "type", "impact", "level"} ==> r == []
  {
    var values :=
      if field == "status" then ["Completed", "In Development", "Planned"]
      else if field == "category" then ["Web App", "Mobile App", "IoT", "AI/ML", "CRM"]
      else if field == "type" then ["Conference Paper", "Journal Article", "Abstract", "Research Paper"]
      else if field == "impact" then ["High", "Medium", "Low"]
      else if field == "level" then ["Beginner", "Intermediate", "Advanced", "Expert"]
      else [];
    seq(|values|, i requires 0 <= i < |values| => (values[i], values[i]))
  }

  /** Each blank item's select values are among that field's choices. */
  lemma BlankSelectsAreOptions()
    ensures ("Completed", "Completed") in SelectOptions("status")
    ensures ("Web App", "Web App") in SelectOptions("category")
    ensures ("Conference Paper", "Conference Paper") in SelectOptions("type")
    ensures ("High", "High") in SelectOptions("impact")
    ensures ("Intermediate", "Intermediate") in SelectOptions("level")
  {
    assert SelectOptions("status")[0] == ("Completed", "Completed");
    assert SelectOptions("category")[0] == ("Web App", "Web App");
    assert SelectOptions("type")[0] == ("Conference Paper", "Conference Paper");
    assert SelectOptions("impact")[0] == ("High", "High");
    assert SelectOptions("level")[1] == ("Intermediate", "Intermediate");
  }

  // ------------------------------------------------------------ the form

  class Form {
    const contentType: string
    var formData: Record
    var errors: Record

    /** The form as it opens: the item being edited, or the blank item; no errors. */
    constructor(contentType: string, editingItem: Option<Record>, year: string, now: string)
      ensures this.contentType == contentType && errors == []
      ensures formData == if editingItem.Some? then editingItem.value else DefaultFormData(contentType, year, now)
    {
      this.contentType := contentType;
      formData := if editingItem.Some? then editingItem.value else DefaultFormData(contentType, year, now);
      errors := [];
    }

    /** `handleInputChange`: the field takes the value; its error, if it had one, is cleared. */
    method HandleInputChange(field: string, value: Value)
      modifies this
      ensures formData == Put(old(formData), field, value)
      ensures errors == if Truthy(Lookup(old(errors), field)) then Put(old(errors), field, Str("")) else old(errors)
    {
      formData := Put(formData, field, value);
      if Truthy(Lookup(errors, field)) {
        errors := Put(errors, field, Str(""));
      }
    }

    /** `handleNestedInputChange`: the parent field becomes a copy of itself with the child set. */
    method HandleNestedInputChange(parentField: string, childField: string, value: Value)
      modifies this
      ensures formData == Put(old(formData), parentField, WithChild(Lookup(old(formData), parentField), childField, value))
      ensures errors == old(errors)
    {
      formData := Put(formData, parentField, WithChild(Lookup(formData, parentField), childField, value));
    }

    /** `handleArrayAdd`: the item goes at the end of the array, which is created when missing. */
    method HandleArrayAdd(field: string, defaultItem: Value) returns (ok: bool)
      modifies this
      ensures var current := ArraySpread(Or(Lookup(old(formData), field), Arr([])));
              ok == current.Some?
              && (ok ==> formData == Put(old(formData), field, Arr(current.value + [defaultItem])))
      ensures !ok ==> formData == old(formData)
      ensures errors == old(errors)
    {
      var current := ArraySpread(Or(Lookup(formData, field), Arr([])));
      if current.None? {
        return false;
      }
      formData := Put(formData, field, Arr(current.value + [defaultItem]));
      ok := true;
    }

    /** `handleArrayRemove`: the element at `index` goes; anything but an array throws. */
    method HandleArrayRemove(field: string, index: int) returns (ok: bool)
      modifies this
      ensures ok <==> Lookup(old(formData), field).Arr?
      ensures ok ==> formData == Put(old(formData), field, Arr(WithoutIndex(Lookup(old(formData), field).elems, index)))
      ensures !ok ==> formData == old(formData)
      ensures errors == old(errors)
    {
      var current := Lookup(formData, field);
      if !current.Arr? {
        return false;
      }
      formData := Put(formData, field, Arr(WithoutIndex(current.elems, index)));
      ok := true;
    }

    /** `handleArrayItemChange`: one field of one element changes; anything but an array throws. */
    method HandleArrayItemChange(field: string, index: int, itemField: string, value: Value) returns (ok: bool)
      modifies this
      ensures ok <==> Lookup(old(formData), field).Arr?
      ensures ok ==> formData == Put(old(formData), field,
                                     Arr(WithItemField(Lookup(old(formData), field).elems, index, itemField, value)))
      ensures !ok ==> formData == old(formData)
      ensures errors == old(errors)
    {
      var current := Lookup(formData, field);
      if !current.Arr? {
        return false;
      }
      formData := Put(formData, field, Arr(WithItemField(current.elems, index, itemField, value)));
      ok := true;
    }

    /** `validateForm`: records the missing required fields and reports whether there were none. */
    method ValidateForm() returns (valid: bool)
      modifies this
      ensures errors == MissingErrors(formData, RequiredFields(contentType))
      ensures valid <==> forall i :: 0 <= i < |RequiredFields(contentType)| ==>
                           Truthy(Lookup(formData, RequiredFields(contentType)[i].0))
      ensures formData == old(formData)
    {
      var newErrors := MissingErrors(formData, RequiredFields(contentType));
      errors := newErrors;
      KeysPermutation(newErrors);
      MissingErrorsEmpty(formData, RequiredFields(contentType));
      valid := |Keys(newErrors)| == 0;
    }
  }
}
