/**
 * The admin panel's data layer: the nine content collections, an in-memory
 * cache of them that edits go through, and the per-kind validation schemas
 * a content form is checked against before it is saved.
 *
 * The collections come from static JSON files; the model takes their
 * contents as a parameter. A schema is the ordered list of its entries, in
 * the order the source writes them (none of its keys looks like an array
 * index, so that is also the order `Object.entries` visits them).
 */
module DataManager {
  import opened Common
  import opened JsValue

  // ------------------------------------------------------------ data kinds

  /** The names of the nine collections, in the order they are declared. */
  const DataTypes: seq<string> :=
    ["projects", "publications", "skills", "experience", "about", "home",
     "achievements", "certifications", "contact"]

  /** The record of all collections, given the contents of the nine JSON files in that order. */
  function AllData(files: seq<Value>): (r: Record)
    requires |files| == |DataTypes|
    ensures |r| == |DataTypes|
    ensures forall i :: 0 <= i < |r| ==> r[i] == (DataTypes[i], files[i])
  {
    seq(|DataTypes|, i requires 0 <= i < |DataTypes| => (DataTypes[i], files[i]))
  }

  lemma {:induction false} LookupEntries(r: Record, i: int)
    requires 0 <= i < |r|
    requires forall a, b :: 0 <= a < b < |r| ==> r[a].0 != r[b].0
    ensures Lookup(r, r[i].0) == r[i].1
    decreases i
  {
    if i > 0 {
      LookupEntries(r[1..], i - 1);
    }
  }

  /** Looking a collection up by its name finds that collection's file. */
  lemma AllDataLookup(files: seq<Value>, i: int)
    requires |files| == |DataTypes|
    requires 0 <= i < |DataTypes|
    ensures Lookup(AllData(files), DataTypes[i]) == files[i]
  {
    var r := AllData(files);
    assert forall a, b :: 0 <= a < b < |r| ==> r[a].0 != r[b].0 by {
      forall a, b | 0 <= a < b < |r| ensures r[a].0 != r[b].0 {
        assert r[a].0 == DataTypes[a] && r[b].0 == DataTypes[b];
      }
    }
    LookupEntries(r, i);
  }

  // ------------------------------------------------------------ the cache

  /** `dataCache[kind] || null`. */
  function CachedIn(cache: Record, kind: string): (r: Value)
    ensures Truthy(Lookup(cache, kind)) ==> r == Lookup(cache, kind)
    ensures !Truthy(Lookup(cache, kind)) ==> r == Null
    ensures !HasKey(cache, kind) ==> r == Null
  {
    Or(Lookup(cache, kind), Null)
  }

  /**
   * A successful update is what the next read returns (or null when the
   * new value is falsy), and no other collection changes.
   */
  lemma UpdateThenRead(cache: Record, kind: string, newData: Value, other: string)
    ensures CachedIn(Put(cache, kind, newData), kind) == Or(newData, Null)
    ensures other != kind ==> CachedIn(Put(cache, kind, newData), other) == CachedIn(cache, other)
  {
    LookupPut(cache, kind, newData, kind);
    LookupPut(cache, kind, newData, other);
  }

  /**
   * Storing a falsy value makes the collection look absent: every later
   * update of it is refused.
   */
  lemma FalsyUpdateLocks(cache: Record, kind: string, newData: Value)
    requires !Truthy(newData)
    ensures !Truthy(Lookup(Put(cache, kind, newData), kind))
  {
    LookupPut(cache, kind, newData, kind);
  }

  /** The module-level `dataCache`, filled from all collections when the module loads. */
  class DataCache {
    var cache: Record

    constructor(files: seq<Value>)
      requires |files| == |DataTypes|
      ensures cache == AllData(files)
    {
      cache := AllData(files);
    }

    /** `updateData`: only a collection the cache holds a truthy value for is replaced. */
    method UpdateData(kind: string, newData: Value) returns (ok: bool)
      modifies this
      ensures ok <==> Truthy(Lookup(old(cache), kind))
      ensures ok ==> cache == Put(old(cache), kind, newData)
      ensures !ok ==> cache == old(cache)
    {
      if Truthy(Lookup(cache, kind)) {
        cache := Put(cache, kind, newData);
        ok := true;
      } else {
        ok := false;
      }
    }

    /** `getCachedData`. */
    function GetCachedData(kind: string): (r: Value)
      reads this
      ensures Truthy(r) <==> Truthy(Lookup(cache, kind))
      ensures r == Null || r == Lookup(cache, kind)
    {
      CachedIn(cache, kind)
    }
  }

  // ------------------------------------------------------------ the cache as written

  /**
   * `getCachedData` as written: `dataCache[type]` also sees the members every
   * object inherits, and each of them is truthy, so it is returned instead
   * of null.
   */
  function GetCachedDataAsWritten(cache: Record, kind: string): Found<Value>
  {
    LiteralOr(cache, kind, Null)
  }

  /** As written, a read departs exactly for an inherited name the cache does not hold, and agrees otherwise. */
  lemma GetCachedDataAsWrittenDeparts(cache: Record, kind: string)
    ensures GetCachedDataAsWritten(cache, kind).InheritedMember? <==> !HasKey(cache, kind) && kind in InheritedNames
    ensures kind !in InheritedNames || HasKey(cache, kind) ==>
            GetCachedDataAsWritten(cache, kind) == Listed(CachedIn(cache, kind))
  {
  }

  /**
   * `updateData` as written, as the answer and the new own entries: the
   * guard `dataCache[type]` finds an inherited member too, so an inherited
   * name the cache does not hold is accepted and stored. Assigning to
   * "__proto__" replaces the cache's prototype rather than adding an entry,
   * so its own entries stay as they were.
   */
  function UpdateDataAsWritten(cache: Record, kind: string, newData: Value): (bool, Record)
  {
    match LiteralOr(cache, kind, Undefined)
    case Listed(v) => if Truthy(v) then (true, Put(cache, kind, newData)) else (false, cache)
    case InheritedMember(n) => if n == "__proto__" then (true, cache) else (true, Put(cache, kind, newData))
  }

  /** As written, an update agrees with `DataCache.UpdateData` except for an inherited name the cache does not hold, which it accepts. */
  lemma UpdateDataAsWrittenDeparts(cache: Record, kind: string, newData: Value)
    ensures kind !in InheritedNames || HasKey(cache, kind) ==>
            UpdateDataAsWritten(cache, kind, newData)
            == (Truthy(Lookup(cache, kind)),
                if Truthy(Lookup(cache, kind)) then Put(cache, kind, newData) else cache)
    ensures kind in InheritedNames && !HasKey(cache, kind) ==>
            UpdateDataAsWritten(cache, kind, newData).0 && !Truthy(Lookup(cache, kind))
    ensures kind == "__proto__" && !HasKey(cache, "__proto__") ==> UpdateDataAsWritten(cache, kind, newData).1 == cache
  {
  }

  /** No collection is named like an inherited member. */
  lemma AllDataNoInherited(files: seq<Value>, k: string)
    requires |files| == |DataTypes|
    requires k in InheritedNames
    ensures !HasKey(AllData(files), k)
  {
    var r := AllData(files);
    forall i | 0 <= i < |r| ensures r[i].0 != k {
      if |DataTypes[i]| == |k| {
        assert DataTypes[i][0] != k[0];
      }
    }
    NotHasKey(r, k);
  }

  /**
   * On the freshly loaded cache, an update of "constructor" is accepted and
   * then read back as written, where the method refuses it and the read
   * gives null.
   */
  lemma ConstructorUpdateAccepted(files: seq<Value>, newData: Value)
    requires |files| == |DataTypes|
    ensures var cache := AllData(files);
            UpdateDataAsWritten(cache, "constructor", newData) == (true, Put(cache, "constructor", newData))
            && !Truthy(Lookup(cache, "constructor"))
            && CachedIn(cache, "constructor") == Null
  {
    var cache := AllData(files);
    AllDataNoInherited(files, "constructor");
    UpdateDataAsWrittenDeparts(cache, "constructor", newData);
  }

  // ------------------------------------------------------------ validation schemas

  datatype FieldType = StringType | NumberType | ArrayType

  /** One field's rules: whether it is required, its type, and optional numeric bounds. */
  datatype Rule = Rule(required: bool, kind: FieldType, min: Option<int>, max: Option<int>)

  type Schema = seq<(string, Rule)>

  const RequiredString := Rule(true, StringType, None, None)
  const RequiredArray := Rule(true, ArrayType, None, None)

  /** A skill's level: a required number from 0 to 100. */
  const LevelRule := Rule(true, NumberType, Some(0), Some(100))

  const ProjectSchema: Schema :=
    [("title", RequiredString), ("description", RequiredString),
     ("technologies", RequiredArray), ("features", RequiredArray),
     ("status", RequiredString), ("year", RequiredString),
     ("category", RequiredString), ("color", RequiredString)]

  const PublicationSchema: Schema :=
    [("title", RequiredString), ("authors", RequiredString), ("venue", RequiredString),
     ("year", RequiredString), ("type", RequiredString), ("status", RequiredString)]

  const SkillSchema: Schema :=
    [("name", RequiredString), ("level", LevelRule), ("years", RequiredString)]

  const CertificationSchema: Schema :=
    [("title", RequiredString), ("issuer", RequiredString),
     ("date", RequiredString), ("status", RequiredString)]

  const ExperienceSchema: Schema :=
    [("title", RequiredString), ("company", RequiredString), ("location", RequiredString),
     ("type", RequiredString), ("duration", RequiredString), ("description", RequiredString)]

  /** `validationSchemas`, keyed by content kind. */
  const ValidationSchemas: seq<(string, Schema)> :=
    [("project", ProjectSchema), ("publication", PublicationSchema), ("skill", SkillSchema),
     ("certification", CertificationSchema), ("experience", ExperienceSchema)]

  /** What `typeof` and `Array.isArray` accept for a field type. */
  predicate HasType(v: Value, kind: FieldType)
  {
    match kind
    case StringType => v.Str?
    case NumberType => v.Num?
    case ArrayType => v.Arr?
  }

  function TypeMessage(field: string, kind: FieldType): string
  {
    match kind
    case StringType => field + " must be a string"
    case NumberType => field + " must be a number"
    case ArrayType => field + " must be an array"
  }

  function RequiredMessage(field: string): string { field + " is required" }
  function MinMessage(field: string, min: int): string { field + " must be at least " + IntToString(min) }
  function MaxMessage(field: string, max: int): string { field + " must be at most " + IntToString(max) }

  predicate BelowMin(v: Value, rule: Rule) { rule.min.Some? && LessThan(v, Num(rule.min.value)) }
  predicate AboveMax(v: Value, rule: Rule) { rule.max.Some? && LessThan(Num(rule.max.value), v) }

  /**
   * The messages one field produces: a missing required field gives only
   * "is required"; a present value is checked for its type and then, with
   * JavaScript's coercing comparison, against each bound.
   */
  function FieldErrors(field: string, rule: Rule, v: Value): seq<string>
  {
    if rule.required && !Truthy(v) then [RequiredMessage(field)]
    else
      When(Truthy(v) && !HasType(v, rule.kind), TypeMessage(field, rule.kind))
        + When(Truthy(v) && BelowMin(v, rule), MinMessage(field, if rule.min.Some? then rule.min.value else 0))
        + When(Truthy(v) && AboveMax(v, rule), MaxMessage(field, if rule.max.Some? then rule.max.value else 0))
  }

  /** An entry of the schema reports `m` for this record. */
  predicate Reports(data: Record, entry: (string, Rule), m: string)
  {
    m in FieldErrors(entry.0, entry.1, Lookup(data, entry.0))
  }

  /** The errors of a record under a schema: each field's messages, field after field. */
  function SchemaErrors(data: Record, schema: Schema): seq<string>
    decreases |schema|
  {
    if schema == [] then []
    else
      var last := schema[|schema| - 1];
      SchemaErrors(data, schema[..|schema| - 1]) + FieldErrors(last.0, last.1, Lookup(data, last.0))
  }

  lemma SchemaErrorsPrefix(data: Record, schema: Schema, i: int)
    requires 0 <= i < |schema|
    ensures SchemaErrors(data, schema[..i + 1])
            == SchemaErrors(data, schema[..i]) + FieldErrors(schema[i].0, schema[i].1, Lookup(data, schema[i].0))
  {
    assert schema[..i + 1][..i] == schema[..i];
  }

  /** A field that is present, or not required, gets its type check and then its two bound checks. */
  lemma FieldErrorsPresent(field: string, rule: Rule, v: Value)
    requires !(rule.required && !Truthy(v))
    ensures FieldErrors(field, rule, v)
            == When(Truthy(v) && !HasType(v, rule.kind), TypeMessage(field, rule.kind))
               + When(Truthy(v) && BelowMin(v, rule), MinMessage(field, if rule.min.Some? then rule.min.value else 0))
               + When(Truthy(v) && AboveMax(v, rule), MaxMessage(field, if rule.max.Some? then rule.max.value else 0))
  {
  }

  lemma ConcatAssoc3(e: seq<string>, a: seq<string>, b: seq<string>, c: seq<string>)
    ensures ((e + a) + b) + c == e + (a + b + c)
  {
  }

  /** The three type checks of `validateData`: at most one fires, and one does exactly when the type is wrong. */
  lemma TypeChecks(e: seq<string>, v: Value, kind: FieldType, m: string)
    ensures e + When(Truthy(v) && kind == StringType && !v.Str?, m)
              + When(Truthy(v) && kind == NumberType && !v.Num?, m)
              + When(Truthy(v) && kind == ArrayType && !v.Arr?, m)
            == e + When(Truthy(v) && !HasType(v, kind), m)
  {
    assert e + [] == e;
  }

  /** `validateData`, one schema entry at a time. */
  method ValidateData(data: Record, schema: Schema) returns (errors: seq<string>)
    ensures errors == SchemaErrors(data, schema)
  {
    errors := [];
    for i := 0 to |schema|
      invariant errors == SchemaErrors(data, schema[..i])
    {
      SchemaErrorsPrefix(data, schema, i);
      var (field, rules) := schema[i];
      var value := Lookup(data, field);
      if rules.required && !Truthy(value) {
        errors := errors + [RequiredMessage(field)];
        continue;
      }
      ghost var e0 := errors;
      ghost var m1 := TypeMessage(field, rules.kind);
      if Truthy(value) && rules.kind == StringType && !value.Str? {
        errors := errors + [TypeMessage(field, rules.kind)];
      }
      PushWhen(e0, Truthy(value) && rules.kind == StringType && !value.Str?, m1);
      ghost var es := errors;
      if Truthy(value) && rules.kind == NumberType && !value.Num? {
        errors := errors + [TypeMessage(field, rules.kind)];
      }
      PushWhen(es, Truthy(value) && rules.kind == NumberType && !value.Num?, m1);
      ghost var en := errors;
      if Truthy(value) && rules.kind == ArrayType && !value.Arr? {
        errors := errors + [TypeMessage(field, rules.kind)];
      }
      PushWhen(en, Truthy(value) && rules.kind == ArrayType && !value.Arr?, m1);
      TypeChecks(e0, value, rules.kind, m1);
      ghost var e1 := errors;
      if Truthy(value) && rules.min.Some? && LessThan(value, Num(rules.min.value)) {
        errors := errors + [MinMessage(field, rules.min.value)];
      }
      PushWhen(e1, Truthy(value) && BelowMin(value, rules), MinMessage(field, if rules.min.Some? then rules.min.value else 0));
      ghost var e2 := errors;
      if Truthy(value) && rules.max.Some? && LessThan(Num(rules.max.value), value) {
        errors := errors + [MaxMessage(field, rules.max.value)];
      }
      PushWhen(e2, Truthy(value) && AboveMax(value, rules), MaxMessage(field, if rules.max.Some? then rules.max.value else 0));
      FieldErrorsPresent(field, rules, value);
      ConcatAssoc3(e0, When(Truthy(value) && !HasType(value, rules.kind), m1),
                   When(Truthy(value) && BelowMin(value, rules), MinMessage(field, if rules.min.Some? then rules.min.value else 0)),
                   When(Truthy(value) && AboveMax(value, rules), MaxMessage(field, if rules.max.Some? then rules.max.value else 0)));
    }
    assert schema[..|schema|] == schema;
  }

  // ------------------------------------------------------------ validation properties

  /** The errors of two schemas laid end to end: the first schema's messages come first. */
  lemma {:induction false} SchemaErrorsAppend(data: Record, a: Schema, b: Schema)
    ensures SchemaErrors(data, a + b) == SchemaErrors(data, a) + SchemaErrors(data, b)
    decreases |b|
  {
    if b == [] {
      assert a + b == a;
    } else {
      var b' := b[..|b| - 1];
      var x := b[|b| - 1];
      AppendInit(a, b);
      SchemaErrorsAppend(data, a, b');
      ConcatAssoc(SchemaErrors(data, a), SchemaErrors(data, b'), FieldErrors(x.0, x.1, Lookup(data, x.0)));
    }
  }

  /** A message of a schema comes from the entries before the last one or from the last one. */
  lemma SchemaErrorsLastMember(data: Record, schema: Schema, m: string)
    requires schema != []
    ensures m in SchemaErrors(data, schema)
            <==> m in SchemaErrors(data, schema[..|schema| - 1]) || Reports(data, schema[|schema| - 1], m)
  {
  }

  /** A message is reported exactly when some entry of the schema produces it. */
  lemma {:induction false} SchemaErrorsMember(data: Record, schema: Schema, m: string)
    ensures m in SchemaErrors(data, schema) <==> exists j :: 0 <= j < |schema| && Reports(data, schema[j], m)
  {
    if m in SchemaErrors(data, schema) {
      ReportedBySome(data, schema, m);
    }
    if exists j :: 0 <= j < |schema| && Reports(data, schema[j], m) {
      var j :| 0 <= j < |schema| && Reports(data, schema[j], m);
      ReportedIn(data, schema, j, m);
    }
  }

  /** Every message of a schema comes from one of its entries. */
  lemma {:induction false} ReportedBySome(data: Record, schema: Schema, m: string)
    requires m in SchemaErrors(data, schema)
    ensures exists j :: 0 <= j < |schema| && Reports(data, schema[j], m)
    decreases |schema|
  {
    var n := |schema| - 1;
    SchemaErrorsLastMember(data, schema, m);
    if m in SchemaErrors(data, schema[..n]) {
      ReportedBySome(data, schema[..n], m);
      var j :| 0 <= j < n && Reports(data, schema[..n][j], m);
      assert schema[..n][j] == schema[j];
    } else {
      assert Reports(data, schema[n], m);
    }
  }

  /** Every message of an entry is among the schema's messages. */
  lemma {:induction false} ReportedIn(data: Record, schema: Schema, j: int, m: string)
    requires 0 <= j < |schema| && Reports(data, schema[j], m)
    ensures m in SchemaErrors(data, schema)
    decreases |schema|
  {
    var n := |schema| - 1;
    SchemaErrorsLastMember(data, schema, m);
    if j < n {
      assert schema[..n][j] == schema[j];
      ReportedIn(data, schema[..n], j, m);
    }
  }

  /** A field that is missing or falsy yields "is required" when required and nothing otherwise. */
  lemma FalsyField(field: string, rule: Rule, v: Value)
    requires !Truthy(v)
    ensures FieldErrors(field, rule, v) == (if rule.required then [RequiredMessage(field)] else [])
  {
  }

  /** A field's type check fires at most once, and its bounds at most once each. */
  lemma FieldErrorsBound(field: string, rule: Rule, v: Value)
    ensures |FieldErrors(field, rule, v)| <= 3
    ensures rule.required && !Truthy(v) ==> |FieldErrors(field, rule, v)| == 1
  {
  }

  /** A value of the right type inside its bounds passes; so does an absent optional field. */
  lemma FieldAccepted(field: string, rule: Rule, v: Value)
    requires Truthy(v) || !rule.required
    requires !Truthy(v) || (HasType(v, rule.kind) && !BelowMin(v, rule) && !AboveMax(v, rule))
    ensures FieldErrors(field, rule, v) == []
  {
  }

  /** An empty record under a schema of required fields gives one "is required" per field, in order. */
  lemma {:induction false} EmptyRecordAllRequired(schema: Schema)
    requires forall j :: 0 <= j < |schema| ==> schema[j].1.required
    ensures SchemaErrors([], schema) == seq(|schema|, j requires 0 <= j < |schema| => RequiredMessage(schema[j].0))
    decreases |schema|
  {
    if schema != [] {
      var n := |schema| - 1;
      EmptyRecordAllRequired(schema[..n]);
      var expected := seq(|schema|, j requires 0 <= j < |schema| => RequiredMessage(schema[j].0));
      assert expected == expected[..n] + [RequiredMessage(schema[n].0)];
    }
  }

  /** A level of 0 counts as missing: it is reported as required, not as out of range. */
  lemma SkillLevelZeroRequired()
    ensures FieldErrors("level", LevelRule, Num(0)) == [RequiredMessage("level")]
  {
  }

  /** A level above 100 is reported against the upper bound only. */
  lemma SkillLevelAboveRange()
    ensures FieldErrors("level", LevelRule, Num(150)) == [MaxMessage("level", 100)]
  {
    var v := Num(150);
    FieldErrorsPresent("level", LevelRule, v);
    assert HasType(v, NumberType) && !BelowMin(v, LevelRule) && AboveMax(v, LevelRule);
  }

  /** A negative level is reported against the lower bound only. */
  lemma SkillLevelBelowRange()
    ensures FieldErrors("level", LevelRule, Num(-5)) == [MinMessage("level", 0)]
  {
    var v := Num(-5);
    FieldErrorsPresent("level", LevelRule, v);
    assert HasType(v, NumberType) && BelowMin(v, LevelRule) && !AboveMax(v, LevelRule);
  }

  lemma NumberOf150()
    ensures ToNumber(Str("150")) == Some(150)
  {
    var t := "150";
    assert TrimStart(t) == t && TrimEnd(t) == t;
    assert t[..2] == "15" && "15"[..1] == "1" && "1"[..0] == [];
    assert ParseDigits("1") == 1;
    assert ParseDigits("15") == 15;
    assert ParseDigits(t) == 150;
  }

  lemma StringLevelBounds()
    ensures !BelowMin(Str("150"), LevelRule) && AboveMax(Str("150"), LevelRule)
  {
    NumberOf150();
    NumericStringBounds("150", 150);
  }

  /** A string that reads as the number `k` is compared with the bounds as that number. */
  lemma NumericStringBounds(text: string, k: int)
    requires ToNumber(Str(text)) == Some(k)
    ensures BelowMin(Str(text), LevelRule) <==> k < 0
    ensures AboveMax(Str(text), LevelRule) <==> 100 < k
  {
    assert ToNumber(ToPrimitive(Num(0))) == Some(0) && ToNumber(ToPrimitive(Num(100))) == Some(100);
    assert !ToPrimitive(Num(0)).Str? && !ToPrimitive(Num(100)).Str?;
  }

  /** A numeric string is a type error, and it is still compared against the bounds as a number. */
  lemma SkillLevelNumericString()
    ensures FieldErrors("level", LevelRule, Str("150")) == [TypeMessage("level", NumberType), MaxMessage("level", 100)]
  {
    var v := Str("150");
    FieldErrorsPresent("level", LevelRule, v);
    StringLevelBounds();
    assert !HasType(v, NumberType) && Truthy(v);
  }

  /** A number inside 0..100 passes. */
  lemma SkillLevelInRange(n: int)
    requires 0 < n <= 100
    ensures FieldErrors("level", LevelRule, Num(n)) == []
  {
  }
}
