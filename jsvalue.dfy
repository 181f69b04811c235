/**
 * The dynamic JavaScript values the admin, table and search code works on:
 * truthiness, property access, plain objects as ordered key/value records,
 * object and array spread, `String(v)` and the `<` comparison.
 *
 * Numbers are integers here; objects keep their insertion order and are
 * enumerated the way JavaScript enumerates own keys: integer-like keys
 * first in ascending order, then the other keys in insertion order.
 */
module JsValue {
  import opened Common
  import Sorting

  datatype Value =
    | Undefined
    | Null
    | Bool(b: bool)
    | Num(n: int)
    | Str(s: string)
    | Arr(elems: seq<Value>)
    | Obj(fields: Record)

  type Record = seq<(string, Value)>

  /** JavaScript truthiness (NaN is not a value of this model). */
  predicate Truthy(v: Value)
  {
    match v
    case Undefined => false
    case Null => false
    case Bool(b) => b
    case Num(n) => n != 0
    case Str(s) => s != ""
    case Arr(_) => true
    case Obj(_) => true
  }

  predicate IsNullish(v: Value) { v == Undefined || v == Null }

  /** `v || fallback`. */
  function Or(v: Value, fallback: Value): (r: Value)
    ensures Truthy(v) ==> r == v
    ensures !Truthy(v) ==> r == fallback
  {
    if Truthy(v) then v else fallback
  }

  // ------------------------------------------------------------- records

  predicate HasKey(r: Record, k: string)
    decreases |r|
  {
    r != [] && (r[0].0 == k || HasKey(r[1..], k))
  }

  /** No key is stored twice, as in every JavaScript object. */
  predicate KeysDistinct(r: Record)
    decreases |r|
  {
    r == [] || (!HasKey(r[1..], r[0].0) && KeysDistinct(r[1..]))
  }

  /** `obj[k]` on a plain object: the value stored under `k`, or undefined. */
  function Lookup(r: Record, k: string): (v: Value)
    ensures !HasKey(r, k) ==> v == Undefined
    decreases |r|
  {
    if r == [] then Undefined
    else if r[0].0 == k then r[0].1
    else Lookup(r[1..], k)
  }

  /**
   * `obj[k] || fallback` on an object literal, which also sees the members
   * every object inherits when it has no key `k` of its own.
   */
  function LiteralOr(r: Record, k: string, fallback: Value): (f: Found<Value>)
    ensures k !in InheritedNames || HasKey(r, k) ==> f == Listed(Or(Lookup(r, k), fallback))
    ensures f.InheritedMember? <==> !HasKey(r, k) && k in InheritedNames
  {
    if HasKey(r, k) then Listed(Or(Lookup(r, k), fallback))
    else if k in InheritedNames then InheritedMember(k)
    else Listed(fallback)
  }

  /** `obj[k] = v`: an existing key keeps its place, a new key goes last. */
  function Put(r: Record, k: string, v: Value): (r': Record)
    ensures HasKey(r', k)
    ensures forall j :: HasKey(r', j) <==> HasKey(r, j) || j == k
    ensures HasKey(r, k) ==> |r'| == |r|
    ensures !HasKey(r, k) ==> r' == r + [(k, v)]
    decreases |r|
  {
    if r == [] then [(k, v)]
    else if r[0].0 == k then
      assert ([(k, v)] + r[1..])[1..] == r[1..];
      [(k, v)] + r[1..]
    else
      var rest := Put(r[1..], k, v);
      assert ([r[0]] + rest)[1..] == rest;
      [r[0]] + rest
  }

  lemma {:induction false} NotHasKey(r: Record, k: string)
    requires forall i :: 0 <= i < |r| ==> r[i].0 != k
    ensures !HasKey(r, k)
    decreases |r|
  {
    if r != [] {
      NotHasKey(r[1..], k);
    }
  }

  /** Keys that differ pairwise make a well-formed object. */
  lemma {:induction false} PairwiseDistinctKeys(r: Record)
    requires forall i, j :: 0 <= i < j < |r| ==> r[i].0 != r[j].0
    ensures KeysDistinct(r)
    decreases |r|
  {
    if r != [] {
      var rest := r[1..];
      assert forall i :: 0 <= i < |rest| ==> rest[i] == r[i + 1];
      NotHasKey(rest, r[0].0);
      PairwiseDistinctKeys(rest);
    }
  }

  /** Looking up in two records laid end to end: the first one wins. */
  lemma {:induction false} LookupAppend(a: Record, b: Record, k: string)
    ensures Lookup(a + b, k) == if HasKey(a, k) then Lookup(a, k) else Lookup(b, k)
    ensures HasKey(a + b, k) <==> HasKey(a, k) || HasKey(b, k)
    decreases |a|
  {
    if a != [] {
      assert (a + b)[1..] == a[1..] + b;
      LookupAppend(a[1..], b, k);
    } else {
      assert a + b == b;
    }
  }

  /** `delete obj[k]`. */
  function Remove(r: Record, k: string): (r': Record)
    ensures !HasKey(r', k)
    ensures forall j :: j != k ==> (HasKey(r', j) <==> HasKey(r, j))
    decreases |r|
  {
    if r == [] then []
    else if r[0].0 == k then Remove(r[1..], k)
    else
      var rest := Remove(r[1..], k);
      assert ([r[0]] + rest)[1..] == rest;
      [r[0]] + rest
  }

  lemma {:induction false} LookupPut(r: Record, k: string, v: Value, j: string)
    ensures Lookup(Put(r, k, v), j) == if j == k then v else Lookup(r, j)
    decreases |r|
  {
    if r != [] && r[0].0 != k {
      LookupPut(r[1..], k, v, j);
    }
  }

  lemma {:induction false} LookupRemove(r: Record, k: string, j: string)
    ensures Lookup(Remove(r, k), j) == if j == k then Undefined else Lookup(r, j)
    decreases |r|
  {
    if r != [] {
      LookupRemove(r[1..], k, j);
    }
  }

  /** Setting the same key to the same value twice is setting it once. */
  lemma {:induction false} PutTwice(r: Record, k: string, v: Value)
    ensures Put(Put(r, k, v), k, v) == Put(r, k, v)
    decreases |r|
  {
    if r != [] && r[0].0 != k {
      PutTwice(r[1..], k, v);
      var rest := Put(r[1..], k, v);
      assert ([r[0]] + rest)[1..] == rest;
    }
  }

  lemma {:induction false} PutKeysDistinct(r: Record, k: string, v: Value)
    requires KeysDistinct(r)
    ensures KeysDistinct(Put(r, k, v))
    decreases |r|
  {
    if r != [] && r[0].0 == k {
      assert ([(k, v)] + r[1..])[1..] == r[1..];
    } else if r != [] {
      PutKeysDistinct(r[1..], k, v);
      var rest := Put(r[1..], k, v);
      assert ([r[0]] + rest)[1..] == rest;
    }
  }

  /** `{...a, ...b}` on plain objects: b's entries are put into a in order. */
  function Merge(a: Record, b: Record): Record
    decreases |b|
  {
    if b == [] then a else Merge(Put(a, b[0].0, b[0].1), b[1..])
  }

  /** A key of `b` takes its value from `b`; any other key keeps `a`'s. */
  lemma {:induction false} LookupMerge(a: Record, b: Record, k: string)
    requires KeysDistinct(b)
    ensures Lookup(Merge(a, b), k) == if HasKey(b, k) then Lookup(b, k) else Lookup(a, k)
    decreases |b|
  {
    if b != [] {
      LookupMerge(Put(a, b[0].0, b[0].1), b[1..], k);
      LookupPut(a, b[0].0, b[0].1, k);
    }
  }

  lemma {:induction false} MergeHasKey(a: Record, b: Record, k: string)
    ensures HasKey(Merge(a, b), k) <==> HasKey(a, k) || HasKey(b, k)
    decreases |b|
  {
    if b != [] {
      MergeHasKey(Put(a, b[0].0, b[0].1), b[1..], k);
    }
  }

  // ------------------------------------------------------------- key order

  /** A canonical array index: "0" or digits without a leading zero, below 2^32 - 1. */
  predicate IsArrayIndex(k: string)
  {
    |k| > 0 && AllDigits(k) && (k == "0" || k[0] != '0') && ParseDigits(k) < 0xFFFF_FFFF
  }

  function IndexValue(k: string): int
  {
    if AllDigits(k) then ParseDigits(k) else 0
  }

  function KeysOf(r: Record): (ks: seq<string>)
    ensures |ks| == |r|
  {
    seq(|r|, i requires 0 <= i < |r| => r[i].0)
  }

  /** A key is present exactly when it is among the stored keys. */
  lemma {:induction false} HasKeyInKeysOf(r: Record, k: string)
    ensures HasKey(r, k) <==> k in KeysOf(r)
    decreases |r|
  {
    if r != [] {
      assert KeysOf(r) == [r[0].0] + KeysOf(r[1..]);
      HasKeyInKeysOf(r[1..], k);
    }
  }

  /** Stored keys without repeats make a record whose keys are distinct. */
  lemma {:induction false} KeysDistinctOfKeysOf(r: Record)
    requires Distinct(KeysOf(r))
    ensures KeysDistinct(r)
    decreases |r|
  {
    if r != [] {
      var ks, tail := KeysOf(r), KeysOf(r[1..]);
      assert ks == [r[0].0] + tail;
      assert r[0].0 !in tail by {
        forall j | 0 <= j < |tail| ensures tail[j] != r[0].0 {
          assert tail[j] == ks[j + 1] && ks[0] == r[0].0;
          assert ks[0] != ks[j + 1];
        }
      }
      HasKeyInKeysOf(r[1..], r[0].0);
      forall i, j | 0 <= i < j < |tail| ensures tail[i] != tail[j] {
        assert tail[i] == ks[i + 1] && tail[j] == ks[j + 1];
      }
      KeysDistinctOfKeysOf(r[1..]);
    }
  }

  /** The order `Object.keys` reports: array indices ascending, then insertion order. */
  function Keys(r: Record): seq<string>
  {
    var ks := KeysOf(r);
    Sorting.Sort(Filter(ks, IsArrayIndex), (x: string, y: string) => IndexValue(x) < IndexValue(y))
      + Filter(ks, (x: string) => !IsArrayIndex(x))
  }

  /** `Object.keys` reports every own key exactly once. */
  lemma KeysPermutation(r: Record)
    ensures multiset(Keys(r)) == multiset(KeysOf(r))
    ensures |Keys(r)| == |r|
  {
    var ks := KeysOf(r);
    FilterPartition(ks, IsArrayIndex, (x: string) => !IsArrayIndex(x));
    assert |multiset(Keys(r))| == |Keys(r)| && |multiset(ks)| == |ks|;
  }

  /** When no key looks like an array index, keys come in insertion order. */
  lemma KeysInsertionOrder(r: Record)
    requires forall i :: 0 <= i < |r| ==> !IsArrayIndex(r[i].0)
    ensures Keys(r) == KeysOf(r)
  {
    var ks := KeysOf(r);
    FilterAll(ks, (x: string) => !IsArrayIndex(x));
    assert Filter(ks, IsArrayIndex) == [] by {
      if Filter(ks, IsArrayIndex) != [] {
        var x := Filter(ks, IsArrayIndex)[0];
        FilterMembers(ks, IsArrayIndex, x);
      }
    }
  }

  // ------------------------------------------------------------- values

  function IndexEntries(n: nat, f: nat -> Value): (r: Record)
    ensures |r| == n
    ensures forall i :: 0 <= i < n ==> r[i] == (NatToString(i), f(i))
  {
    seq(n, i requires 0 <= i < n => (NatToString(i), f(i)))
  }

  /** `v[k]` for a property key on any value (own data properties only). */
  function Property(v: Value, k: string): Value
  {
    match v
    case Obj(r) => Lookup(r, k)
    case Arr(xs) => if IsArrayIndex(k) && ParseDigits(k) < |xs| then xs[ParseDigits(k)] else Undefined
    case Str(s) => if IsArrayIndex(k) && ParseDigits(k) < |s| then Str([s[ParseDigits(k)]]) else Undefined
    case _ => Undefined
  }

  /** `Object.keys(v)`; `None` when it throws (null or undefined). */
  function OwnKeys(v: Value): Option<seq<string>>
  {
    match v
    case Undefined => None
    case Null => None
    case Obj(r) => Some(Keys(r))
    case Arr(xs) => Some(seq(|xs|, i requires 0 <= i < |xs| => NatToString(i)))
    case Str(s) => Some(seq(|s|, i requires 0 <= i < |s| => NatToString(i)))
    case _ => Some([])
  }

  /** The entries `{...v}` copies. */
  function Spread(v: Value): Record
  {
    match v
    case Obj(r) => r
    case Arr(xs) => IndexEntries(|xs|, (i: nat) => if i < |xs| then xs[i] else Undefined)
    case Str(s) => IndexEntries(|s|, (i: nat) => if i < |s| then Str([s[i]]) else Undefined)
    case _ => []
  }

  /** `[...v]`; `None` when `v` is not iterable (a TypeError). */
  function ArraySpread(v: Value): Option<seq<Value>>
  {
    match v
    case Arr(xs) => Some(xs)
    case Str(s) => Some(seq(|s|, i requires 0 <= i < |s| => Str([s[i]])))
    case _ => None
  }

  /** `String(v)`. */
  function ToJsString(v: Value): string
  {
    match v
    case Undefined => "undefined"
    case Null => "null"
    case Bool(b) => if b then "true" else "false"
    case Num(n) => IntToString(n)
    case Str(s) => s
    case Arr(xs) =>
      Join(seq(|xs|, i requires 0 <= i < |xs| => if IsNullish(xs[i]) then "" else ToJsString(xs[i])), ",")
    case Obj(_) => "[object Object]"
  }

  /** `xs.join(sep)`: null and undefined elements become empty strings. */
  function ArrayJoin(xs: seq<Value>, sep: string): string
  {
    Join(seq(|xs|, i requires 0 <= i < |xs| => if IsNullish(xs[i]) then "" else ToJsString(xs[i])), sep)
  }

  /** The primitive `<` and `>` convert objects and arrays to. */
  function ToPrimitive(v: Value): Value
  {
    match v
    case Arr(_) => Str(ToJsString(v))
    case Obj(_) => Str("[object Object]")
    case _ => v
  }

  /** `Number(p)` for a primitive; `None` is NaN. */
  function ToNumber(p: Value): Option<int>
  {
    match p
    case Undefined => None
    case Null => Some(0)
    case Bool(b) => Some(if b then 1 else 0)
    case Num(n) => Some(n)
    case Str(s) => StringToNumber(s)
    case _ => None
  }

  /** `a < b`: two strings compare by characters, anything else as numbers. */
  predicate LessThan(a: Value, b: Value)
  {
    var pa := ToPrimitive(a);
    var pb := ToPrimitive(b);
    if pa.Str? && pb.Str? then Sorting.StrLt(pa.s, pb.s)
    else
      var x := ToNumber(pa);
      var y := ToNumber(pb);
      x.Some? && y.Some? && x.value < y.value
  }

  /** `a <= b`: false whenever either side converts to NaN. */
  predicate LessEq(a: Value, b: Value)
  {
    var pa := ToPrimitive(a);
    var pb := ToPrimitive(b);
    if pa.Str? && pb.Str? then !Sorting.StrLt(pb.s, pa.s)
    else
      var x := ToNumber(pa);
      var y := ToNumber(pb);
      x.Some? && y.Some? && x.value <= y.value
  }

  /** `v.length`: a string's or array's length, an object's own `length` property, else undefined. */
  function LengthProp(v: Value): (r: Value)
    ensures v.Str? ==> r == Num(|v.s|)
    ensures v.Arr? ==> r == Num(|v.elems|)
  {
    match v
    case Str(s) => Num(|s|)
    case Arr(xs) => Num(|xs|)
    case Obj(r) => Lookup(r, "length")
    case _ => Undefined
  }

  /**
   * `v.includes(x)` for a string `x`: substring search on a string, an
   * element test on an array; `None` when `v` has no such method (a TypeError).
   */
  function Includes(v: Value, x: string): (r: Option<bool>)
    ensures r.Some? <==> v.Str? || v.Arr?
    ensures v.Arr? ==> (r == Some(true) <==> Str(x) in v.elems)
  {
    match v
    case Str(s) => Some(Contains(s, x))
    case Arr(xs) => Some(Str(x) in xs)
    case _ => None
  }

  /** The order `xs.sort()` uses without a comparator: by `String(x)`. */
  predicate StringOrder(a: Value, b: Value)
  {
    Sorting.StrLt(ToJsString(a), ToJsString(b))
  }

  predicate Defined(v: Value) { v != Undefined }

  predicate IsUndefined(v: Value) { v == Undefined }

  /**
   * `xs.sort()` without a comparator: the elements other than undefined in a
   * stable sort by `String(x)`, then the undefined ones.
   */
  function DefaultSort(xs: seq<Value>): (r: seq<Value>)
    ensures multiset(r) == multiset(xs)
  {
    FilterPartition(xs, Defined, IsUndefined);
    Sorting.Sort(Filter(xs, Defined), StringOrder) + Filter(xs, IsUndefined)
  }

  lemma StringOrderStrictWeak(s: seq<Value>)
    ensures Sorting.StrictWeakOn(s, StringOrder)
  {
    forall a, b | a in s && b in s && StringOrder(a, b) ensures !StringOrder(b, a) {
      Sorting.StrLtTotal(ToJsString(a), ToJsString(b));
    }
    forall a, b, c | a in s && b in s && c in s && StringOrder(a, c) ensures StringOrder(a, b) || StringOrder(b, c) {
      Sorting.StrLtTotal(ToJsString(a), ToJsString(b));
      if Sorting.StrLt(ToJsString(b), ToJsString(a)) {
        Sorting.StrLtTransitive(ToJsString(b), ToJsString(a), ToJsString(c));
      }
    }
  }

  /**
   * The default sort puts the texts of the elements in non-decreasing order
   * and undefined after everything else.
   */
  lemma DefaultSortOrdered(xs: seq<Value>)
    ensures forall i, j :: 0 <= i < j < |DefaultSort(xs)| && DefaultSort(xs)[j] != Undefined ==>
      DefaultSort(xs)[i] != Undefined &&
      !Sorting.StrLt(ToJsString(DefaultSort(xs)[j]), ToJsString(DefaultSort(xs)[i]))
  {
    var defined := Filter(xs, Defined);
    var sorted := Sorting.Sort(defined, StringOrder);
    var undef := Filter(xs, IsUndefined);
    StringOrderStrictWeak(defined);
    Sorting.SortSorted(defined, StringOrder);
    forall i | 0 <= i < |sorted| ensures sorted[i] != Undefined {
      assert sorted[i] in multiset(defined);
      FilterMembers(xs, Defined, sorted[i]);
    }
    forall i | 0 <= i < |undef| ensures undef[i] == Undefined {
      FilterMembers(xs, IsUndefined, undef[i]);
    }
    var r := sorted + undef;
    assert DefaultSort(xs) == r;
    forall i, j | 0 <= i < j < |r| && r[j] != Undefined
      ensures r[i] != Undefined && !Sorting.StrLt(ToJsString(r[j]), ToJsString(r[i]))
    {
      if j < |sorted| {
        assert r[i] == sorted[i] && r[j] == sorted[j];
        assert !StringOrder(sorted[j], sorted[i]);
      }
    }
  }

  lemma LessThanNumbers(a: int, b: int)
    ensures LessThan(Num(a), Num(b)) <==> a < b
  {
  }

  lemma LessThanStrings(a: string, b: string)
    ensures LessThan(Str(a), Str(b)) <==> Sorting.StrLt(a, b)
  {
  }
}
