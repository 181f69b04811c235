/**
 * A stable sort by a "comes strictly before" test, standing for
 * `Array.prototype.sort` with a comparator (which has been stable since
 * ES2019), and the lexicographic order JavaScript uses for `<` on strings.
 */
module Sorting {

  /** Puts `x` in front of the first element it strictly precedes. */
  function Insert<T>(x: T, s: seq<T>, lt: (T, T) -> bool): (r: seq<T>)
    ensures |r| == |s| + 1
    ensures multiset(r) == multiset(s) + multiset{x}
    decreases |s|
  {
    if s == [] then [x]
    else if lt(x, s[0]) then [x] + s
    else
      assert s == [s[0]] + s[1..];
      [s[0]] + Insert(x, s[1..], lt)
  }

  /** Inserts the elements one at a time, so an element never passes an equal one. */
  function Sort<T>(s: seq<T>, lt: (T, T) -> bool): (r: seq<T>)
    ensures multiset(r) == multiset(s)
    decreases |s|
  {
    if s == [] then []
    else
      assert s == s[..|s| - 1] + [s[|s| - 1]];
      Insert(s[|s| - 1], Sort(s[..|s| - 1], lt), lt)
  }

  /** No element is strictly preceded by a later one. */
  ghost predicate SortedBy<T>(r: seq<T>, lt: (T, T) -> bool)
  {
    forall i, j :: 0 <= i < j < |r| ==> !lt(r[j], r[i])
  }

  /**
   * `lt` is a strict weak order on the elements of `s`: asymmetric, and
   * whenever a precedes c, any b precedes c or follows a.
   */
  ghost predicate StrictWeakOn<T>(s: seq<T>, lt: (T, T) -> bool)
  {
    (forall a, b :: a in s && b in s && lt(a, b) ==> !lt(b, a))
    && (forall a, b, c :: a in s && b in s && c in s && lt(a, c) ==> lt(a, b) || lt(b, c))
  }

  lemma {:induction false} StrictWeakOnSub<T>(s: seq<T>, t: seq<T>, lt: (T, T) -> bool)
    requires StrictWeakOn(s, lt)
    requires forall x :: x in t ==> x in s
    ensures StrictWeakOn(t, lt)
  {
  }

  lemma {:induction false} InsertSorted<T>(x: T, s: seq<T>, lt: (T, T) -> bool)
    requires SortedBy(s, lt)
    requires StrictWeakOn([x] + s, lt)
    ensures SortedBy(Insert(x, s, lt), lt)
    decreases |s|
  {
    if s == [] {
    } else if lt(x, s[0]) {
      InsertInFront(x, s, lt);
    } else {
      var all, tail := [x] + s, s[1..];
      assert forall y :: y in [x] + tail ==> y in all;
      StrictWeakOnSub(all, [x] + tail, lt);
      InsertSorted(x, tail, lt);
      InsertAfterHead(x, s, lt);
    }
  }

  /** An element that strictly precedes the first of a sorted list can go in front of it. */
  lemma InsertInFront<T>(x: T, s: seq<T>, lt: (T, T) -> bool)
    requires s != [] && lt(x, s[0])
    requires SortedBy(s, lt) && StrictWeakOn([x] + s, lt)
    ensures SortedBy([x] + s, lt)
  {
    var r := [x] + s;
    forall i, j | 0 <= i < j < |r| ensures !lt(r[j], r[i]) {
      if i == 0 {
        assert r[j] in r && s[0] in r;
        if j > 1 {
          assert !lt(s[j - 1], s[0]);
        }
      }
    }
  }

  /** Keeping the first element in front of the sorted rest-with-`x` keeps the list sorted. */
  lemma InsertAfterHead<T>(x: T, s: seq<T>, lt: (T, T) -> bool)
    requires s != [] && !lt(x, s[0])
    requires SortedBy(s, lt) && SortedBy(Insert(x, s[1..], lt), lt)
    ensures SortedBy([s[0]] + Insert(x, s[1..], lt), lt)
  {
    var tail := s[1..];
    var rest := Insert(x, tail, lt);
    var r := [s[0]] + rest;
    forall i, j | 0 <= i < j < |r| ensures !lt(r[j], r[i]) {
      if i == 0 {
        assert r[j] in multiset(rest);
        assert r[j] == x || r[j] in tail;
        if r[j] != x {
          var k :| 0 <= k < |tail| && tail[k] == r[j];
          assert s[k + 1] == r[j];
        }
      } else {
        assert r[i] == rest[i - 1] && r[j] == rest[j - 1];
      }
    }
  }

  /** The sort orders its input whenever `lt` is a strict weak order on it. */
  lemma {:induction false} SortSorted<T>(s: seq<T>, lt: (T, T) -> bool)
    requires StrictWeakOn(s, lt)
    ensures SortedBy(Sort(s, lt), lt)
    decreases |s|
  {
    if s != [] {
      var init := s[..|s| - 1];
      var x := s[|s| - 1];
      assert forall y :: y in init ==> y in s;
      StrictWeakOnSub(s, init, lt);
      SortSorted(init, lt);
      var sorted := Sort(init, lt);
      forall y | y in [x] + sorted ensures y in s {
        if y != x {
          assert y in multiset(sorted);
          assert y in multiset(init);
        }
      }
      StrictWeakOnSub(s, [x] + sorted, lt);
      InsertSorted(x, sorted, lt);
    }
  }

  // ------------------------------------------------------------- strings

  /** `a < b` on strings: lexicographic by character code. */
  predicate StrLt(a: string, b: string)
    decreases |a|
  {
    if b == [] then false
    else if a == [] then true
    else if a[0] != b[0] then a[0] < b[0]
    else StrLt(a[1..], b[1..])
  }

  lemma {:induction false} StrLtTotal(a: string, b: string)
    ensures StrLt(a, b) || a == b || StrLt(b, a)
    ensures !(StrLt(a, b) && StrLt(b, a))
    ensures !StrLt(a, a)
    decreases |a|
  {
    if a != [] && b != [] {
      StrLtTotal(a[1..], b[1..]);
      if a[0] == b[0] && a[1..] == b[1..] {
        assert a == [a[0]] + a[1..] && b == [b[0]] + b[1..];
      }
    }
    if a != [] {
      StrLtTotal(a[1..], a[1..]);
    }
  }

  lemma {:induction false} StrLtTransitive(a: string, b: string, c: string)
    requires StrLt(a, b) && StrLt(b, c)
    ensures StrLt(a, c)
    decreases |a|
  {
    if a != [] && a[0] == b[0] && b[0] == c[0] {
      StrLtTransitive(a[1..], b[1..], c[1..]);
    }
  }

  /** Comparing by a string key with `StrLt` is a strict weak order on any list. */
  lemma StrKeyStrictWeak<T>(s: seq<T>, key: T -> string)
    ensures StrictWeakOn(s, (x: T, y: T) => StrLt(key(x), key(y)))
  {
    var lt := (x: T, y: T) => StrLt(key(x), key(y));
    forall a, b | a in s && b in s && lt(a, b) ensures !lt(b, a) {
      StrLtTotal(key(a), key(b));
    }
    forall a, b, c | a in s && b in s && c in s && lt(a, c) ensures lt(a, b) || lt(b, c) {
      StrLtTotal(key(a), key(b));
      if StrLt(key(b), key(a)) {
        StrLtTransitive(key(b), key(a), key(c));
      }
    }
  }

  /** Comparing by an integer key is a strict weak order on any list. */
  lemma IntKeyStrictWeak<T>(s: seq<T>, key: T -> int)
    ensures StrictWeakOn(s, (x: T, y: T) => key(x) < key(y))
  {
  }
}
