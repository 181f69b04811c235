/**
 * String and sequence helpers that mirror the JavaScript built-ins the
 * portfolio code relies on: `toLowerCase` (ASCII letters), `trim`,
 * `split`, `join`, `includes`, `startsWith`, `slice`, `substring`,
 * `Number(...)` on decimal strings and `String(n)` on integers.
 */
module Common {

  datatype Option<T> = None | Some(value: T)

  // ---------------------------------------------------------------- characters

  /** `toLowerCase` on one character; only the ASCII letters A-Z change. */
  function LowerChar(c: char): char
  {
    if 'A' <= c <= 'Z' then (c as int + 32) as char else c
  }

  function Lower(s: string): (r: string)
    ensures |r| == |s|
    ensures forall i :: 0 <= i < |s| ==> r[i] == LowerChar(s[i])
  {
    seq(|s|, i requires 0 <= i < |s| => LowerChar(s[i]))
  }

  /** The characters JavaScript's `\s` and `trim` treat as white space. */
  predicate IsWhitespace(c: char)
  {
    var n := c as int;
    n == 0x20 || 0x09 <= n <= 0x0D || n == 0xA0 || n == 0x1680
    || 0x2000 <= n <= 0x200A || n == 0x2028 || n == 0x2029 || n == 0x202F
    || n == 0x205F || n == 0x3000 || n == 0xFEFF
  }

  predicate IsAsciiDigit(c: char) { '0' <= c <= '9' }

  predicate IsLowerAlnum(c: char) { 'a' <= c <= 'z' || '0' <= c <= '9' }

  /** JavaScript's `\w` without the `u` flag: `[A-Za-z0-9_]`. */
  predicate IsWordChar(c: char)
  {
    'a' <= c <= 'z' || 'A' <= c <= 'Z' || '0' <= c <= '9' || c == '_'
  }

  // ---------------------------------------------------------------- prefixes, search

  predicate StartsWith(s: string, p: string)
  {
    |p| <= |s| && s[..|p|] == p
  }

  /** `s.includes(t)`: `t` occurs in `s` at some position. */
  predicate Contains(s: string, t: string)
    decreases |s|
  {
    StartsWith(s, t) || (|s| > 0 && Contains(s[1..], t))
  }

  lemma {:induction false} ContainsAt(s: string, t: string, i: nat)
    requires i + |t| <= |s| && s[i..i + |t|] == t
    ensures Contains(s, t)
    decreases i
  {
    if i > 0 {
      assert s[1..][i - 1..i - 1 + |t|] == t;
      ContainsAt(s[1..], t, i - 1);
    }
  }

  /** A text never contains a longer one. */
  lemma {:induction false} ContainsNoLonger(s: string, t: string)
    requires |s| < |t|
    ensures !Contains(s, t)
    decreases |s|
  {
    if |s| > 0 {
      ContainsNoLonger(s[1..], t);
    }
  }

  lemma {:induction false} ContainsSelf(s: string)
    ensures Contains(s, s)
  {
    assert s[..|s|] == s;
  }

  // ---------------------------------------------------------------- trim

  function TrimStart(s: string): (r: string)
    ensures |r| <= |s|
    ensures r == s[|s| - |r|..]
    ensures r == [] || !IsWhitespace(r[0])
  {
    if s != [] && IsWhitespace(s[0]) then TrimStart(s[1..]) else s
  }

  function TrimEnd(s: string): (r: string)
    ensures |r| <= |s|
    ensures r == s[..|r|]
    ensures r == [] || !IsWhitespace(r[|r| - 1])
  {
    if s != [] && IsWhitespace(s[|s| - 1]) then TrimEnd(s[..|s| - 1]) else s
  }

  /** `s.trim()`. */
  function Trim(s: string): string
  {
    TrimEnd(TrimStart(s))
  }

  // ---------------------------------------------------------------- split and join

  /**
   * `s.split(sep)` for a non-empty separator: scanning left to right, every
   * occurrence of `sep` ends one piece.
   */
  function Split(s: string, sep: string): (r: seq<string>)
    requires |sep| > 0
    ensures |r| >= 1
    decreases |s|
  {
    if |s| < |sep| then [s]
    else if s[..|sep|] == sep then [""] + Split(s[|sep|..], sep)
    else
      var rest := Split(s[1..], sep);
      [[s[0]] + rest[0]] + rest[1..]
  }

  /** `parts.join(sep)`. */
  function Join(parts: seq<string>, sep: string): string
    decreases |parts|
  {
    if |parts| == 0 then ""
    else if |parts| == 1 then parts[0]
    else parts[0] + sep + Join(parts[1..], sep)
  }

  lemma {:induction false} JoinPrependToFirst(c: string, first: string, tail: seq<string>, sep: string)
    ensures Join([c + first] + tail, sep) == c + Join([first] + tail, sep)
  {
    var a := [c + first] + tail;
    var b := [first] + tail;
    assert a[1..] == tail && b[1..] == tail;
  }

  /** Splitting and joining again with the same separator gives back the string. */
  lemma {:induction false} JoinSplit(s: string, sep: string)
    requires |sep| > 0
    ensures Join(Split(s, sep), sep) == s
    decreases |s|
  {
    if |s| < |sep| {
    } else if s[..|sep|] == sep {
      var rest := Split(s[|sep|..], sep);
      JoinSplit(s[|sep|..], sep);
      assert ([""] + rest)[1..] == rest;
      assert s == sep + s[|sep|..];
    } else {
      var rest := Split(s[1..], sep);
      JoinSplit(s[1..], sep);
      assert rest == [rest[0]] + rest[1..];
      JoinPrependToFirst([s[0]], rest[0], rest[1..], sep);
      assert s == [s[0]] + s[1..];
    }
  }

  /** A string without the separator's first character is one piece. */
  lemma {:induction false} SplitWithoutSeparator(s: string, sep: string)
    requires |sep| > 0 && sep[0] !in s
    ensures Split(s, sep) == [s]
    decreases |s|
  {
    if |s| >= |sep| {
      assert s[..|sep|] != sep by { assert s[..|sep|][0] == s[0] && s[0] in s; }
      SplitWithoutSeparator(s[1..], sep);
      assert [s[0]] + s[1..] == s;
    }
  }

  /** A piece without the separator's first character, then the separator, ends the first piece. */
  lemma {:induction false} SplitAfterPiece(w: string, sep: string, t: string)
    requires |sep| > 0 && sep[0] !in w
    ensures Split(w + sep + t, sep) == [w] + Split(t, sep)
    decreases |w|
  {
    var s := w + sep + t;
    if w == [] {
      assert s == sep + t;
      assert s[..|sep|] == sep && s[|sep|..] == t;
    } else {
      assert s[..|sep|] != sep by { assert s[..|sep|][0] == w[0] && w[0] in w; }
      assert s[1..] == w[1..] + sep + t;
      SplitAfterPiece(w[1..], sep, t);
      assert [w[0]] + w[1..] == w;
    }
  }

  /** Joining pieces that lack the separator's first character and splitting again gives the pieces. */
  lemma {:induction false} SplitJoin(ws: seq<string>, sep: string)
    requires |ws| >= 1 && |sep| > 0
    requires forall i :: 0 <= i < |ws| ==> sep[0] !in ws[i]
    ensures Split(Join(ws, sep), sep) == ws
    decreases |ws|
  {
    if |ws| == 1 {
      SplitWithoutSeparator(ws[0], sep);
    } else {
      var rest := ws[1..];
      assert forall i :: 0 <= i < |rest| ==> sep[0] !in rest[i] by {
        forall i | 0 <= i < |rest| ensures sep[0] !in rest[i] { assert rest[i] == ws[i + 1]; }
      }
      SplitJoin(rest, sep);
      assert sep[0] !in ws[0];
      SplitAfterPiece(ws[0], sep, Join(rest, sep));
      assert [ws[0]] + rest == ws;
    }
  }

  lemma {:induction false} JoinSnoc(ws: seq<string>, last: string, sep: string)
    requires |ws| >= 1
    ensures Join(ws + [last], sep) == Join(ws, sep) + sep + last
    decreases |ws|
  {
    if |ws| == 1 {
      assert (ws + [last])[1..] == [last];
    } else {
      JoinSnoc(ws[1..], last, sep);
      assert (ws + [last])[1..] == ws[1..] + [last];
    }
  }

  /** Joining a joined list inside a longer list is joining the concatenation. */
  /** The message of a check that fired, or nothing: one `push` guarded by `fires`. */
  function When(fires: bool, message: string): (r: seq<string>)
    ensures message in r <==> fires
    ensures |r| <= 1
  {
    if fires then [message] else []
  }

  /** `if (fires) s.push(message)` appends the rule's message list. */
  lemma PushWhen(s: seq<string>, fires: bool, message: string)
    ensures (if fires then s + [message] else s) == s + When(fires, message)
  {
    if !fires {
      assert s + When(fires, message) == s;
    }
  }

  /** A message after `s` is present when it was in `s` or its rule fired. */
  lemma InAfterWhen(s: seq<string>, fires: bool, message: string, x: string)
    ensures x in s + When(fires, message) <==> x in s || (fires && x == message)
  {
    if fires {
      assert s + When(fires, message) == s + [message];
    } else {
      assert s + When(fires, message) == s;
    }
  }

  /** Appending in two steps or in one gives the same sequence. */
  lemma ConcatAssoc<T>(a: seq<T>, b: seq<T>, c: seq<T>)
    ensures (a + b) + c == a + (b + c)
  {
  }

  /** The prefix as long as the sequence is the sequence. */
  lemma FullPrefix<T>(s: seq<T>)
    ensures s[..|s|] == s
  {
  }

  /** The prefix one longer ends in the next element and starts with the prefix. */
  lemma PrefixStep<T>(s: seq<T>, i: nat)
    requires i < |s|
    ensures |s[..i + 1]| == i + 1
    ensures s[..i + 1][..i] == s[..i]
    ensures s[..i + 1][i] == s[i]
    ensures s[..i + 1] == s[..i] + [s[i]]
  {
  }

  /** `if (c) s.push(x)` appends a list of zero or one elements. */
  lemma SnocIf<T>(s: seq<T>, c: bool, x: T)
    ensures (if c then s + [x] else s) == s + (if c then [x] else [])
  {
    if !c {
      assert s + [] == s;
    }
  }

  /** An element of a non-empty sequence is in its front or is its last element. */
  lemma InFrontOrLast<T>(s: seq<T>, y: T)
    requires s != []
    ensures y in s <==> y in s[..|s| - 1] || y == s[|s| - 1]
  {
    assert s == s[..|s| - 1] + [s[|s| - 1]];
  }

  /** Extending a prefix of `b` after `a` by one element. */
  lemma AppendPrefixStep<T>(a: seq<T>, b: seq<T>, j: nat)
    requires j < |b|
    ensures a + b[..j + 1] == (a + b[..j]) + [b[j]]
  {
    assert b[..j + 1] == b[..j] + [b[j]];
  }

  /** Dropping the last element of `a + b` drops the last element of `b`. */
  lemma AppendInit<T>(a: seq<T>, b: seq<T>)
    requires b != []
    ensures (a + b)[..|a + b| - 1] == a + b[..|b| - 1]
    ensures (a + b)[|a + b| - 1] == b[|b| - 1]
  {
  }

  lemma {:induction false} JoinAppend(a: seq<string>, b: seq<string>, sep: string)
    requires |a| > 0
    ensures Join([Join(a, sep)] + b, sep) == Join(a + b, sep)
    decreases |a|
  {
    if |b| == 0 {
      assert [Join(a, sep)] + b == [Join(a, sep)];
      assert a + b == a;
    } else if |a| == 1 {
      assert a + b == [a[0]] + b;
    } else {
      JoinAppend(a[1..], b, sep);
      assert (a + b)[1..] == a[1..] + b;
      assert ([Join(a, sep)] + b)[1..] == b;
      assert ([Join(a[1..], sep)] + b)[1..] == b;
    }
  }

  /**
   * `s.split(/\s+/)`: a maximal run of white space ends one piece; a
   * leading run gives an empty first piece, a trailing run an empty last one.
   */
  function SplitWhitespace(s: string): (r: seq<string>)
    ensures |r| >= 1
    decreases |s|
  {
    if s == [] then [""]
    else if IsWhitespace(s[0]) then [""] + SplitWhitespace(TrimStart(s))
    else
      var rest := SplitWhitespace(s[1..]);
      [[s[0]] + rest[0]] + rest[1..]
  }

  // ---------------------------------------------------------------- numbers as text

  function DigitChar(d: nat): (c: char)
    requires d < 10
    ensures IsAsciiDigit(c) && c as int - '0' as int == d
  {
    ('0' as int + d) as char
  }

  /** `String(n)` for a non-negative integer. */
  function NatToString(n: nat): (r: string)
    ensures |r| >= 1
    decreases n
  {
    if n < 10 then [DigitChar(n)] else NatToString(n / 10) + [DigitChar(n % 10)]
  }

  /** `String(i)` for any integer. */
  function IntToString(i: int): string
  {
    if i < 0 then "-" + NatToString(-i) else NatToString(i)
  }

  predicate AllDigits(s: string)
  {
    forall i :: 0 <= i < |s| ==> IsAsciiDigit(s[i])
  }

  /** The value of a string of decimal digits. */
  function ParseDigits(s: string): nat
    requires AllDigits(s)
    decreases |s|
  {
    if s == [] then 0 else ParseDigits(s[..|s| - 1]) * 10 + (s[|s| - 1] as int - '0' as int)
  }

  lemma {:induction false} NatToStringDigits(n: nat)
    ensures AllDigits(NatToString(n))
    ensures ParseDigits(NatToString(n)) == n
    decreases n
  {
    if n >= 10 {
      NatToStringDigits(n / 10);
      var r := NatToString(n);
      assert r[..|r| - 1] == NatToString(n / 10);
    }
  }

  /** Different numbers have different decimal renderings. */
  lemma NatToStringInjective(a: nat, b: nat)
    ensures NatToString(a) == NatToString(b) ==> a == b
  {
    NatToStringDigits(a);
    NatToStringDigits(b);
  }

  /**
   * `Number(s)` for the strings the model meets: after trimming, the empty
   * string is 0 and an optionally signed run of decimal digits is its value;
   * anything else is NaN (`None`).
   */
  function StringToNumber(s: string): Option<int>
  {
    var t := Trim(s);
    if t == "" then Some(0)
    else if |t| > 1 && t[0] == '-' && AllDigits(t[1..]) then Some(0 - ParseDigits(t[1..]) as int)
    else if |t| > 1 && t[0] == '+' && AllDigits(t[1..]) then Some(ParseDigits(t[1..]))
    else if AllDigits(t) then Some(ParseDigits(t))
    else None
  }

  // ---------------------------------------------------------------- slicing

  /** How `slice` reads one bound: negative counts from the end, then clamp. */
  function RelativeIndex(k: int, len: nat): (r: nat)
    ensures r <= len
    ensures 0 <= k <= len ==> r == k
    ensures k > len ==> r == len
    ensures k < 0 ==> r == if len + k < 0 then 0 else len + k
  {
    if k < 0 then (if len + k < 0 then 0 else len + k) else if k > len then len else k
  }

  /** `s.slice(start, end)` on arrays and strings. */
  function Slice<T>(s: seq<T>, start: int, end: int): seq<T>
  {
    var a := RelativeIndex(start, |s|);
    var b := RelativeIndex(end, |s|);
    if a < b then s[a..b] else []
  }

  function Clamp(k: int, len: nat): (r: nat)
    ensures r <= len
  {
    if k < 0 then 0 else if k > len then len else k
  }

  /** `s.substring(start, end)`: both bounds clamped to [0, length], then ordered. */
  function Substring(s: string, start: int, end: int): string
  {
    var a := Clamp(start, |s|);
    var b := Clamp(end, |s|);
    if a <= b then s[a..b] else s[b..a]
  }

  /** `Math.ceil(a / b)` for a positive divisor. */
  function CeilDiv(a: nat, b: int): (r: nat)
    requires b > 0
    ensures r * b >= a
    ensures r == 0 || (r - 1) * b < a
  {
    var q := a / b;
    if q * b == a then q else q + 1
  }

  // ---------------------------------------------------------------- sequences

  /** `s.filter(p)`. */
  function Filter<T>(s: seq<T>, p: T -> bool): (r: seq<T>)
    ensures |r| <= |s|
    decreases |s|
  {
    if s == [] then []
    else if p(s[0]) then [s[0]] + Filter(s[1..], p)
    else Filter(s[1..], p)
  }

  /** `sub` is `s` with some elements dropped and the rest kept in order. */
  predicate IsSubsequence<T(==)>(sub: seq<T>, s: seq<T>)
    decreases |s|
  {
    sub == [] || (|s| > 0 && ((sub[0] == s[0] && IsSubsequence(sub[1..], s[1..])) || IsSubsequence(sub, s[1..])))
  }

  lemma {:induction false} FilterMembers<T>(s: seq<T>, p: T -> bool, x: T)
    ensures x in Filter(s, p) <==> x in s && p(x)
    decreases |s|
  {
    if s != [] {
      FilterMembers(s[1..], p, x);
      assert s == [s[0]] + s[1..];
    }
  }

  lemma {:induction false} FilterIsSubsequence<T>(s: seq<T>, p: T -> bool)
    ensures IsSubsequence(Filter(s, p), s)
    decreases |s|
  {
    if s != [] {
      FilterIsSubsequence(s[1..], p);
      var r := Filter(s, p);
      if p(s[0]) {
        assert r[0] == s[0] && r[1..] == Filter(s[1..], p);
      }
    }
  }

  lemma {:induction false} FilterAll<T>(s: seq<T>, p: T -> bool)
    requires forall i :: 0 <= i < |s| ==> p(s[i])
    ensures Filter(s, p) == s
    decreases |s|
  {
    if s != [] {
      FilterAll(s[1..], p);
    }
  }

  /** Filtering a list with one more element at the end. */
  lemma {:induction false} FilterSnoc<T>(s: seq<T>, x: T, p: T -> bool)
    ensures Filter(s + [x], p) == Filter(s, p) + (if p(x) then [x] else [])
    decreases |s|
  {
    if s == [] {
      assert s + [x] == [x];
    } else {
      assert (s + [x])[1..] == s[1..] + [x];
      FilterSnoc(s[1..], x, p);
    }
  }

  /** Filtering twice is filtering once by both tests. */
  lemma {:induction false} FilterFilter<T>(s: seq<T>, p: T -> bool, q: T -> bool, pq: T -> bool)
    requires forall x :: pq(x) == (p(x) && q(x))
    ensures Filter(Filter(s, p), q) == Filter(s, pq)
    decreases |s|
  {
    if s != [] {
      FilterFilter(s[1..], p, q, pq);
      if p(s[0]) {
        var f := Filter(s, p);
        assert f == [s[0]] + Filter(s[1..], p);
        assert f[0] == s[0] && f[1..] == Filter(s[1..], p);
      }
    }
  }

  /** Two tests that agree everywhere filter alike. */
  lemma {:induction false} FilterSameTest<T>(s: seq<T>, p: T -> bool, q: T -> bool)
    requires forall x :: p(x) == q(x)
    ensures Filter(s, p) == Filter(s, q)
    decreases |s|
  {
    if s != [] {
      FilterSameTest(s[1..], p, q);
    }
  }

  function Count<T(==)>(s: seq<T>, x: T): nat
    decreases |s|
  {
    if s == [] then 0 else (if s[0] == x then 1 else 0) + Count(s[1..], x)
  }

  lemma {:induction false} CountAppend<T>(a: seq<T>, b: seq<T>, x: T)
    ensures Count(a + b, x) == Count(a, x) + Count(b, x)
    decreases |a|
  {
    if a == [] {
      assert a + b == b;
    } else {
      CountAppend(a[1..], b, x);
      assert (a + b)[1..] == a[1..] + b;
    }
  }

  lemma {:induction false} CountPositive<T>(s: seq<T>, x: T)
    ensures Count(s, x) > 0 <==> x in s
    decreases |s|
  {
    if s != [] {
      CountPositive(s[1..], x);
      assert s == [s[0]] + s[1..];
    }
  }

  predicate Distinct<T(==)>(s: seq<T>)
  {
    forall i, j :: 0 <= i < j < |s| ==> s[i] != s[j]
  }

  /** Index of the first occurrence of `x`, or -1 (`indexOf`). */
  function IndexOf<T(==)>(s: seq<T>, x: T): (r: int)
    ensures -1 <= r < |s|
    ensures r == -1 <==> x !in s
    ensures r >= 0 ==> s[r] == x && x !in s[..r]
    decreases |s|
  {
    if s == [] then -1
    else if s[0] == x then 0
    else
      var k := IndexOf(s[1..], x);
      assert s[1..][..(if k < 0 then 0 else k)] == s[1..(if k < 0 then 1 else k + 1)];
      if k < 0 then -1 else k + 1
  }

  lemma CountSnoc<T>(s: seq<T>, y: T, x: T)
    ensures Count(s + [y], x) == Count(s, x) + (if y == x then 1 else 0)
  {
    CountAppend(s, [y], x);
  }

  lemma {:induction false} IndexOfSnoc<T>(s: seq<T>, y: T, x: T)
    requires x in s
    ensures IndexOf(s + [y], x) == IndexOf(s, x)
    decreases |s|
  {
    if s[0] != x {
      assert (s + [y])[1..] == s[1..] + [y];
      IndexOfSnoc(s[1..], y, x);
    }
  }

  lemma {:induction false} IndexOfSnocNew<T>(s: seq<T>, y: T)
    requires y !in s
    ensures IndexOf(s + [y], y) == |s|
    decreases |s|
  {
    if s != [] {
      assert (s + [y])[1..] == s[1..] + [y];
      IndexOfSnocNew(s[1..], y);
    }
  }

  lemma {:induction false} DistinctMultiplicity<T>(s: seq<T>, x: T)
    requires Distinct(s)
    ensures multiset(s)[x] <= 1
    decreases |s|
  {
    if s != [] {
      assert s == [s[0]] + s[1..];
      assert s[0] !in s[1..];
      DistinctMultiplicity(s[1..], x);
    }
  }

  /** A rearrangement of a list without repetitions has none either. */
  lemma DistinctPermutation<T>(s: seq<T>, t: seq<T>)
    requires Distinct(s) && multiset(s) == multiset(t)
    ensures Distinct(t)
  {
    forall i, j | 0 <= i < j < |t| ensures t[i] != t[j] {
      if t[i] == t[j] {
        assert t == t[..j] + t[j..];
        assert t[i] in t[..j] && t[j] in t[j..];
        assert multiset(t)[t[i]] == multiset(t[..j])[t[i]] + multiset(t[j..])[t[i]];
        DistinctMultiplicity(s, t[i]);
      }
    }
  }

  /**
   * `[...new Set(s)]`: the first occurrence of every element, in the order
   * the elements first appear.
   */
  function Dedup<T(==)>(s: seq<T>): (r: seq<T>)
    ensures Distinct(r)
    ensures forall i :: 0 <= i < |r| ==> r[i] in s
    ensures forall i :: 0 <= i < |s| ==> s[i] in r
    ensures |r| <= |s|
    decreases |s|
  {
    if s == [] then []
    else
      var d := Dedup(s[..|s| - 1]);
      assert s == s[..|s| - 1] + [s[|s| - 1]];
      if s[|s| - 1] in d then d else d + [s[|s| - 1]]
  }

  /** `set.add(x)` on the set built from `s`: a new element goes last, a present one changes nothing. */
  lemma DedupSnoc<T>(s: seq<T>, x: T)
    ensures Dedup(s + [x]) == if x in Dedup(s) then Dedup(s) else Dedup(s) + [x]
  {
    assert (s + [x])[..|s|] == s;
  }

  /** `set.add(b[j])` on the set built from `a + b[..j]`. */
  lemma DedupPrefixStep<T>(d: seq<T>, a: seq<T>, b: seq<T>, j: nat)
    requires j < |b| && d == Dedup(a + b[..j])
    ensures (if b[j] in d then d else d + [b[j]]) == Dedup(a + b[..j + 1])
  {
    AppendPrefixStep(a, b, j);
    DedupSnoc(a + b[..j], b[j]);
  }

  // ---------------------------------------------------------------- keyed entries

  /** Every key occurs at most once among the entries, as in a JavaScript object. */
  predicate EntryKeysDistinct<V>(fs: seq<(string, V)>)
  {
    forall i, j :: 0 <= i < j < |fs| ==> fs[i].0 != fs[j].0
  }

  /**
   * `{...entries, [key]: value}`: an existing entry for the key takes the new
   * value in its place, a new key is added at the end.
   */
  function SetEntry<V(==)>(fs: seq<(string, V)>, key: string, value: V): (r: seq<(string, V)>)
    requires EntryKeysDistinct(fs)
    ensures EntryKeysDistinct(r)
    ensures (key, value) in r
    ensures forall j :: 0 <= j < |r| ==> r[j] == (key, value) || (r[j] in fs && r[j].0 != key)
    ensures forall j :: 0 <= j < |fs| && fs[j].0 != key ==> fs[j] in r
    decreases |fs|
  {
    if fs == [] then [(key, value)]
    else if fs[0].0 == key then [(key, value)] + fs[1..]
    else [fs[0]] + SetEntry(fs[1..], key, value)
  }

  /** `delete copy[key]` on a copy of the entries: the others keep their order. */
  function RemoveEntry<V(==)>(fs: seq<(string, V)>, key: string): (r: seq<(string, V)>)
    ensures forall j :: 0 <= j < |r| ==> r[j] in fs && r[j].0 != key
    ensures forall j :: 0 <= j < |fs| && fs[j].0 != key ==> fs[j] in r
    ensures EntryKeysDistinct(fs) ==> EntryKeysDistinct(r)
    decreases |fs|
  {
    if fs == [] then []
    else if fs[0].0 == key then RemoveEntry(fs[1..], key)
    else [fs[0]] + RemoveEntry(fs[1..], key)
  }

  /** Filtering by a test and by its negation splits the list's elements. */
  lemma {:induction false} FilterPartition<T>(s: seq<T>, p: T -> bool, q: T -> bool)
    requires forall x :: q(x) == !p(x)
    ensures multiset(Filter(s, p)) + multiset(Filter(s, q)) == multiset(s)
    decreases |s|
  {
    if s != [] {
      FilterPartition(s[1..], p, q);
      assert s == [s[0]] + s[1..];
    }
  }

  /** Every piece of `SplitWhitespace(s)` is made of non-blank characters of `s`. */
  lemma {:induction false} SplitWhitespacePieces(s: string, P: char -> bool)
    requires forall k :: 0 <= k < |s| && !IsWhitespace(s[k]) ==> P(s[k])
    ensures forall i, k :: 0 <= i < |SplitWhitespace(s)| && 0 <= k < |SplitWhitespace(s)[i]| ==>
      !IsWhitespace(SplitWhitespace(s)[i][k]) && P(SplitWhitespace(s)[i][k])
    decreases |s|
  {
    if s == [] {
    } else if IsWhitespace(s[0]) {
      var t := TrimStart(s);
      assert forall k :: 0 <= k < |t| ==> t[k] == s[|s| - |t| + k];
      SplitWhitespacePieces(t, P);
    } else {
      SplitWhitespacePieces(s[1..], P);
      var rest := SplitWhitespace(s[1..]);
      var r := SplitWhitespace(s);
      assert r[0] == [s[0]] + rest[0];
      assert forall i :: 1 <= i < |r| ==> r[i] == rest[i];
    }
  }

  // ---------------------------------------------------------------- object literals

  /**
   * The properties every plain object inherits from `Object.prototype`.
   * A read `table[key]` of an object literal finds them when the literal
   * lists no such key: each is a function, except `__proto__`, which is
   * the prototype object itself, so every one of them is truthy.
   */
  const InheritedNames: set<string> :=
    {"constructor", "__proto__", "__defineGetter__", "__defineSetter__", "__lookupGetter__",
     "__lookupSetter__", "hasOwnProperty", "isPrototypeOf", "propertyIsEnumerable",
     "toLocaleString", "toString", "valueOf"}

  /** What a read of an object literal gives: an answer of the table's own, or an inherited member. */
  datatype Found<T> = Listed(value: T) | InheritedMember(name: string)

  /**
   * `table[key] || fallback`, where `own` is the literal's truthy entry for
   * `key` (`None` when it lists none, or a falsy one).
   */
  function ReadLiteral<T>(own: Option<T>, key: string, fallback: T): (r: Found<T>)
    ensures key !in InheritedNames ==> r == Listed(if own.Some? then own.value else fallback)
    ensures r.InheritedMember? <==> own.None? && key in InheritedNames
  {
    if own.Some? then Listed(own.value)
    else if key in InheritedNames then InheritedMember(key)
    else Listed(fallback)
  }

  /** No inherited name starts with a slash, so a path never reaches one. */
  lemma InheritedNamesAreNotPaths(key: string)
    requires key in InheritedNames
    ensures key != [] && key[0] != '/'
  {
  }
}
