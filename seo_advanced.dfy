/**
 * The page-level SEO helpers: title and description shortening, keyword
 * extraction by frequency, reading time, the SEO-friendly URL test, image
 * alt text, the breadcrumb schema, sitemap data and the social meta tags.
 *
 * The base URL (an environment setting with a fixed fallback) and the
 * current date are parameters.
 */
module SeoAdvanced {
  import opened Common
  import opened JsValue
  import Sorting

  const DefaultBaseUrl: string := "https://www.mfuhad.xyz"
  const DefaultSiteName: string := "Muhammed Fuhad C"
  const TitleMaxLength: int := 60
  const Separator: string := " | "

  // ---------------------------------------------------------------- titles

  /**
   * `optimizeTitle(title, siteName)` as written: the short branch compares
   * only the title with the limit, the long branch leaves room for the
   * separator and the site name.
   */
  function OptimizeTitle(title: string, siteName: string): (r: string)
    ensures |title| <= 60 ==> r == title + " | " + siteName
    ensures |title| > 60 && |siteName| <= 54 ==>
      |r| == 60 && r == title[..54 - |siteName|] + "..." + " | " + siteName
  {
    if |title| <= TitleMaxLength then title + Separator + siteName
    else
      var available := TitleMaxLength - |Separator| - |siteName|;
      Substring(title, 0, available - 3) + "..." + Separator + siteName
  }

  /** With the default site name a long title gives exactly 60 characters. */
  lemma LongTitleExactLength(title: string)
    requires |title| > 60
    ensures |OptimizeTitle(title, DefaultSiteName)| == 60
  {
  }

  /**
   * The short branch does not leave room for the suffix: every title of
   * 42 to 60 characters comes back longer than 60, though a 61-character
   * title comes back at exactly 60.
   */
  lemma ShortTitleOverflows(title: string)
    requires 42 <= |title| <= 60
    ensures |OptimizeTitle(title, DefaultSiteName)| > 60
  {
  }

  /** The title rule the long branch implies: the whole result fits in 60 characters. */
  function OptimizeTitleWithinLimit(title: string, siteName: string): (r: string)
    ensures |title| + |Separator| + |siteName| <= 60 ==> r == title + " | " + siteName
    ensures |siteName| <= 54 ==> |r| <= 60
    ensures |siteName| <= 54 && |title| + |Separator| + |siteName| > 60 ==>
      |r| == 60 && r == title[..54 - |siteName|] + "..." + " | " + siteName
  {
    if |title| + |Separator| + |siteName| <= TitleMaxLength then title + Separator + siteName
    else
      var available := TitleMaxLength - |Separator| - |siteName|;
      Substring(title, 0, available - 3) + "..." + Separator + siteName
  }

  /** The corrected rule agrees with the written one wherever the latter stays within 60. */
  lemma WithinLimitAgrees(title: string)
    requires |title| <= 41 || |title| > 60
    ensures OptimizeTitleWithinLimit(title, DefaultSiteName) == OptimizeTitle(title, DefaultSiteName)
  {
  }

  // ---------------------------------------------------------------- descriptions

  /** `optimizeDescription(description, maxLength)`. */
  function OptimizeDescription(description: string, maxLength: int): (r: string)
    ensures |description| <= maxLength ==> r == description
    ensures |description| > maxLength && maxLength >= 3 ==>
      |r| == maxLength && r == description[..maxLength - 3] + "..."
  {
    if |description| <= maxLength then description
    else Substring(description, 0, maxLength - 3) + "..."
  }

  /** Shortening twice is shortening once. */
  lemma OptimizeDescriptionIdempotent(description: string, maxLength: int)
    requires maxLength >= 3
    ensures OptimizeDescription(OptimizeDescription(description, maxLength), maxLength)
         == OptimizeDescription(description, maxLength)
  {
  }

  // ---------------------------------------------------------------- keywords

  /** `[^\w\s]` becomes a space. */
  function NormalizeChar(c: char): char
  {
    if IsWordChar(c) || IsWhitespace(c) then c else ' '
  }

  predicate IsKeywordChar(c: char)
  {
    'a' <= c <= 'z' || '0' <= c <= '9' || c == '_'
  }

  /** The lower-cased, punctuation-free content split on white space, words over 3 characters. */
  function KeywordCandidates(content: string): (words: seq<string>)
    ensures forall i :: 0 <= i < |words| ==> |words[i]| > 3
    ensures forall i, k :: 0 <= i < |words| && 0 <= k < |words[i]| ==> IsKeywordChar(words[i][k])
  {
    var lower := Lower(content);
    var cleaned := seq(|lower|, i requires 0 <= i < |lower| => NormalizeChar(lower[i]));
    SplitWhitespacePieces(cleaned, IsKeywordChar);
    var pieces := SplitWhitespace(cleaned);
    var words := Filter(pieces, (w: string) => |w| > 3);
    forall w | w in words ensures |w| > 3 && forall k :: 0 <= k < |w| ==> IsKeywordChar(w[k]) {
      FilterMembers(pieces, (w: string) => |w| > 3, w);
    }
    words
  }

  type Tally = seq<(string, nat)>

  function TallyWords(t: Tally): (ws: seq<string>)
    ensures |ws| == |t|
    ensures forall i :: 0 <= i < |t| ==> ws[i] == t[i].0
  {
    seq(|t|, i requires 0 <= i < |t| => t[i].0)
  }

  /**
   * `t` is the `wordCount` object for `words`: one entry per distinct word,
   * in order of first occurrence, holding its number of occurrences.
   */
  ghost predicate IsTally(t: Tally, words: seq<string>)
  {
    && (forall i, j :: 0 <= i < j < |t| ==> t[i].0 != t[j].0)
    && (forall i :: 0 <= i < |t| ==> t[i].0 in words && t[i].1 == Count(words, t[i].0))
    && (forall w :: w in words ==> w in TallyWords(t))
    && (forall i, j :: 0 <= i < j < |t| ==> IndexOf(words, t[i].0) < IndexOf(words, t[j].0))
  }

  /** `wordCount[word] = (wordCount[word] || 0) + 1`: bump the word's count, or add it with count 1. */
  function NextTally(t: Tally, w: string): Tally
  {
    var p := IndexOf(TallyWords(t), w);
    if p >= 0 then t[p := (w, t[p].1 + 1)] else t + [(w, 1)]
  }

  lemma TallyBump(t: Tally, words: seq<string>, w: string, p: nat)
    requires IsTally(t, words)
    requires p < |t| && t[p].0 == w
    ensures IsTally(t[p := (w, t[p].1 + 1)], words + [w])
  {
    var t' := t[p := (w, t[p].1 + 1)];
    var words' := words + [w];
    assert TallyWords(t') == TallyWords(t);
    forall i | 0 <= i < |t'| ensures t'[i].0 in words' && t'[i].1 == Count(words', t'[i].0) {
      CountSnoc(words, w, t'[i].0);
    }
    forall i | 0 <= i < |t'| ensures IndexOf(words', t'[i].0) == IndexOf(words, t'[i].0) {
      IndexOfSnoc(words, w, t'[i].0);
    }
  }

  lemma TallyAdd(t: Tally, words: seq<string>, w: string)
    requires IsTally(t, words)
    requires w !in TallyWords(t)
    ensures IsTally(t + [(w, 1)], words + [w])
  {
    var t' := t + [(w, 1)];
    var words' := words + [w];
    assert w !in words;
    assert TallyWords(t') == TallyWords(t) + [w];
    CountPositive(words, w);
    forall i | 0 <= i < |t'| ensures t'[i].0 in words' && t'[i].1 == Count(words', t'[i].0) {
      CountSnoc(words, w, t'[i].0);
    }
    forall i | 0 <= i < |t| ensures IndexOf(words', t'[i].0) == IndexOf(words, t[i].0) < |words| {
      IndexOfSnoc(words, w, t'[i].0);
    }
    IndexOfSnocNew(words, w);
  }

  lemma NextTallyIsTally(t: Tally, words: seq<string>, w: string)
    requires IsTally(t, words)
    ensures IsTally(NextTally(t, w), words + [w])
  {
    var p := IndexOf(TallyWords(t), w);
    var next := NextTally(t, w);
    if p >= 0 {
      assert t[p].0 == w;
      assert next == t[p := (w, t[p].1 + 1)];
      TallyBump(t, words, w, p);
    } else {
      assert next == t + [(w, 1)];
      TallyAdd(t, words, w);
    }
  }

  /** The `forEach` that fills `wordCount`. */
  method CountWords(words: seq<string>) returns (t: Tally)
    ensures t == TallyOf(words)
    ensures IsTally(t, words)
    ensures forall i, j :: 0 <= i < j < |t| ==> t[i].0 != t[j].0
    ensures forall i :: 0 <= i < |t| ==> t[i].0 in words && t[i].1 == Count(words, t[i].0)
    ensures forall w :: w in words ==> w in TallyWords(t)
  {
    t := [];
    for k := 0 to |words|
      invariant t == TallyOf(words[..k])
      invariant IsTally(t, words[..k])
    {
      var w := words[k];
      NextTallyIsTally(t, words[..k], w);
      PrefixStep(words, k);
      t := NextTally(t, w);
    }
    FullPrefix(words);
  }

  /** The tally the `forEach` leaves behind: `NextTally` applied to each word in turn. */
  function TallyOf(words: seq<string>): Tally
    decreases |words|
  {
    if words == [] then [] else NextTally(TallyOf(words[..|words| - 1]), words[|words| - 1])
  }

  predicate IndexEntry(e: (string, nat)) { IsArrayIndex(e.0) }
  predicate NamedEntry(e: (string, nat)) { !IsArrayIndex(e.0) }
  predicate ByIndex(x: (string, nat), y: (string, nat)) { IndexValue(x.0) < IndexValue(y.0) }

  /** `b - a` as a comparator: `x` goes first when it occurs more often. */
  predicate ByCountDesc(x: (string, nat), y: (string, nat)) { x.1 > y.1 }

  /** `Object.entries(wordCount)`: integer-like words ascending, then the rest in insertion order. */
  function Entries(t: Tally): (r: Tally)
    ensures multiset(r) == multiset(t)
  {
    FilterPartition(t, IndexEntry, NamedEntry);
    Sorting.Sort(Filter(t, IndexEntry), ByIndex) + Filter(t, NamedEntry)
  }

  /** Sort by count, descending and stable, keep the first `maxKeywords`, keep the words. */
  function RankKeywords(t: Tally, maxKeywords: int): seq<string>
  {
    var ranked := Sorting.Sort(Entries(t), ByCountDesc);
    TallyWords(Slice(ranked, 0, maxKeywords))
  }

  lemma CountDescStrictWeak(s: Tally)
    ensures Sorting.StrictWeakOn(s, ByCountDesc)
  {
  }

  /** A rearranged tally still has one entry per word, each with its count. */
  lemma RearrangedTally(t: Tally, words: seq<string>, ranked: Tally)
    requires IsTally(t, words) && multiset(ranked) == multiset(t)
    ensures forall i :: 0 <= i < |ranked| ==> ranked[i].0 in words && ranked[i].1 == Count(words, ranked[i].0)
    ensures forall i, j :: 0 <= i < j < |ranked| ==> ranked[i].0 != ranked[j].0
    ensures forall w :: w in words ==> w in TallyWords(ranked)
  {
    RankedCounts(t, words, ranked);
    RankedDistinct(t, words, ranked);
    RankedCovers(t, words, ranked);
  }

  lemma RankedCounts(t: Tally, words: seq<string>, ranked: Tally)
    requires IsTally(t, words) && multiset(ranked) == multiset(t)
    ensures forall i :: 0 <= i < |ranked| ==> ranked[i].0 in words && ranked[i].1 == Count(words, ranked[i].0)
  {
    forall i | 0 <= i < |ranked| ensures ranked[i].0 in words && ranked[i].1 == Count(words, ranked[i].0) {
      assert ranked[i] in multiset(ranked);
      var p :| 0 <= p < |t| && t[p] == ranked[i];
    }
  }

  lemma RankedDistinct(t: Tally, words: seq<string>, ranked: Tally)
    requires IsTally(t, words) && multiset(ranked) == multiset(t)
    ensures forall i, j :: 0 <= i < j < |ranked| ==> ranked[i].0 != ranked[j].0
  {
    assert Distinct(t);
    DistinctPermutation(t, ranked);
    forall i, j | 0 <= i < j < |ranked| ensures ranked[i].0 != ranked[j].0 {
      assert ranked[i] in multiset(ranked) && ranked[j] in multiset(ranked);
      var p :| 0 <= p < |t| && t[p] == ranked[i];
      var q :| 0 <= q < |t| && t[q] == ranked[j];
      assert p != q ==> t[p].0 != t[q].0;
    }
  }

  lemma RankedCovers(t: Tally, words: seq<string>, ranked: Tally)
    requires IsTally(t, words) && multiset(ranked) == multiset(t)
    ensures forall w :: w in words ==> w in TallyWords(ranked)
  {
    forall w | w in words ensures w in TallyWords(ranked) {
      assert w in TallyWords(t);
      var p :| 0 <= p < |t| && t[p].0 == w;
      assert t[p] in multiset(ranked);
      var j :| 0 <= j < |ranked| && ranked[j] == t[p];
      assert TallyWords(ranked)[j] == w;
    }
  }

  /** A prefix of a count-sorted tally holds the most frequent words. */
  lemma SortedPrefix(ranked: Tally, words: seq<string>, b: nat)
    requires b <= |ranked|
    requires Sorting.SortedBy(ranked, ByCountDesc)
    requires forall i :: 0 <= i < |ranked| ==> ranked[i].0 in words && ranked[i].1 == Count(words, ranked[i].0)
    requires forall i, j :: 0 <= i < j < |ranked| ==> ranked[i].0 != ranked[j].0
    requires forall w :: w in words ==> w in TallyWords(ranked)
    ensures var r := TallyWords(ranked[..b]);
      && (forall i, j :: 0 <= i < j < |r| ==> r[i] != r[j])
      && (forall i :: 0 <= i < |r| ==> r[i] in words)
      && (forall i, j :: 0 <= i < j < |r| ==> Count(words, r[i]) >= Count(words, r[j]))
      && (forall w, i :: w in words && w !in r && 0 <= i < |r| ==> Count(words, w) <= Count(words, r[i]))
  {
    var r := TallyWords(ranked[..b]);
    forall i, j | 0 <= i < j < |r| ensures Count(words, r[i]) >= Count(words, r[j]) {
      assert !ByCountDesc(ranked[j], ranked[i]);
    }
    forall w, i | w in words && w !in r && 0 <= i < |r| ensures Count(words, w) <= Count(words, r[i]) {
      var j :| 0 <= j < |ranked| && TallyWords(ranked)[j] == w;
      assert forall k :: 0 <= k < b ==> TallyWords(ranked)[k] == r[k];
      assert j >= b;
      assert !ByCountDesc(ranked[j], ranked[i]);
    }
  }

  /**
   * The ranking of a tally keeps `slice(0, maxKeywords)` of its distinct
   * words, without repetition, by non-increasing frequency, and no word left
   * out occurs more often than a word kept.
   */
  lemma RankKeywordsProperties(t: Tally, words: seq<string>, maxKeywords: int)
    requires IsTally(t, words)
    ensures var r := RankKeywords(t, maxKeywords);
      && |r| == RelativeIndex(maxKeywords, |t|)
      && (forall i, j :: 0 <= i < j < |r| ==> r[i] != r[j])
      && (forall i :: 0 <= i < |r| ==> r[i] in words)
      && (forall i, j :: 0 <= i < j < |r| ==> Count(words, r[i]) >= Count(words, r[j]))
      && (forall w, i :: w in words && w !in r && 0 <= i < |r| ==> Count(words, w) <= Count(words, r[i]))
      && (|r| == |t| ==> forall w :: w in words ==> w in r)
  {
    var entries := Entries(t);
    var ranked := Sorting.Sort(entries, ByCountDesc);
    CountDescStrictWeak(entries);
    Sorting.SortSorted(entries, ByCountDesc);
    RearrangedTally(t, words, ranked);
    var b := RelativeIndex(maxKeywords, |ranked|);
    assert Slice(ranked, 0, maxKeywords) == ranked[..b];
    SortedPrefix(ranked, words, b);
    assert |ranked| == |t| by {
      assert |multiset(ranked)| == |multiset(t)|;
    }
    if b == |ranked| {
      assert ranked[..b] == ranked;
    }
  }

  /** `extractKeywords(content, maxKeywords)`. */
  method ExtractKeywords(content: string, maxKeywords: int) returns (keywords: seq<string>)
    ensures maxKeywords >= 0 ==> |keywords| <= maxKeywords
    ensures maxKeywords >= 0 ==>
      |keywords| == maxKeywords || forall w :: w in KeywordCandidates(content) ==> w in keywords
    ensures forall i, j :: 0 <= i < j < |keywords| ==> keywords[i] != keywords[j]
    ensures forall i :: 0 <= i < |keywords| ==>
      keywords[i] in KeywordCandidates(content) && |keywords[i]| > 3
      && forall k :: 0 <= k < |keywords[i]| ==> IsKeywordChar(keywords[i][k])
    ensures var words := KeywordCandidates(content);
      forall i, j :: 0 <= i < j < |keywords| ==> Count(words, keywords[i]) >= Count(words, keywords[j])
    ensures var words := KeywordCandidates(content);
      forall w, i :: w in words && w !in keywords && 0 <= i < |keywords| ==> Count(words, w) <= Count(words, keywords[i])
  {
    var words := KeywordCandidates(content);
    var t := CountWords(words);
    keywords := RankKeywords(t, maxKeywords);
    RankKeywordsProperties(t, words, maxKeywords);
  }

  // ---------------------------------------------------------------- the tally as written

  /** The text a built-in method turns into when `+` meets it: `Object` for the constructor. */
  function InheritedSource(name: string): string
  {
    "function " + (if name == "constructor" then "Object" else name) + "() { [native code] }"
  }

  /** `v + 1` on what a tally entry holds: a count goes up, a text gets "1" appended. */
  function PlusOne(v: Value): Value
  {
    match v
    case Num(n) => Num(n + 1)
    case _ => Str(ToJsString(v) + "1")
  }

  /**
   * `wordCount[word] = (wordCount[word] || 0) + 1` as written, on a plain
   * object: the read also sees the members every object inherits. For
   * "constructor" it finds the `Object` function, so the entry becomes that
   * function's text followed by "1"; for "__proto__" it finds the prototype,
   * and assigning a string to `__proto__` is ignored, so nothing is stored.
   */
  function CountStep(t: Record, w: string): Record
  {
    match LiteralOr(t, w, Num(0))
    case Listed(v) => Put(t, w, PlusOne(v))
    case InheritedMember(n) => if n == "__proto__" then t else Put(t, w, Str(InheritedSource(n) + "1"))
  }

  /** The `wordCount` object the `forEach` builds as written. */
  function TallyAsWritten(words: seq<string>): Record
    decreases |words|
  {
    if words == [] then [] else CountStep(TallyAsWritten(words[..|words| - 1]), words[|words| - 1])
  }

  /** A tally as an object of counts. */
  function AsCounts(t: Tally): (r: Record)
    ensures |r| == |t|
    ensures forall i :: 0 <= i < |t| ==> r[i] == (t[i].0, Num(t[i].1))
  {
    seq(|t|, i requires 0 <= i < |t| => (t[i].0, Num(t[i].1)))
  }

  /** The entries of a tally: distinct words, each counted at least once. */
  predicate Positive(t: Tally)
  {
    (forall i, j :: 0 <= i < j < |t| ==> t[i].0 != t[j].0) && (forall i :: 0 <= i < |t| ==> t[i].1 > 0)
  }

  /** Setting a key stored at `p`, and not before it, replaces that entry in place. */
  lemma {:induction false} PutAt(r: Record, k: string, v: Value, p: nat)
    requires p < |r| && r[p].0 == k
    requires forall i :: 0 <= i < p ==> r[i].0 != k
    ensures Put(r, k, v) == r[p := (k, v)]
    ensures Lookup(r, k) == r[p].1
    decreases p
  {
    if p > 0 {
      PutAt(r[1..], k, v, p - 1);
      assert [r[0]] + r[1..][p - 1 := (k, v)] == r[p := (k, v)];
    }
  }

  /** A word is a key of an object of counts exactly when it is one of the tally's words. */
  lemma CountsHaveTallyWords(t: Tally, w: string)
    ensures HasKey(AsCounts(t), w) <==> w in TallyWords(t)
  {
    assert KeysOf(AsCounts(t)) == TallyWords(t);
    HasKeyInKeysOf(AsCounts(t), w);
  }

  /** A counted word's step bumps its entry where it stands. */
  lemma CountStepBump(t: Tally, w: string, p: nat)
    requires Positive(t)
    requires p < |t| && p == IndexOf(TallyWords(t), w)
    ensures CountStep(AsCounts(t), w) == AsCounts(NextTally(t, w))
  {
    var r := AsCounts(t);
    var c := t[p].1;
    CountsHaveTallyWords(t, w);
    assert t[p].0 == w;
    forall i | 0 <= i < p ensures r[i].0 != w {
      assert TallyWords(t)[..p][i] == t[i].0;
    }
    PutAt(r, w, Num(c + 1), p);
    assert LiteralOr(r, w, Num(0)) == Listed(Num(c));
    assert CountStep(r, w) == r[p := (w, Num(c + 1))];
    assert NextTally(t, w) == t[p := (w, c + 1)];
    assert AsCounts(t[p := (w, c + 1)]) == r[p := (w, Num(c + 1))];
  }

  /** A new word's step, when it is not inherited, adds it with count 1 at the end. */
  lemma CountStepAdd(t: Tally, w: string)
    requires w !in InheritedNames && w !in TallyWords(t)
    ensures CountStep(AsCounts(t), w) == AsCounts(NextTally(t, w))
  {
    var r := AsCounts(t);
    CountsHaveTallyWords(t, w);
    assert AsCounts(NextTally(t, w)) == r + [(w, Num(1))];
  }

  /** A counting step keeps the entries distinct and counted. */
  lemma NextTallyPositive(t: Tally, w: string)
    requires Positive(t)
    ensures Positive(NextTally(t, w))
  {
    var p := IndexOf(TallyWords(t), w);
    if p < 0 {
      assert forall i :: 0 <= i < |t| ==> TallyWords(t)[i] != w;
    }
  }

  /** One step on an object of counts is one `NextTally` step, for a word that is not inherited. */
  lemma CountStepOfCounts(t: Tally, w: string)
    requires Positive(t)
    requires w !in InheritedNames
    ensures CountStep(AsCounts(t), w) == AsCounts(NextTally(t, w))
    ensures Positive(NextTally(t, w))
  {
    var p := IndexOf(TallyWords(t), w);
    if p >= 0 {
      CountStepBump(t, w, p);
    } else {
      CountStepAdd(t, w);
    }
    NextTallyPositive(t, w);
  }

  /** Without inherited words, the tally as written is the counting tally, count for count. */
  lemma {:induction false} TallyAsWrittenAgrees(words: seq<string>)
    requires forall i :: 0 <= i < |words| ==> words[i] !in InheritedNames
    ensures TallyAsWritten(words) == AsCounts(TallyOf(words))
    ensures Positive(TallyOf(words))
    decreases |words|
  {
    if words != [] {
      var n := |words| - 1;
      TallyAsWrittenAgrees(words[..n]);
      CountStepOfCounts(TallyOf(words[..n]), words[n]);
    }
  }

  /** "__proto__" never becomes an entry as written, however often it occurs. */
  lemma {:induction false} ProtoNeverCounted(words: seq<string>)
    ensures !HasKey(TallyAsWritten(words), "__proto__")
    decreases |words|
  {
    if words != [] {
      ProtoNeverCounted(words[..|words| - 1]);
    }
  }

  /** Every entry of the tally as written is one of the words. */
  lemma {:induction false} TallyKeysAreWords(words: seq<string>, k: string)
    requires HasKey(TallyAsWritten(words), k)
    ensures k in words
    decreases |words|
  {
    var n := |words| - 1;
    InFrontOrLast(words, k);
    if k != words[n] {
      TallyKeysAreWords(words[..n], k);
    }
  }

  /** Once "constructor" occurs, its entry as written is a non-empty text, not a count. */
  lemma {:induction false} ConstructorNotANumber(words: seq<string>)
    requires "constructor" in words
    ensures Lookup(TallyAsWritten(words), "constructor").Str?
    ensures Lookup(TallyAsWritten(words), "constructor").s != ""
    decreases |words|
  {
    var n := |words| - 1;
    var w := words[n];
    var prev := TallyAsWritten(words[..n]);
    InFrontOrLast(words, "constructor");
    if "constructor" in words[..n] {
      ConstructorNotANumber(words[..n]);
    } else if HasKey(prev, "constructor") {
      TallyKeysAreWords(words[..n], "constructor");
    }
    LookupPut(prev, w, PlusOne(Or(Lookup(prev, w), Num(0))), "constructor");
    LookupPut(prev, w, Str(InheritedSource(w) + "1"), "constructor");
  }

  /** The only inherited names a keyword can spell are "constructor" and "__proto__". */
  lemma KeywordInherited(content: string, w: string)
    requires w in KeywordCandidates(content) && w in InheritedNames
    ensures w == "constructor" || w == "__proto__"
  {
    var ws := KeywordCandidates(content);
    var i :| 0 <= i < |ws| && ws[i] == w;
    forall n | n in InheritedNames && n != "constructor" && n != "__proto__" ensures w != n {
      var k := CapitalAt(n);
      assert !IsKeywordChar(n[k]);
    }
  }

  /** A position where an inherited name other than "constructor" and "__proto__" has a capital letter. */
  function CapitalAt(n: string): (k: nat)
    requires n in InheritedNames && n != "constructor" && n != "__proto__"
    ensures k < |n| && 'A' <= n[k] <= 'Z'
  {
    if n == "hasOwnProperty" then 3
    else if n == "isPrototypeOf" || n == "toLocaleString" || n == "toString" then 2
    else if n == "valueOf" then 5
    else 8
  }

  /** The content "Constructor constructor" counts its one word twice, but as written the entry is a text. */
  lemma ConstructorTwice()
    ensures TallyOf(["constructor", "constructor"]) == [("constructor", 2)]
    ensures TallyAsWritten(["constructor", "constructor"])
            == [("constructor", Str(InheritedSource("constructor") + "11"))]
  {
    var once := ["constructor"];
    var twice := ["constructor", "constructor"];
    assert twice[..1] == once && once[..0] == [];
    var one := Str(InheritedSource("constructor") + "1");
    assert TallyAsWritten(once) == [("constructor", one)];
    assert Lookup([("constructor", one)], "constructor") == one;
    assert InheritedSource("constructor") + "1" + "1" == InheritedSource("constructor") + "11";
  }

  // ---------------------------------------------------------------- reading time, URLs, alt text

  /** `calculateReadingTime`: 200 words a minute, rounded up, never below 1. */
  function ReadingTime(content: string): (minutes: nat)
    ensures var pieces := |SplitWhitespace(content)|;
      minutes >= 1 && (minutes - 1) * 200 < pieces <= minutes * 200
  {
    CeilDiv(|SplitWhitespace(content)|, 200)
  }

  predicate NotSlash(c: char) { c != '/' }

  /** `/^[a-z0-9-]+$/.test(url.replace(/\//g, ''))`. */
  predicate IsSeoFriendlyUrl(url: string)
  {
    var rest := Filter(url, NotSlash);
    rest != [] && forall k :: 0 <= k < |rest| ==> IsLowerAlnum(rest[k]) || rest[k] == '-'
  }

  /** Slashes are ignored; friendly means some other character and only `[a-z0-9-]` besides. */
  lemma SeoFriendlyUrlMeaning(url: string)
    ensures IsSeoFriendlyUrl(url) <==>
      (exists k :: 0 <= k < |url| && url[k] != '/')
      && (forall k :: 0 <= k < |url| && url[k] != '/' ==> IsLowerAlnum(url[k]) || url[k] == '-')
  {
    var rest := Filter(url, NotSlash);
    if exists k :: 0 <= k < |url| && url[k] != '/' {
      var k :| 0 <= k < |url| && url[k] != '/';
      FilterMembers(url, NotSlash, url[k]);
    }
    if rest != [] {
      FilterMembers(url, NotSlash, rest[0]);
    }
    forall k | 0 <= k < |url| && url[k] != '/' ensures url[k] in rest {
      FilterMembers(url, NotSlash, url[k]);
    }
    forall k | 0 <= k < |rest| ensures rest[k] in url && rest[k] != '/' {
      FilterMembers(url, NotSlash, rest[k]);
    }
  }

  /** `generateAltText(context, imageDescription)`. */
  function AltText(context: string, imageDescription: Value): (r: Value)
    ensures Truthy(imageDescription) ==> r == imageDescription
    ensures !Truthy(imageDescription) && context !in {"profile", "project", "certificate", "achievement"} ==>
      r == Str("Relevant image")
    ensures !Truthy(imageDescription) ==> r.Str? && r.s != ""
  {
    if Truthy(imageDescription) then imageDescription
    else if context == "profile" then Str("Professional headshot of Muhammed Fuhad C")
    else if context == "project" then Str("Screenshot or demo of the project")
    else if context == "certificate" then Str("Certificate or award document")
    else if context == "achievement" then Str("Award or recognition certificate")
    else Str("Relevant image")
  }

  /** `contextMap` of `generateAltText`. */
  const AltTextContexts: Record :=
    [("profile", Str("Professional headshot of Muhammed Fuhad C")),
     ("project", Str("Screenshot or demo of the project")),
     ("certificate", Str("Certificate or award document")),
     ("achievement", Str("Award or recognition certificate"))]

  /**
   * `generateAltText` as written: `contextMap[context]` also sees the
   * members every object inherits, so a context such as "toString" without
   * a description gets a function back instead of "Relevant image".
   */
  function AltTextAsWritten(context: string, imageDescription: Value): Found<Value>
  {
    if Truthy(imageDescription) then Listed(imageDescription)
    else LiteralOr(AltTextContexts, context, Str("Relevant image"))
  }

  /** As written, the alt text departs from `AltText` only for an inherited context without a description. */
  lemma AltTextAsWrittenDeparts(context: string, imageDescription: Value)
    ensures AltTextAsWritten(context, imageDescription).InheritedMember?
            <==> !Truthy(imageDescription) && context in InheritedNames
    ensures context !in InheritedNames ==>
            AltTextAsWritten(context, imageDescription) == Listed(AltText(context, imageDescription))
  {
    var t := AltTextContexts;
    assert t[1..][1..][1..][1..] == [];
    assert HasKey(t, context) <==> context in {"profile", "project", "certificate", "achievement"};
  }

  /** The context "toString" without a description: a function as written, "Relevant image" by the table. */
  lemma ToStringContextAltText()
    ensures AltTextAsWritten("toString", Undefined) == InheritedMember("toString")
    ensures AltText("toString", Undefined) == Str("Relevant image")
  {
    AltTextAsWrittenDeparts("toString", Undefined);
  }

  // ---------------------------------------------------------------- breadcrumbs

  datatype Crumb = Crumb(name: Value, url: Value)

  /** One `{"@type": "ListItem", position, name, item}`. */
  datatype ListItem = ListItem(position: int, name: Value, item: Value)

  datatype BreadcrumbSchema = BreadcrumbSchema(context: string, schemaType: string, items: seq<ListItem>)

  function BreadcrumbItems(crumbs: seq<Crumb>): (items: seq<ListItem>)
    ensures |items| == |crumbs|
    ensures forall i :: 0 <= i < |crumbs| ==> items[i] == ListItem(i + 1, crumbs[i].name, crumbs[i].url)
  {
    seq(|crumbs|, i requires 0 <= i < |crumbs| => ListItem(i + 1, crumbs[i].name, crumbs[i].url))
  }

  /** `generateStructuredData.breadcrumbList(breadcrumbs)`. */
  function BreadcrumbList(crumbs: seq<Crumb>): (r: BreadcrumbSchema)
    ensures r.context == "https://schema.org" && r.schemaType == "BreadcrumbList"
    ensures |r.items| == |crumbs|
  {
    BreadcrumbSchema("https://schema.org", "BreadcrumbList", BreadcrumbItems(crumbs))
  }

  /** Positions run 1, 2, ..., n, and a crumb added at the end becomes position n + 1. */
  lemma BreadcrumbPositions(crumbs: seq<Crumb>, c: Crumb)
    ensures forall i :: 0 <= i < |crumbs| ==> BreadcrumbList(crumbs).items[i].position == i + 1
    ensures BreadcrumbList(crumbs + [c]).items == BreadcrumbList(crumbs).items + [ListItem(|crumbs| + 1, c.name, c.url)]
  {
    var a := BreadcrumbItems(crumbs + [c]);
    var b := BreadcrumbItems(crumbs) + [ListItem(|crumbs| + 1, c.name, c.url)];
    assert |a| == |b|;
    forall i | 0 <= i < |a| ensures a[i] == b[i] {
      if i < |crumbs| { assert (crumbs + [c])[i] == crumbs[i]; }
    }
  }

  // ---------------------------------------------------------------- sitemap data

  /** A page of `generateSitemapData`; a `None` field or an empty string or zero is falsy. */
  datatype SitemapPage = SitemapPage(url: Value, lastModified: Option<string>, changeFrequency: Option<string>, priority: Option<real>)

  datatype SitemapItem = SitemapItem(url: string, lastmod: string, changefreq: string, priority: real)

  function SitemapItemOf(page: SitemapPage, baseUrl: string, currentDate: string): (e: SitemapItem)
    ensures e.url == baseUrl + ToJsString(page.url)
    ensures e.lastmod == if page.lastModified.Some? && page.lastModified.value != "" then page.lastModified.value else currentDate
    ensures e.changefreq == if page.changeFrequency.Some? && page.changeFrequency.value != "" then page.changeFrequency.value else "monthly"
    ensures e.priority == if page.priority.Some? && page.priority.value != 0.0 then page.priority.value else 0.5
    ensures e.priority != 0.0
  {
    SitemapItem(
      baseUrl + ToJsString(page.url),
      if page.lastModified.Some? && page.lastModified.value != "" then page.lastModified.value else currentDate,
      if page.changeFrequency.Some? && page.changeFrequency.value != "" then page.changeFrequency.value else "monthly",
      if page.priority.Some? && page.priority.value != 0.0 then page.priority.value else 0.5)
  }

  /** `generateSitemapData(pages)`: one entry per page, in order. */
  function SitemapData(pages: seq<SitemapPage>, baseUrl: string, currentDate: string): (r: seq<SitemapItem>)
    ensures |r| == |pages|
    ensures forall i :: 0 <= i < |pages| ==> r[i] == SitemapItemOf(pages[i], baseUrl, currentDate)
  {
    seq(|pages|, i requires 0 <= i < |pages| => SitemapItemOf(pages[i], baseUrl, currentDate))
  }

  // ---------------------------------------------------------------- social meta tags

  datatype PageData = PageData(
    title: Value, description: Value, image: Value, url: Value,
    pageType: Value, robots: Value, author: Value, keywords: Value)

  datatype SocialTags = SocialTags(
    ogTitle: Value, ogDescription: Value, ogImage: string, ogUrl: string, ogType: Value,
    ogSiteName: string, ogLocale: string,
    twitterCard: string, twitterSite: string, twitterCreator: string,
    twitterTitle: Value, twitterDescription: Value, twitterImage: string,
    robots: Value, author: Value, keywords: Value, canonical: string)

  /**
   * The share image: an absolute ("http...") image is kept, any other is
   * put under the base URL, a missing one is the default card; a truthy
   * non-string image has no `startsWith` and throws (`None`).
   */
  function SocialImageUrl(image: Value, baseUrl: string): (r: Option<string>)
    ensures !Truthy(image) ==> r == Some(baseUrl + "/og-image.jpg")
    ensures Truthy(image) && image.Str? && StartsWith(image.s, "http") ==> r == Some(image.s)
    ensures Truthy(image) && image.Str? && !StartsWith(image.s, "http") ==> r == Some(baseUrl + image.s)
    ensures Truthy(image) && !image.Str? ==> r == None
  {
    if !Truthy(image) then Some(baseUrl + "/og-image.jpg")
    else if !image.Str? then None
    else if StartsWith(image.s, "http") then Some(image.s)
    else Some(baseUrl + image.s)
  }

  /** `generateSocialMetaTags(pageData)`; `None` when resolving the image throws. */
  function SocialMetaTags(page: PageData, baseUrl: string): (r: Option<SocialTags>)
    ensures r.None? <==> SocialImageUrl(page.image, baseUrl).None?
    ensures r.Some? ==>
      var t := r.value;
      && t.ogImage == t.twitterImage == SocialImageUrl(page.image, baseUrl).value
      && t.ogTitle == t.twitterTitle == page.title
      && t.ogDescription == t.twitterDescription == page.description
      && t.ogUrl == t.canonical == baseUrl + ToJsString(page.url)
      && t.ogType == Or(page.pageType, Str("website"))
      && t.robots == Or(page.robots, Str("index, follow"))
      && t.author == Or(page.author, Str("Muhammed Fuhad C"))
      && (page.keywords.Arr? ==> t.keywords == Str(ArrayJoin(page.keywords.elems, ", ")))
      && (!page.keywords.Arr? ==> t.keywords == page.keywords)
  {
    match SocialImageUrl(page.image, baseUrl)
    case None => None
    case Some(imageUrl) =>
      var url := baseUrl + ToJsString(page.url);
      Some(SocialTags(
        page.title, page.description, imageUrl, url, Or(page.pageType, Str("website")),
        "Muhammed Fuhad C Portfolio", "en_US",
        "summary_large_image", "@fuhadc", "@fuhadc",
        page.title, page.description, imageUrl,
        Or(page.robots, Str("index, follow")), Or(page.author, Str("Muhammed Fuhad C")),
        if page.keywords.Arr? then Str(ArrayJoin(page.keywords.elems, ", ")) else page.keywords,
        url))
  }
}
