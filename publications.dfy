/**
 * The publications page: its list of publications, the statistics shown
 * above it (how many publications, papers, abstracts and citations), and
 * the refresh of the citation counts when the page opens, which keeps the
 * list as it was when the refresh fails.
 */
module PublicationsPage {
  import opened Common
  import opened JsValue
  import opened CitationService

  // ------------------------------------------------------------ the list

  /**
   * Fields of a publication that nothing on the page computes with: the isbn, impact, icon
   * and colour. The long `abstract` and `keywords` texts of the records are dropped.
   */
  function Riders(isbn: Value, impact: string, color: string): Record
  {
    [("isbn", isbn), ("impact", Str(impact)), ("icon", Str("BookOpen")), ("color", Str(color))]
  }

  /** The long texts of the starting list. */
  const DripTitle: string := "Cost Effective and Energy Efficient Drip Irrigation System for IoT Enabled Smart Agriculture"
  const TemperatureTitle: string := "Automated Contactless Continuous Temperature Monitoring System for Pandemic Disease Controlling Infrastructures"
  const StudyTitle: string := "A Study on Potential Integration of Generative AI and IoT with a Real-world Example of Voice Assistance Application"
  const FogTitle: string := "Developing IoT Visualization and Control System for Fog Computing Infrastructure"
  const GroupAuthors: string := "Muhammed Fuhad C, Stenin George, Manu Elappila, Sachin Malayath Jose"
  const DripVenue: string := "Proceedings of the International Conference on Smart Technologies for Smart Nation (SmartTechCon 2024)"
  const TemperatureVenue: string := "2023 International Conference on Recent Trends in Electronics and Communication (ICRTEC)"
  const FogVenue: string := "ARAIMESF 2024 - Annual Research and Innovation Meet in Engineering and Science Festival"
  const FogPublisher: string := "National Institute of Technology, Rourkela"

  /** The page's starting list; `now` is the time every record is stamped with. */
  function InitialPublications(now: int): (r: seq<Publication>)
    ensures |r| == 4
  {
    [Publication(DripTitle, GroupAuthors, Str(DripVenue), Str("Springer Nature Singapore"), Str("2024"),
                 Str("Conference Paper"), Str("10.1007/978-981-97-1841-2_14"), Str("189-201"),
                 Str(DripKey), Str("Published"), 2, Millis(now),
                 Riders(Str("978-981-97-1841-2"), "High", "#10b981")),
     Publication(TemperatureTitle, GroupAuthors, Str(TemperatureVenue), Str("IEEE"), Str("2023"),
                 Str("Conference Paper"), Str("10.1109/ICRTEC56977.2023.10111891"), Str("1-6"),
                 Str(TemperatureKey), Str("Published"), 2, Millis(now),
                 Riders(Str("978-1-6654-1234-5"), "High", "#3b82f6")),
     Publication(StudyTitle, "Muhammed Fuhad C", Str("Under Review"), Str("TBD"), Str("2024"),
                 Str("Research Paper"), Null, Null, Null, Str("Submitted"), 0, Millis(now),
                 Riders(Null, "High", "#8b5cf6")),
     Publication(FogTitle, "Muhammed Fuhad C", Str(FogVenue), Str(FogPublisher), Str("2024"),
                 Str("Abstract"), Null, Null, Null, Str("Presented"), 0, Millis(now),
                 Riders(Null, "Medium", "#f59e0b"))]
  }

  // ------------------------------------------------------------ statistics

  /** `publications.reduce((sum, pub) => sum + pub.citations, 0)`, left to right. */
  function TotalCitations(pubs: seq<Publication>): int
  {
    if pubs == [] then 0 else TotalCitations(pubs[..|pubs| - 1]) + pubs[|pubs| - 1].citations
  }

  /** The total of two lists laid end to end is the sum of their totals. */
  lemma {:induction false} TotalCitationsAppend(a: seq<Publication>, b: seq<Publication>)
    ensures TotalCitations(a + b) == TotalCitations(a) + TotalCitations(b)
    decreases |b|
  {
    if b == [] {
      assert a + b == a;
    } else {
      var n := |b| - 1;
      assert (a + b)[..|a + b| - 1] == a + b[..n];
      assert (a + b)[|a + b| - 1] == b[n];
      TotalCitationsAppend(a, b[..n]);
    }
  }

  /** With no negative counts the total is at least every single count. */
  lemma {:induction false} TotalCitationsBounds(pubs: seq<Publication>, i: int)
    requires forall k :: 0 <= k < |pubs| ==> pubs[k].citations >= 0
    requires 0 <= i < |pubs|
    ensures TotalCitations(pubs) >= pubs[i].citations >= 0
    decreases |pubs|
  {
    var n := |pubs| - 1;
    var front := pubs[..n];
    assert forall k :: 0 <= k < n ==> front[k] == pubs[k];
    NonNegativeTotal(front);
    if i < n {
      TotalCitationsBounds(front, i);
    }
  }

  lemma {:induction false} NonNegativeTotal(pubs: seq<Publication>)
    requires forall k :: 0 <= k < |pubs| ==> pubs[k].citations >= 0
    ensures TotalCitations(pubs) >= 0
    decreases |pubs|
  {
    if pubs != [] {
      var n := |pubs| - 1;
      assert forall k :: 0 <= k < n ==> pubs[..n][k] == pubs[k];
      NonNegativeTotal(pubs[..n]);
    }
  }

  predicate IsPublished(p: Publication) { p.status == Str("Published") }
  predicate IsAbstract(p: Publication) { p.pubType == Str("Abstract") }

  /** `publishedPapers`. */
  function PublishedPapers(pubs: seq<Publication>): nat
  {
    |Filter(pubs, IsPublished)|
  }

  /** `abstracts`. */
  function Abstracts(pubs: seq<Publication>): nat
  {
    |Filter(pubs, IsAbstract)|
  }

  /** The published papers and the rest make up the list; likewise the abstracts and the rest. */
  lemma CountsPartitionList(pubs: seq<Publication>)
    ensures PublishedPapers(pubs) + |Filter(pubs, (p: Publication) => !IsPublished(p))| == |pubs|
    ensures Abstracts(pubs) + |Filter(pubs, (p: Publication) => !IsAbstract(p))| == |pubs|
    ensures PublishedPapers(pubs) <= |pubs| && Abstracts(pubs) <= |pubs|
  {
    FilterPartition(pubs, IsPublished, (p: Publication) => !IsPublished(p));
    assert |multiset(Filter(pubs, IsPublished))| + |multiset(Filter(pubs, (p: Publication) => !IsPublished(p)))| == |multiset(pubs)|;
    FilterPartition(pubs, IsAbstract, (p: Publication) => !IsAbstract(p));
    assert |multiset(Filter(pubs, IsAbstract))| + |multiset(Filter(pubs, (p: Publication) => !IsAbstract(p)))| == |multiset(pubs)|;
  }

  /** One entry of `researchStats`: its label and the value shown. */
  datatype Stat = Stat(caption: string, value: string)

  /** `researchStats`: the four figures, as text. */
  function ResearchStats(pubs: seq<Publication>): (r: seq<Stat>)
    ensures |r| == 4
    ensures r[0] == Stat("Total Publications", NatToString(|pubs|))
    ensures r[1] == Stat("Published Papers", NatToString(PublishedPapers(pubs)))
    ensures r[2] == Stat("Abstracts Presented", NatToString(Abstracts(pubs)))
    ensures r[3] == Stat("Total Citations", IntToString(TotalCitations(pubs)))
  {
    [Stat("Total Publications", NatToString(|pubs|)),
     Stat("Published Papers", NatToString(PublishedPapers(pubs))),
     Stat("Abstracts Presented", NatToString(Abstracts(pubs))),
     Stat("Total Citations", IntToString(TotalCitations(pubs)))]
  }

  /** On the starting list: four publications, two published papers, one abstract, four citations. */
  lemma InitialStatistics(now: int)
    ensures var pubs := InitialPublications(now);
            TotalCitations(pubs) == 4 && PublishedPapers(pubs) == 2 && Abstracts(pubs) == 1
  {
    var pubs := InitialPublications(now);
    assert pubs[..3][..2][..1][..0] == [];
    FilterSnoc(pubs[..3], pubs[3], IsPublished);
    FilterSnoc(pubs[..3][..2], pubs[2], IsPublished);
    FilterSnoc(pubs[..3][..2][..1], pubs[1], IsPublished);
    FilterSnoc(pubs[..3][..2][..1][..0], pubs[0], IsPublished);
    FilterSnoc(pubs[..3], pubs[3], IsAbstract);
    FilterSnoc(pubs[..3][..2], pubs[2], IsAbstract);
    FilterSnoc(pubs[..3][..2][..1], pubs[1], IsAbstract);
    FilterSnoc(pubs[..3][..2][..1][..0], pubs[0], IsAbstract);
    assert pubs == pubs[..3] + [pubs[3]];
    assert pubs[..3] == pubs[..3][..2] + [pubs[2]];
    assert pubs[..3][..2] == pubs[..3][..2][..1] + [pubs[1]];
    assert pubs[..3][..2][..1] == pubs[..3][..2][..1][..0] + [pubs[0]];
    assert TotalCitations(pubs[..3][..2][..1]) == 2;
    assert TotalCitations(pubs[..3][..2]) == 4;
    assert TotalCitations(pubs[..3]) == 4;
  }

  // ------------------------------------------------------------ the page

  class Page {
    var publications: seq<Publication>
    /** `lastUpdated`: `None` until a refresh succeeds. */
    var lastUpdated: Option<int>

    constructor(now: int)
      ensures publications == InitialPublications(now) && lastUpdated == None
    {
      publications := InitialPublications(now);
      lastUpdated := None;
    }

    /**
     * `updateCitations`: `outcome` is what `updateAllCitations` settled
     * with, `None` when it rejected. A result replaces the list and stamps
     * the page; a rejection leaves both as they were.
     */
    method UpdateCitations(outcome: Option<seq<Publication>>, now: int)
      modifies this
      ensures outcome.Some? ==> publications == outcome.value && lastUpdated == Some(now)
      ensures outcome.None? ==> publications == old(publications) && lastUpdated == old(lastUpdated)
    {
      if outcome.Some? {
        publications := outcome.value;
        lastUpdated := Some(now);
      }
    }

  }

  /** A refresh changes only counts and stamps, so the paper and abstract figures stay. */
  lemma RefreshKeepsKinds(pubs: seq<Publication>, replies: seq<Replies>, times: seq<int>, updated: seq<Publication>)
    requires |replies| == |pubs| && |times| == |pubs| && |updated| == |pubs|
    requires forall i :: 0 <= i < |pubs| ==> updated[i] == UpdateKeepingOnFailure(pubs[i], replies[i], times[i])
    ensures PublishedPapers(updated) == PublishedPapers(pubs)
    ensures Abstracts(updated) == Abstracts(pubs)
  {
    SameKindsSameCounts(pubs, updated);
  }

  lemma {:induction false} SameKindsSameCounts(a: seq<Publication>, b: seq<Publication>)
    requires |a| == |b|
    requires forall i :: 0 <= i < |a| ==> b[i].status == a[i].status && b[i].pubType == a[i].pubType
    ensures PublishedPapers(a) == PublishedPapers(b) && Abstracts(a) == Abstracts(b)
    decreases |a|
  {
    if a != [] {
      var n := |a| - 1;
      assert forall i :: 0 <= i < n ==> a[..n][i] == a[i] && b[..n][i] == b[i];
      SameKindsSameCounts(a[..n], b[..n]);
      assert a == a[..n] + [a[n]] && b == b[..n] + [b[n]];
      FilterSnoc(a[..n], a[n], IsPublished);
      FilterSnoc(b[..n], b[n], IsPublished);
      FilterSnoc(a[..n], a[n], IsAbstract);
      FilterSnoc(b[..n], b[n], IsAbstract);
    }
  }
}
