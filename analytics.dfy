/** `AnalyticsService`: the per-type and per-tag counters, the trend over
    time and the summary of stored AI insights of a player's highlights. */
module Analytics {
  import opened Wrappers
  import opened Sorting
  import opened Tallies
  import opened Rows
  import opened Reports

  /** `{"strength": 0, "weakness": 0, "neutral": 0}` */
  const TypeInit: Counts := [("strength", 0), ("weakness", 0), ("neutral", 0)]

  /** The `type` of each highlight, in order. */
  function Kinds(hs: seq<Row>): (r: seq<string>)
    ensures |r| == |hs|
  {
    seq(|hs|, i requires 0 <= i < |hs| => hs[i].kind)
  }

  lemma KindsStep(hs: seq<Row>, i: nat)
    requires i < |hs|
    ensures Kinds(hs[..i + 1]) == Kinds(hs[..i]) + [hs[i].kind]
  {
  }

  /** `_count_by_type` */
  method CountByType(hs: seq<Row>) returns (counts: Counts)
    ensures counts == TallyFrom(TypeInit, Kinds(hs))
  {
    counts := TypeInit;
    for i := 0 to |hs|
      invariant counts == TallyFrom(TypeInit, Kinds(hs[..i]))
    {
      KindsStep(hs, i);
      TallyStep(TypeInit, Kinds(hs[..i]), hs[i].kind);
      counts := Bump(counts, hs[i].kind);
    }
    assert hs[..|hs|] == hs;
  }

  lemma {:induction false} KindsMultiset(hs: seq<Row>, k: string)
    ensures multiset(Kinds(hs))[k] == CountKind(hs, k)
  {
    if hs != [] {
      KindsMultiset(hs[1..], k);
      assert Kinds(hs) == [hs[0].kind] + Kinds(hs[1..]);
    }
  }

  /** The counter starts with the three fixed types, in that order, counts
      every highlight under its own type exactly once, and its values add up
      to the number of highlights. */
  lemma TypeCounts(hs: seq<Row>)
    ensures var r := TallyFrom(TypeInit, Kinds(hs));
      && |r| >= 3 && r[0].0 == "strength" && r[1].0 == "weakness" && r[2].0 == "neutral"
      && DistinctKeys(r)
      && (forall k :: Get(r, k) == CountKind(hs, k))
      && (forall k :: HasKey(r, k) <==> k == "strength" || k == "weakness" || k == "neutral" || CountKind(hs, k) > 0)
      && Total(r) == |hs|
  {
    var ks := Kinds(hs);
    assert Total(TypeInit) == 0;
    forall k ensures Get(TypeInit, k) == 0 {
      FindMissing(TypeInit, k);
    }
    forall k ensures HasKey(TypeInit, k) <==> k == "strength" || k == "weakness" || k == "neutral" {
      if k == "weakness" {
        assert TypeInit[1].0 == k;
      } else if k == "neutral" {
        assert TypeInit[2].0 == k;
      }
    }
    TallyCorrect(TypeInit, ks);
    forall k ensures CountKind(hs, k) > 0 <==> k in ks {
      KindsMultiset(hs, k);
    }
    forall k ensures Get(TallyFrom(TypeInit, ks), k) == CountKind(hs, k) {
      KindsMultiset(hs, k);
    }
  }

  /** `_count_by_tag` */
  method CountByTag(hs: seq<Row>) returns (r: Counts)
    ensures r == TagRanking(hs)
  {
    var counts := CountTags(hs);
    r := SortDesc(counts, ByCount);
  }

  datatype Trend = Improving | Declining | Stable {
    function Text(): string {
      match this
      case Improving => "improving"
      case Declining => "declining"
      case Stable => "stable"
    }
  }

  /** What `_analyze_trends` returns. */
  datatype TrendReport = InsufficientData
                       | Trends(trend: Trend, earlyStrengths: nat, recentStrengths: nat, totalClips: nat)

  /** Sorting ascending by date is sorting descending by the negated date. */
  function DateKey(h: Row): real { -(h.date as real) }

  /** `sorted(highlights, key=lambda h: h.date)` */
  function ByDate(hs: seq<Row>): (r: seq<Row>)
    ensures |r| == |hs|
  {
    SortDesc(hs, DateKey)
  }

  /** `_analyze_trends` */
  function AnalyzeTrends(hs: seq<Row>): TrendReport {
    if hs == [] then InsufficientData
    else
      var sorted := ByDate(hs);
      var mid := |sorted| / 2;
      var early := CountKind(sorted[..mid], "strength");
      var recent := CountKind(sorted[mid..], "strength");
      var trend := if recent > early then Improving else if recent < early then Declining else Stable;
      Trends(trend, early, recent, |hs|)
  }

  /** The date order is non-decreasing, a permutation, and keeps highlights
      of equal date in their original order. */
  lemma ByDateCorrect(hs: seq<Row>)
    ensures forall i, j :: 0 <= i < j < |ByDate(hs)| ==> ByDate(hs)[i].date <= ByDate(hs)[j].date
    ensures multiset(ByDate(hs)) == multiset(hs)
    ensures forall c :: WithKey(ByDate(hs), DateKey, c) == WithKey(hs, DateKey, c)
  {
    var r := ByDate(hs);
    SortDescCorrect(hs, DateKey);
    forall i, j | 0 <= i < j < |r| ensures r[i].date <= r[j].date {
      assert DateKey(r[i]) >= DateKey(r[j]);
    }
  }

  lemma {:induction false} CountKindBound(hs: seq<Row>, k: string)
    ensures CountKind(hs, k) <= |hs|
  {
    if hs != [] {
      CountKindBound(hs[1..], k);
    }
  }

  /** No highlights give "insufficient_data"; otherwise the two halves'
      strength counts add up to all strengths, each is bounded by its half,
      and the trend compares the recent half against the early one. */
  lemma TrendsCorrect(hs: seq<Row>)
    ensures AnalyzeTrends(hs).InsufficientData? <==> hs == []
    ensures hs != [] ==> var t := AnalyzeTrends(hs);
      && t.earlyStrengths + t.recentStrengths == CountKind(hs, "strength")
      && t.totalClips == |hs|
      && t.earlyStrengths <= |hs| / 2 && t.recentStrengths <= |hs| - |hs| / 2
      && (t.trend == Improving <==> t.recentStrengths > t.earlyStrengths)
      && (t.trend == Declining <==> t.recentStrengths < t.earlyStrengths)
      && (t.trend == Stable <==> t.recentStrengths == t.earlyStrengths)
  {
    if hs != [] {
      var sorted := ByDate(hs);
      var mid := |sorted| / 2;
      assert sorted[..mid] + sorted[mid..] == sorted;
      SumOfAppend(sorted[..mid], sorted[mid..], KindIndicator("strength"));
      SortDescSum(hs, DateKey, KindIndicator("strength"));
      CountKindBound(sorted[..mid], "strength");
      CountKindBound(sorted[mid..], "strength");
    }
  }

  /** What `_summarize_ai_insights` returns for a non-empty list. */
  datatype InsightSummary = InsightSummary(averageConfidence: real, totalKeyMoments: nat, insightsAvailable: nat)

  lemma ConfidencesStep(hs: seq<Row>, i: nat)
    requires i < |hs|
    ensures Confidences(hs[..i + 1]) ==
      Confidences(hs[..i]) + (if hs[i].insights.Some? then [hs[i].insights.value.confidence] else [])
    ensures MomentCount(hs[..i + 1]) ==
      MomentCount(hs[..i]) + (if hs[i].insights.Some? then |hs[i].insights.value.keyMoments| else 0)
  {
    assert hs[..i + 1][..i] == hs[..i];
  }

  /** `_summarize_ai_insights`: None for no highlights (the empty dict). */
  method SummarizeAiInsights(hs: seq<Row>) returns (r: Option<InsightSummary>)
    ensures hs == [] <==> r.None?
    ensures hs != [] ==> r == Some(InsightSummary(AverageConfidence(hs), MomentCount(hs), |Confidences(hs)|))
  {
    if hs == [] {
      return None;
    }
    var confidences: seq<int> := [];
    var keyMoments: seq<string> := [];
    for i := 0 to |hs|
      invariant confidences == Confidences(hs[..i])
      invariant |keyMoments| == MomentCount(hs[..i])
    {
      ConfidencesStep(hs, i);
      var h := hs[i];
      if h.insights.Some? {
        confidences := confidences + [h.insights.value.confidence];
        keyMoments := keyMoments + h.insights.value.keyMoments;
      }
    }
    assert hs[..|hs|] == hs;
    var average := if confidences != [] then SumInts(confidences) as real / |confidences| as real else 0.0;
    r := Some(InsightSummary(average, |keyMoments|, |confidences|));
  }

  lemma {:induction false} ConfidencesLength(hs: seq<Row>)
    ensures |Confidences(hs)| <= |hs|
  {
    if hs != [] {
      ConfidencesLength(hs[..|hs| - 1]);
    }
  }

  /** With stored confidences in [0, 100], the summary's average is in
      [0, 100] and at most every highlight has insights. */
  lemma InsightSummaryBounds(hs: seq<Row>)
    requires ConfidencesWithin(hs, 0, 100)
    ensures 0.0 <= AverageConfidence(hs) <= 100.0
    ensures |Confidences(hs)| <= |hs|
  {
    AverageConfidenceBounds(hs, 0, 100);
    ConfidencesLength(hs);
  }
}
