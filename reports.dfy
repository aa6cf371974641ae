/** `PlayerReportService`: the helpers that turn a player's attribute ratings
    and stored highlights into a playing style, strengths, weaknesses,
    recommendations, key moments and statistics. */
module Reports {
  import opened Wrappers
  import opened Strings
  import opened Numbers
  import opened Sorting
  import opened Tallies
  import opened Rows

  /** `player.stats`: attribute ratings in the JSON object's key order. */
  type Stats = seq<(string, int)>

  /** The rating of the first entry at or after `from` named `name`, or 0. */
  function StatFrom(stats: Stats, name: string, from: nat): int
    requires from <= |stats|
    decreases |stats| - from
  {
    if from == |stats| then 0 else if stats[from].0 == name then stats[from].1 else StatFrom(stats, name, from + 1)
  }

  /** `stats.get(name, 0)` */
  function StatOf(stats: Stats, name: string): int {
    StatFrom(stats, name, 0)
  }

  lemma {:induction false} StatFromLookup(stats: Stats, name: string, from: nat, i: nat)
    requires from <= i <= |stats|
    requires forall j :: from <= j < i ==> stats[j].0 != name
    requires i < |stats| ==> stats[i].0 == name
    ensures StatFrom(stats, name, from) == if i < |stats| then stats[i].1 else 0
    decreases i - from
  {
    if from < i {
      StatFromLookup(stats, name, from + 1, i);
    }
  }

  /** The lookup yields the rating of the first entry with the name, and 0
      when no entry has it. */
  lemma StatOfLookup(stats: Stats, name: string, i: nat)
    requires i <= |stats|
    requires forall j :: 0 <= j < i ==> stats[j].0 != name
    requires i < |stats| ==> stats[i].0 == name
    ensures StatOf(stats, name) == if i < |stats| then stats[i].1 else 0
  {
    StatFromLookup(stats, name, 0, i);
  }

  // ---- playing style ----

  datatype PlayingStyle = DynamicAttacker | CreativePlaymaker | ClinicalFinisher | DefensivelySolid | WellRounded {
    function Text(): string {
      match this
      case DynamicAttacker => "Dynamic, pace-oriented attacker with excellent dribbling skills"
      case CreativePlaymaker => "Creative playmaker with vision and passing range"
      case ClinicalFinisher => "Clinical finisher with strong goal-scoring instinct"
      case DefensivelySolid => "Defensively solid with good positioning and tackling"
      case WellRounded => "Well-rounded player with balanced attributes"
    }

    /** The position of the style's rule in the chain. */
    function Rule(): nat {
      match this
      case DynamicAttacker => 0
      case CreativePlaymaker => 1
      case ClinicalFinisher => 2
      case DefensivelySolid => 3
      case WellRounded => 4
    }
  }

  /** `_determine_playing_style` */
  function DeterminePlayingStyle(stats: Stats): PlayingStyle {
    if StatOf(stats, "dribbling") > 85 && StatOf(stats, "speed") > 85 then DynamicAttacker
    else if StatOf(stats, "passing") > 85 then CreativePlaymaker
    else if StatOf(stats, "finishing") > 90 then ClinicalFinisher
    else if StatOf(stats, "defense") > 80 then DefensivelySolid
    else WellRounded
  }

  /** `better` rates every attribute the style rules read at least as high as `stats`. */
  predicate RatesAtLeast(better: Stats, stats: Stats) {
    && StatOf(better, "dribbling") >= StatOf(stats, "dribbling")
    && StatOf(better, "speed") >= StatOf(stats, "speed")
    && StatOf(better, "passing") >= StatOf(stats, "passing")
    && StatOf(better, "finishing") >= StatOf(stats, "finishing")
    && StatOf(better, "defense") >= StatOf(stats, "defense")
  }

  /** Every rule is a threshold to exceed, so higher ratings can only move the
      style to an earlier rule of the chain, never to a later one. */
  lemma PlayingStyleMonotone(better: Stats, stats: Stats)
    requires RatesAtLeast(better, stats)
    ensures DeterminePlayingStyle(better).Rule() <= DeterminePlayingStyle(stats).Rule()
  {
  }

  /** The first rule that applies decides; a player whose five ratings are
      all at most 80 is well-rounded. */
  lemma PlayingStyleRules(stats: Stats)
    ensures DeterminePlayingStyle(stats) == CreativePlaymaker ==>
      StatOf(stats, "passing") > 85 && !(StatOf(stats, "dribbling") > 85 && StatOf(stats, "speed") > 85)
    ensures DeterminePlayingStyle(stats) == ClinicalFinisher ==>
      StatOf(stats, "finishing") > 90 && StatOf(stats, "passing") <= 85
    ensures DeterminePlayingStyle(stats) == DefensivelySolid ==>
      StatOf(stats, "defense") > 80 && StatOf(stats, "finishing") <= 90 && StatOf(stats, "passing") <= 85
    ensures (StatOf(stats, "dribbling") <= 80 && StatOf(stats, "speed") <= 80 && StatOf(stats, "passing") <= 80
             && StatOf(stats, "finishing") <= 80 && StatOf(stats, "defense") <= 80) ==> DeterminePlayingStyle(stats) == WellRounded
  {
  }

  // ---- strengths and weaknesses ----

  datatype Side = StrengthSide | WeaknessSide {
    /** The highlight `type` the side draws its tags from. */
    function Kind(): string {
      if this == StrengthSide then "strength" else "weakness"
    }

    /** A rating of at least 85 is a strength; one below 60 a weakness. */
    predicate Qualifies(value: int) {
      if this == StrengthSide then value >= 85 else value < 60
    }
  }

  /** One entry of the strengths or weaknesses list: from an attribute rating
      or from a highlight tag with its number of occurrences. */
  datatype Finding = FromStat(name: string, rating: int) | FromTag(tag: string, count: nat) {
    function Attribute(): string {
      match this
      case FromStat(name, _) => Capitalize(name)
      case FromTag(tag, _) => tag
    }

    /** The entry's `evidence` (strengths) or `recommendation` (weaknesses). */
    function Note(side: Side): string {
      match this
      case FromStat(name, _) =>
        if side == StrengthSide then "Consistently demonstrates high-level " + name + " ability"
        else "Focus on improving " + name + " through targeted training"
      case FromTag(tag, count) =>
        if side == StrengthSide then "Demonstrated in " + NatToString(count) + " analyzed video clips"
        else "Address " + Lower(tag) + " issues identified in match analysis"
    }
  }

  /** The rating entries, in key order. */
  function StatFindings(stats: Stats, side: Side): seq<Finding> {
    if stats == [] then []
    else
      var (name, value) := stats[|stats| - 1];
      StatFindings(stats[..|stats| - 1], side) + (if side.Qualifies(value) then [FromStat(name, value)] else [])
  }

  lemma StatFindingsStep(stats: Stats, side: Side, i: nat)
    requires i < |stats|
    ensures StatFindings(stats[..i + 1], side) == StatFindings(stats[..i], side) +
      (if side.Qualifies(stats[i].1) then [FromStat(stats[i].0, stats[i].1)] else [])
  {
    assert stats[..i + 1][..i] == stats[..i];
  }

  function ByCount(e: (string, nat)): real { e.1 as real }

  /** Tag entries, one per counter entry, in order. */
  function TagEntries(ranked: Counts): (r: seq<Finding>)
    ensures |r| == |ranked|
  {
    if ranked == [] then [] else TagEntries(ranked[..|ranked| - 1]) + [FromTag(ranked[|ranked| - 1].0, ranked[|ranked| - 1].1)]
  }

  lemma TagEntriesStep(ranked: Counts, i: nat)
    requires i < |ranked|
    ensures TagEntries(ranked[..i + 1]) == TagEntries(ranked[..i]) + [FromTag(ranked[i].0, ranked[i].1)]
  {
    assert ranked[..i + 1][..i] == ranked[..i];
  }

  lemma {:induction false} TagEntriesAt(ranked: Counts)
    ensures forall i :: 0 <= i < |ranked| ==> TagEntries(ranked)[i] == FromTag(ranked[i].0, ranked[i].1)
  {
    if ranked != [] {
      var n := |ranked| - 1;
      TagEntriesAt(ranked[..n]);
      forall i | 0 <= i < |ranked| ensures TagEntries(ranked)[i] == FromTag(ranked[i].0, ranked[i].1) {
        if i < n {
          assert ranked[..n][i] == ranked[i];
        }
      }
    }
  }

  /** The tag counts of `hs`, most frequent first, ties in order of first
      appearance (`sorted(..., key=lambda x: x[1], reverse=True)` is stable). */
  function TagRanking(hs: seq<Row>): Counts {
    SortDesc(TallyFrom([], AllTags(hs)), ByCount)
  }

  /** The ranking is in non-increasing count. */
  lemma TagRankingSorted(hs: seq<Row>)
    ensures var r := TagRanking(hs);
      forall i, j :: 0 <= i < j < |r| ==> r[i].1 >= r[j].1
  {
    var r := TagRanking(hs);
    SortDescCorrect(TallyFrom([], AllTags(hs)), ByCount);
    forall i, j | 0 <= i < j < |r| ensures r[i].1 >= r[j].1 {
      assert ByCount(r[i]) >= ByCount(r[j]);
    }
  }

  /** An entry of the ranking is a tag with its exact number of occurrences. */
  lemma TagRankingEntry(hs: seq<Row>, i: nat)
    requires i < |TagRanking(hs)|
    ensures var e := TagRanking(hs)[i];
      e.1 == multiset(AllTags(hs))[e.0] && e.1 >= 1
  {
    var counts := TallyFrom([], AllTags(hs));
    var e := TagRanking(hs)[i];
    SortDescCorrect(counts, ByCount);
    assert e in multiset(counts);
    var p :| 0 <= p < |counts| && counts[p] == e;
    TagCounts(hs);
    FindUnique(counts, e.0, p);
    assert HasKey(counts, e.0);
  }

  /** Every tag has an entry in the ranking, and its counts add up to the
      number of tags. */
  lemma TagRankingCovers(hs: seq<Row>)
    ensures forall t :: t in AllTags(hs) ==> HasKey(TagRanking(hs), t)
    ensures Total(TagRanking(hs)) == |AllTags(hs)|
  {
    var counts := TallyFrom([], AllTags(hs));
    var r := TagRanking(hs);
    SortDescCorrect(counts, ByCount);
    SortDescSum(counts, ByCount, CountOf);
    TagCounts(hs);
    forall t | t in AllTags(hs) ensures HasKey(r, t) {
      assert HasKey(counts, t);
      var p :| 0 <= p < |counts| && counts[p].0 == t;
      assert counts[p] in multiset(r);
      var i :| 0 <= i < |r| && r[i] == counts[p];
    }
  }

  /** Each entry of the ranking is a tag with its exact number of
      occurrences, every tag has an entry, and the counts add up to the
      number of tags. */
  lemma TagRankingCounts(hs: seq<Row>)
    ensures var r := TagRanking(hs);
      && (forall i :: 0 <= i < |r| ==> r[i].1 == multiset(AllTags(hs))[r[i].0] && r[i].1 >= 1)
      && (forall t :: t in AllTags(hs) ==> HasKey(r, t))
      && Total(r) == |AllTags(hs)|
  {
    var r := TagRanking(hs);
    forall i | 0 <= i < |r| ensures r[i].1 == multiset(AllTags(hs))[r[i].0] && r[i].1 >= 1 {
      TagRankingEntry(hs, i);
    }
    TagRankingCovers(hs);
  }

  /** The tag counts of the side's highlights, most frequent first. */
  function RankedTags(hs: seq<Row>, side: Side): Counts {
    TagRanking(OfKind(hs, side.Kind()))
  }

  /** The three most frequent tags. */
  function TopTags(hs: seq<Row>, side: Side): Counts {
    var ranked := RankedTags(hs, side);
    ranked[..Min(3, |ranked|)]
  }

  /** Rating entries followed by tag entries, cut at five. */
  function Cut(sf: seq<Finding>, top: Counts): seq<Finding> {
    var all := sf + TagEntries(top);
    all[..Min(5, |all|)]
  }

  function Findings(stats: Stats, hs: seq<Row>, side: Side): seq<Finding> {
    Cut(StatFindings(stats, side), TopTags(hs, side))
  }

  /** `_identify_strengths` and `_identify_weaknesses`, which differ only in
      their side. */
  method Identify(stats: Stats, hs: seq<Row>, side: Side) returns (r: seq<Finding>)
    ensures r == Findings(stats, hs, side)
  {
    var found: seq<Finding> := [];
    for i := 0 to |stats|
      invariant found == StatFindings(stats[..i], side)
    {
      StatFindingsStep(stats, side, i);
      var (name, value) := stats[i];
      if side.Qualifies(value) {
        found := found + [FromStat(name, value)];
      }
    }
    assert stats[..|stats|] == stats;
    var sideHighlights := OfKind(hs, side.Kind());
    if sideHighlights != [] {
      var counts := CountTags(sideHighlights);
      var ranked := SortDesc(counts, ByCount);
      var top := ranked[..Min(3, |ranked|)];
      ghost var fromStats := found;
      for j := 0 to |top|
        invariant found == fromStats + TagEntries(top[..j])
      {
        TagEntriesStep(top, j);
        AppendAssoc(fromStats, TagEntries(top[..j]), [FromTag(top[j].0, top[j].1)]);
        found := found + [FromTag(top[j].0, top[j].1)];
      }
      assert top[..|top|] == top;
    } else {
      assert TopTags(hs, side) == [];
      assert found + TagEntries([]) == found;
    }
    r := found[..Min(5, |found|)];
  }

  method IdentifyStrengths(stats: Stats, hs: seq<Row>) returns (r: seq<Finding>)
    ensures r == Findings(stats, hs, StrengthSide)
  {
    r := Identify(stats, hs, StrengthSide);
  }

  method IdentifyWeaknesses(stats: Stats, hs: seq<Row>) returns (r: seq<Finding>)
    ensures r == Findings(stats, hs, WeaknessSide)
  {
    r := Identify(stats, hs, WeaknessSide);
  }

  lemma {:induction false} StatFindingsSound(stats: Stats, side: Side)
    ensures forall f :: f in StatFindings(stats, side) ==> f.FromStat? && (f.name, f.rating) in stats && side.Qualifies(f.rating)
  {
    if stats != [] {
      var n := |stats| - 1;
      var pre := StatFindings(stats[..n], side);
      StatFindingsSound(stats[..n], side);
      assert StatFindings(stats, side) == pre + (if side.Qualifies(stats[n].1) then [FromStat(stats[n].0, stats[n].1)] else []);
      forall f | f in StatFindings(stats, side)
        ensures f.FromStat? && (f.name, f.rating) in stats && side.Qualifies(f.rating)
      {
        if f in pre {
          assert (f.name, f.rating) in stats[..n];
        } else {
          assert f == FromStat(stats[n].0, stats[n].1);
          assert stats[n] in stats;
        }
      }
    }
  }

  /** Every rating entry is a `FromStat`. */
  lemma StatFindingsKind(stats: Stats, side: Side)
    ensures forall i :: 0 <= i < |StatFindings(stats, side)| ==> StatFindings(stats, side)[i].FromStat?
  {
    var sf := StatFindings(stats, side);
    StatFindingsSound(stats, side);
    forall i | 0 <= i < |sf| ensures sf[i].FromStat? {
      assert sf[i] in sf;
    }
  }

  /** Cutting rating entries followed by tag entries at five: the rating
      entries come first, in order, and the tag entries follow them. */
  lemma CutParts(sf: seq<Finding>, top: Counts)
    requires forall i :: 0 <= i < |sf| ==> sf[i].FromStat?
    ensures var r := Cut(sf, top);
      && |r| == Min(5, |sf| + |top|)
      && (forall i :: 0 <= i < |r| ==> (r[i].FromStat? <==> i < |sf|))
      && (forall i :: 0 <= i < |r| && i < |sf| ==> r[i] == sf[i])
      && (forall i :: 0 <= i < |r| && i >= |sf| ==> r[i] == FromTag(top[i - |sf|].0, top[i - |sf|].1))
  {
    var te := TagEntries(top);
    var all := sf + te;
    var r := Cut(sf, top);
    TagEntriesAt(top);
    forall i | 0 <= i < |r| && i >= |sf| ensures r[i] == FromTag(top[i - |sf|].0, top[i - |sf|].1) {
      assert r[i] == te[i - |sf|];
    }
  }

  /** At most five entries, the qualifying ratings first and in key order. */
  lemma FindingsOrder(stats: Stats, hs: seq<Row>, side: Side)
    ensures var r := Findings(stats, hs, side);
      && |r| <= 5
      && (forall i, j :: 0 <= i < j < |r| && r[j].FromStat? ==> r[i].FromStat?)
      && (forall i :: 0 <= i < |r| && r[i].FromStat? ==> (r[i].name, r[i].rating) in stats && side.Qualifies(r[i].rating))
      && (|StatFindings(stats, side)| >= 5 ==> forall i :: 0 <= i < |r| ==> r[i].FromStat?)
  {
    var sf := StatFindings(stats, side);
    var r := Findings(stats, hs, side);
    StatFindingsKind(stats, side);
    CutParts(sf, TopTags(hs, side));
    StatFindingsSound(stats, side);
    forall i | 0 <= i < |r| && r[i].FromStat? ensures (r[i].name, r[i].rating) in stats && side.Qualifies(r[i].rating) {
      assert sf[i] in sf;
    }
  }

  /** At most three tag entries, in non-increasing count, each carrying the
      tag's exact number of occurrences among the side's highlights. */
  lemma FindingsTags(stats: Stats, hs: seq<Row>, side: Side)
    ensures var r := Findings(stats, hs, side);
      var tags := AllTags(OfKind(hs, side.Kind()));
      && (forall i :: 0 <= i < |r| && r[i].FromTag? ==> r[i].count == multiset(tags)[r[i].tag] && r[i].count >= 1)
      && (forall i, j :: 0 <= i < j < |r| && r[i].FromTag? && r[j].FromTag? ==> r[i].count >= r[j].count)
  {
    var sf := StatFindings(stats, side);
    var ranked := RankedTags(hs, side);
    var top := TopTags(hs, side);
    var r := Findings(stats, hs, side);
    var tags := AllTags(OfKind(hs, side.Kind()));
    StatFindingsKind(stats, side);
    CutParts(sf, top);
    forall i | 0 <= i < |r| && r[i].FromTag? ensures r[i].count == multiset(tags)[r[i].tag] && r[i].count >= 1 {
      var k := i - |sf|;
      assert top[k] == ranked[k];
      TagRankingEntry(OfKind(hs, side.Kind()), k);
    }
    TagRankingSorted(OfKind(hs, side.Kind()));
    forall i, j | 0 <= i < j < |r| && r[i].FromTag? && r[j].FromTag? ensures r[i].count >= r[j].count {
      assert top[i - |sf|] == ranked[i - |sf|] && top[j - |sf|] == ranked[j - |sf|];
    }
  }

  // ---- recommendations ----

  datatype Recommendation = ImproveDefense | LeveragePassing | ReduceErrors | KeepDeveloping {
    function Text(): string {
      match this
      case ImproveDefense => "Improve defensive positioning and tracking back to support the team"
      case LeveragePassing => "Leverage exceptional passing ability to create more goal-scoring opportunities"
      case ReduceErrors => "Focus on consistency and reducing errors in high-pressure situations"
      case KeepDeveloping => "Continue developing technical skills through regular training and match experience"
    }

    function Order(): nat {
      match this
      case ImproveDefense => 0
      case LeveragePassing => 1
      case ReduceErrors => 2
      case KeepDeveloping => 3
    }
  }

  /** The recommendations chosen by the three tests, in the order tested,
      with the closing one always last. */
  function Listed(weakDefense: bool, strongPassing: bool, errorProne: bool): seq<Recommendation> {
    (if weakDefense then [ImproveDefense] else []) + (if strongPassing then [LeveragePassing] else [])
    + (if errorProne then [ReduceErrors] else []) + [KeepDeveloping]
  }

  /** Each test adds its recommendation exactly when it holds, the list
      ends with `KeepDeveloping` and keeps the order of the tests. */
  lemma ListedCorrect(weakDefense: bool, strongPassing: bool, errorProne: bool)
    ensures var r := Listed(weakDefense, strongPassing, errorProne);
      && (ImproveDefense in r <==> weakDefense)
      && (LeveragePassing in r <==> strongPassing)
      && (ReduceErrors in r <==> errorProne)
      && |r| >= 1 && r[|r| - 1] == KeepDeveloping
      && Ascending(r)
  {

  }

  /** `_generate_recommendations` */
  method GenerateRecommendations(stats: Stats, hs: seq<Row>) returns (r: seq<Recommendation>)
    ensures ImproveDefense in r <==> StatOf(stats, "defense") < 60
    ensures LeveragePassing in r <==> StatOf(stats, "passing") > 85
    ensures ReduceErrors in r <==> CountKind(hs, "weakness") as real > |hs| as real * 0.3
    ensures |r| >= 1 && r[|r| - 1] == KeepDeveloping
    ensures Ascending(r)
  {
    var weakDefense := StatOf(stats, "defense") < 60;
    var strongPassing := StatOf(stats, "passing") > 85;
    var weaknessCount := CountKind(hs, "weakness");
    var errorProne := weaknessCount as real > |hs| as real * 0.3;
    r := [];
    if weakDefense {
      r := r + [ImproveDefense];
    }
    if strongPassing {
      r := r + [LeveragePassing];
    }
    if errorProne {
      r := r + [ReduceErrors];
    }
    r := r + [KeepDeveloping];
    assert r == Listed(weakDefense, strongPassing, errorProne);
    ListedCorrect(weakDefense, strongPassing, errorProne);
  }

  /** Recommendations listed in the order the source considers them. */
  predicate Ascending(r: seq<Recommendation>) {
    forall i, j :: 0 <= i < j < |r| ==> r[i].Order() < r[j].Order()
  }


  // ---- key moments and statistics ----

  /** One entry of `_extract_key_moments`. */
  datatype ReportMoment = ReportMoment(highlightId: string, title: string, moment: string)

  /** The moments of one highlight, one entry each. */
  function RowMoments(h: Row): (r: seq<ReportMoment>)
    ensures |r| == (if h.insights.Some? then |h.insights.value.keyMoments| else 0)
  {
    if h.insights.None? then []
    else
      var ms := h.insights.value.keyMoments;
      seq(|ms|, i requires 0 <= i < |ms| => ReportMoment(h.id, h.title, ms[i]))
  }

  function MomentsOf(hs: seq<Row>): seq<ReportMoment> {
    if hs == [] then [] else MomentsOf(hs[..|hs| - 1]) + RowMoments(hs[|hs| - 1])
  }

  lemma MomentsOfStep(hs: seq<Row>, i: nat)
    requires i < |hs|
    ensures MomentsOf(hs[..i + 1]) == MomentsOf(hs[..i]) + RowMoments(hs[i])
  {
    assert hs[..i + 1][..i] == hs[..i];
  }

  /** `_extract_key_moments`: the key moments of the first ten highlights. */
  method ExtractKeyMoments(hs: seq<Row>) returns (r: seq<ReportMoment>)
    ensures r == MomentsOf(hs[..Min(10, |hs|)])
  {
    r := [];
    var first := if |hs| <= 10 then hs else hs[..10];
    for i := 0 to |first|
      invariant r == MomentsOf(first[..i])
    {
      MomentsOfStep(first, i);
      var h := first[i];
      if h.insights.Some? {
        var ms := h.insights.value.keyMoments;
        ghost var before := r;
        ghost var rm := RowMoments(h);
        assert before + rm[..0] == before;
        for j := 0 to |ms|
          invariant r == before + rm[..j]
        {
          SnocTake(before, rm, j);
          r := r + [ReportMoment(h.id, h.title, ms[j])];
        }
        assert rm[..|ms|] == rm;
      } else {
        assert RowMoments(h) == [];
        assert r + [] == r;
      }
    }
    assert first[..|first|] == first;
  }

  /** The number of key moments recorded on the highlights. */
  function MomentCount(hs: seq<Row>): nat {
    if hs == [] then 0
    else MomentCount(hs[..|hs| - 1]) + (if hs[|hs| - 1].insights.Some? then |hs[|hs| - 1].insights.value.keyMoments| else 0)
  }

  /** Every moment of the first ten highlights is listed once, under the
      highlight it belongs to. */
  lemma {:induction false} MomentsOfCorrect(hs: seq<Row>)
    ensures |MomentsOf(hs)| == MomentCount(hs)
    ensures forall m :: m in MomentsOf(hs) ==> exists h :: h in hs && h.id == m.highlightId && h.title == m.title
  {
    if hs != [] {
      var n := |hs| - 1;
      MomentsOfCorrect(hs[..n]);
      forall m | m in MomentsOf(hs) ensures exists h :: h in hs && h.id == m.highlightId && h.title == m.title {
        if m in MomentsOf(hs[..n]) {
          var h :| h in hs[..n] && h.id == m.highlightId && h.title == m.title;
          assert h in hs;
        } else {
          assert m in RowMoments(hs[n]);
          assert hs[n] in hs;
        }
      }
    }
  }

  /** `[h.ai_insights.get("confidence", 0) for h in hs if h.ai_insights]` */
  function Confidences(hs: seq<Row>): seq<int> {
    if hs == [] then []
    else Confidences(hs[..|hs| - 1]) + (if hs[|hs| - 1].insights.Some? then [hs[|hs| - 1].insights.value.confidence] else [])
  }

  function SumInts(xs: seq<int>): int {
    if xs == [] then 0 else SumInts(xs[..|xs| - 1]) + xs[|xs| - 1]
  }

  /** `_calculate_avg_confidence` */
  function AverageConfidence(hs: seq<Row>): real {
    var cs := Confidences(hs);
    if hs == [] || cs == [] then 0.0 else SumInts(cs) as real / |cs| as real
  }

  predicate ConfidencesWithin(hs: seq<Row>, lo: int, hi: int) {
    forall h :: h in hs && h.insights.Some? ==> lo <= h.insights.value.confidence <= hi
  }

  lemma BoundsStep(lo: int, hi: int, m: nat, s: int, c: int)
    requires lo * m <= s <= hi * m && lo <= c <= hi
    ensures lo * (m + 1) <= s + c <= hi * (m + 1)
  {
    assert lo * (m + 1) == lo * m + lo;
    assert hi * (m + 1) == hi * m + hi;
  }

  /** A sum of integers within bounds lies within the bounds times the count. */
  lemma {:induction false} SumIntsBounds(xs: seq<int>, lo: int, hi: int)
    requires forall i :: 0 <= i < |xs| ==> lo <= xs[i] <= hi
    ensures lo * |xs| <= SumInts(xs) <= hi * |xs|
  {
    if xs != [] {
      var n := |xs| - 1;
      SumIntsBounds(xs[..n], lo, hi);
      BoundsStep(lo, hi, n, SumInts(xs[..n]), xs[n]);
    }
  }

  /** Every collected confidence is within the bounds the highlights respect. */
  lemma {:induction false} ConfidencesAt(hs: seq<Row>, lo: int, hi: int)
    requires ConfidencesWithin(hs, lo, hi)
    ensures forall i :: 0 <= i < |Confidences(hs)| ==> lo <= Confidences(hs)[i] <= hi
  {
    if hs != [] {
      var n := |hs| - 1;
      forall h | h in hs[..n] && h.insights.Some? ensures lo <= h.insights.value.confidence <= hi {
        assert h in hs;
      }
      ConfidencesAt(hs[..n], lo, hi);
      assert hs[n] in hs;
    }
  }

  lemma ConfidencesBounds(hs: seq<Row>, lo: int, hi: int)
    requires ConfidencesWithin(hs, lo, hi)
    ensures lo * |Confidences(hs)| <= SumInts(Confidences(hs)) <= hi * |Confidences(hs)|
  {
    ConfidencesAt(hs, lo, hi);
    SumIntsBounds(Confidences(hs), lo, hi);
  }

  /** An integer ratio lies between the bounds its numerator respects per unit. */
  lemma DivWithin(s: int, n: int, lo: int, hi: int)
    requires n > 0 && lo * n <= s <= hi * n
    ensures lo as real <= s as real / n as real <= hi as real
  {
    var q := s as real / n as real;
    assert q * n as real == s as real;
    assert (lo * n) as real == lo as real * n as real;
    assert (hi * n) as real == hi as real * n as real;
    assert (q - lo as real) * n as real >= 0.0;
    assert (hi as real - q) * n as real >= 0.0;
  }

  /** The average lies within any bounds all stored confidences respect, and
      is 0 when no highlight has insights. */
  lemma AverageConfidenceBounds(hs: seq<Row>, lo: int, hi: int)
    requires ConfidencesWithin(hs, lo, hi) && lo <= 0 <= hi
    ensures lo as real <= AverageConfidence(hs) <= hi as real
  {
    var cs := Confidences(hs);
    ConfidencesBounds(hs, lo, hi);
    if hs != [] && cs != [] {
      DivWithin(SumInts(cs), |cs|, lo, hi);
    }
  }

  /** The `video_analysis` part of `_compile_statistics`. */
  datatype VideoStatistics = VideoStatistics(totalHighlights: nat, strengthsIdentified: nat,
                                             weaknessesIdentified: nat, averageConfidence: real)

  function CompileVideoStatistics(hs: seq<Row>): (r: VideoStatistics) {
    VideoStatistics(|hs|, CountKind(hs, "strength"), CountKind(hs, "weakness"), AverageConfidence(hs))
  }

  lemma {:induction false} KindCountsBound(hs: seq<Row>)
    ensures CountKind(hs, "strength") + CountKind(hs, "weakness") <= |hs|
  {
    if hs != [] {
      KindCountsBound(hs[1..]);
    }
  }

  /** A highlight is counted as a strength or a weakness at most once. */
  lemma VideoStatisticsCounts(hs: seq<Row>)
    ensures var s := CompileVideoStatistics(hs);
      s.strengthsIdentified + s.weaknessesIdentified <= s.totalHighlights
  {
    KindCountsBound(hs);
  }
}
