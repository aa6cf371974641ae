/** `SemanticSearchService`: turning a natural-language query into search
    parameters, and the database fallback of `search_highlights`, which
    filters the stored highlights, scores each one and sorts by score. */
module Search {
  import opened Wrappers
  import opened Strings
  import opened Numbers
  import opened Sorting
  import opened Rows

  const GoalKeywords: seq<string> := ["goal", "scored", "finish", "shot on target"]
  const AssistKeywords: seq<string> := ["assist", "pass", "through ball", "cross"]
  const DribbleKeywords: seq<string> := ["dribble", "run", "beat defender", "skill move"]
  const DefenseKeywords: seq<string> := ["tackle", "interception", "clearance", "block"]
  const WeaknessKeywords: seq<string> := ["mistake", "error", "weakness", "poor", "lost possession"]
  const StrengthKeywords: seq<string> := ["excellent", "great", "strength", "good", "successful"]

  /** `self.event_keywords`, in its dictionary order. */
  const EventKeywords: seq<(string, seq<string>)> := [
    ("goal", GoalKeywords), ("assist", AssistKeywords), ("dribble", DribbleKeywords),
    ("defense", DefenseKeywords), ("weakness", WeaknessKeywords), ("strength", StrengthKeywords)]

  const StatsKeywords: seq<string> := ["how many", "count", "total", "average", "stats", "statistics"]

  /** `self.event_keywords.get(t, [t])` */
  function KeywordsFor(t: string): (r: seq<string>)
    ensures r != []
  {
    if t == "goal" then GoalKeywords
    else if t == "assist" then AssistKeywords
    else if t == "dribble" then DribbleKeywords
    else if t == "defense" then DefenseKeywords
    else if t == "weakness" then WeaknessKeywords
    else if t == "strength" then StrengthKeywords
    else [t]
  }

  predicate IsSentimentCategory(c: string) { c == "weakness" || c == "strength" }

  /** `any(keyword in text for keyword in keywords)` */
  predicate AnyIn(text: string, keywords: seq<string>) {
    exists k :: k in keywords && Contains(text, k)
  }

  /** `parse_query`'s result. `player_mentioned` and `time_context` are always
      None and are not kept; `numericContext` is None when the key is absent. */
  datatype Parsed = Parsed(original: string, eventTypes: seq<string>, sentiment: string,
                           statsQuery: bool, numericContext: Option<seq<nat>>)

  /** The event types collected by the first `n` rounds of the category loop
      over the lowercased query `q`. */
  function TypesUpTo(q: string, n: nat): seq<string>
    requires n <= |EventKeywords|
  {
    if n == 0 then []
    else
      var (c, ks) := EventKeywords[n - 1];
      TypesUpTo(q, n - 1) + (if !IsSentimentCategory(c) && AnyIn(q, ks) then [c] else [])
  }

  /** The sentiment after the first `n` rounds: the last sentiment category matched. */
  function SentimentUpTo(q: string, n: nat): string
    requires n <= |EventKeywords|
  {
    if n == 0 then "neutral"
    else
      var (c, ks) := EventKeywords[n - 1];
      if IsSentimentCategory(c) && AnyIn(q, ks) then c else SentimentUpTo(q, n - 1)
  }

  /** `[int(n) for n in re.findall(r'\d+', query)]`, present only when it is not empty. */
  function NumericContext(query: string): Option<seq<nat>> {
    var runs := DigitRuns(query);
    if runs == [] then None
    else Some(seq(|runs|, i requires 0 <= i < |runs| => ParseDigits(runs[i])))
  }

  /** The parse of `query`. */
  function QueryOf(query: string): Parsed {
    var q := Lower(query);
    Parsed(query, TypesUpTo(q, |EventKeywords|), SentimentUpTo(q, |EventKeywords|),
           AnyIn(q, StatsKeywords), NumericContext(query))
  }

  /** `parse_query` */
  method ParseQuery(query: string) returns (p: Parsed)
    ensures p == QueryOf(query)
  {
    var q := Lower(query);
    var types: seq<string> := [];
    var sentiment := "neutral";
    for i := 0 to |EventKeywords|
      invariant types == TypesUpTo(q, i)
      invariant sentiment == SentimentUpTo(q, i)
    {
      var (category, keywords) := EventKeywords[i];
      if AnyIn(q, keywords) {
        if IsSentimentCategory(category) {
          sentiment := category;
        } else {
          types := types + [category];
        }
      }
    }
    p := Parsed(query, types, sentiment, AnyIn(q, StatsKeywords), NumericContext(query));
  }

  function Pick(q: string, c: string): seq<string> {
    if AnyIn(q, KeywordsFor(c)) then [c] else []
  }

  /** The event types are goal, assist, dribble and defense, in that order,
      each present exactly when one of its keywords occurs in the lowercased query. */
  lemma EventTypesRule(query: string)
    ensures var q := Lower(query);
      QueryOf(query).eventTypes == Pick(q, "goal") + Pick(q, "assist") + Pick(q, "dribble") + Pick(q, "defense")
  {
    var q := Lower(query);
    assert TypesUpTo(q, 1) == Pick(q, "goal");
    assert TypesUpTo(q, 2) == TypesUpTo(q, 1) + Pick(q, "assist");
    assert TypesUpTo(q, 3) == TypesUpTo(q, 2) + Pick(q, "dribble");
    assert TypesUpTo(q, 4) == TypesUpTo(q, 3) + Pick(q, "defense");
    assert TypesUpTo(q, 6) == TypesUpTo(q, 4);
  }

  /** A strength keyword wins over a weakness keyword; with neither the
      sentiment is neutral. */
  lemma SentimentRule(query: string)
    ensures var q := Lower(query);
      QueryOf(query).sentiment ==
        if AnyIn(q, StrengthKeywords) then "strength"
        else if AnyIn(q, WeaknessKeywords) then "weakness"
        else "neutral"
  {
    var q := Lower(query);
    assert SentimentUpTo(q, 1) == "neutral";
    assert SentimentUpTo(q, 2) == "neutral";
    assert SentimentUpTo(q, 3) == "neutral";
    assert SentimentUpTo(q, 4) == "neutral";
    assert SentimentUpTo(q, 5) == if AnyIn(q, WeaknessKeywords) then "weakness" else "neutral";
  }

  /** The numeric context is present exactly when the query has a digit, and
      then holds one number per maximal run of digits. */
  lemma NumericContextRule(query: string)
    ensures QueryOf(query).numericContext.Some? <==> exists i :: 0 <= i < |query| && IsDigit(query[i])
    ensures QueryOf(query).numericContext.Some? ==> |QueryOf(query).numericContext.value| == |DigitRuns(query)|
  {
    RunsEmpty(query, IsDigit);
  }

  // ---- relevance score ----

  /** `[tag.lower() for tag in tags]` */
  function LowerAll(tags: seq<string>): (r: seq<string>)
    ensures |r| == |tags| && forall i :: 0 <= i < |tags| ==> r[i] == Lower(tags[i])
  {
    seq(|tags|, i requires 0 <= i < |tags| => Lower(tags[i]))
  }

  /** The number of `types` found among `tags`, counting repeats. */
  function Hits(types: seq<string>, tags: seq<string>): (r: nat)
    ensures r <= |types|
  {
    if types == [] then 0 else Hits(types[..|types| - 1], tags) + (if types[|types| - 1] in tags then 1 else 0)
  }

  lemma HitsStep(types: seq<string>, tags: seq<string>, i: nat)
    requires i < |types|
    ensures Hits(types[..i + 1], tags) == Hits(types[..i], tags) + (if types[i] in tags then 1 else 0)
  {
    assert types[..i + 1][..i] == types[..i];
  }

  /** Hits counts the positions of `types` whose entry is a tag. */
  lemma {:induction false} HitsPositions(types: seq<string>, tags: seq<string>)
    ensures Hits(types, tags) == |set i | 0 <= i < |types| && types[i] in tags|
  {
    if types != [] {
      var n := |types| - 1;
      var init := types[..n];
      HitsPositions(init, tags);
      var before := set i | 0 <= i < |init| && init[i] in tags;
      var after := set i | 0 <= i < |types| && types[i] in tags;
      if types[n] in tags {
        assert after == before + {n};
      } else {
        assert after == before;
      }
    }
  }

  function SentimentBonus(h: Row, p: Parsed): real {
    if p.sentiment != "neutral" && h.kind == p.sentiment then 0.3 else 0.0
  }

  function ConfidenceBonus(h: Row): real {
    if h.insights.Some? then (h.insights.value.confidence as real / 100.0) * 0.2 else 0.0
  }

  /** The score before the cap. */
  function RawScore(h: Row, p: Parsed): real {
    0.5 + 0.2 * Hits(p.eventTypes, LowerAll(TagsOf(h))) as real + SentimentBonus(h, p) + ConfidenceBonus(h)
  }

  function Relevance(h: Row, p: Parsed): real {
    MinReal(RawScore(h, p), 1.0)
  }

  /** `_calculate_relevance_score` */
  method RelevanceScore(h: Row, p: Parsed) returns (score: real)
    ensures score == Relevance(h, p)
  {
    score := 0.5;
    ghost var lowered := LowerAll(TagsOf(h));
    if p.eventTypes != [] {
      var tags := TagsOf(h);
      for i := 0 to |p.eventTypes|
        invariant score == 0.5 + 0.2 * Hits(p.eventTypes[..i], lowered) as real
      {
        HitsStep(p.eventTypes, lowered, i);
        if p.eventTypes[i] in LowerAll(tags) {
          score := score + 0.2;
        }
      }
      assert p.eventTypes[..|p.eventTypes|] == p.eventTypes;
    }
    if p.sentiment != "neutral" {
      if h.kind == p.sentiment {
        score := score + 0.3;
      }
    }
    if h.insights.Some? {
      var confidence := h.insights.value.confidence as real / 100.0;
      score := score + confidence * 0.2;
    }
    score := MinReal(score, 1.0);
  }

  /** The score is 0.5, plus 0.2 for each query event type among the lowercased
      tags, 0.3 for the query's sentiment, and a fifth of the confidence
      fraction, capped at 1.0; it never exceeds 1.0, and is at least 0.5 when
      the stored confidence is not negative. */
  lemma RelevanceBounds(h: Row, p: Parsed)
    ensures Relevance(h, p) == MinReal(0.5 + 0.2 * |set i | 0 <= i < |p.eventTypes| && p.eventTypes[i] in LowerAll(TagsOf(h))| as real
                                       + SentimentBonus(h, p) + ConfidenceBonus(h), 1.0)
    ensures Relevance(h, p) <= 1.0
    ensures (h.insights.None? || h.insights.value.confidence >= 0) ==> Relevance(h, p) >= 0.5
  {
    HitsPositions(p.eventTypes, LowerAll(TagsOf(h)));
  }

  // ---- matched terms ----

  /** `f"{highlight.title} {highlight.description}".lower()`: a missing
      description renders as "None". */
  function HighlightText(h: Row): string {
    Lower(h.title + " " + (if h.description.Some? then h.description.value else "None"))
  }

  predicate IsTerm(w: string, text: string) { |w| > 3 && Contains(text, w) }

  /** The words of `ws` that are terms of `text`, in order. */
  function Terms(ws: seq<string>, text: string): seq<string> {
    if ws == [] then [] else Terms(ws[..|ws| - 1], text) + (if IsTerm(ws[|ws| - 1], text) then [ws[|ws| - 1]] else [])
  }

  lemma TermsStep(ws: seq<string>, text: string, i: nat)
    requires i < |ws|
    ensures Terms(ws[..i + 1], text) == Terms(ws[..i], text) + (if IsTerm(ws[i], text) then [ws[i]] else [])
  {
    assert ws[..i + 1][..i] == ws[..i];
  }

  /** `_get_matched_terms` */
  method MatchedTerms(h: Row, query: string) returns (matched: seq<string>)
    ensures matched == Terms(Words(Lower(query)), HighlightText(h))
  {
    matched := [];
    var queryWords := Words(Lower(query));
    var text := HighlightText(h);
    for i := 0 to |queryWords|
      invariant matched == Terms(queryWords[..i], text)
    {
      TermsStep(queryWords, text, i);
      var word := queryWords[i];
      if |word| > 3 && Contains(text, word) {
        matched := matched + [word];
      }
    }
    assert queryWords[..|queryWords|] == queryWords;
  }

  /** Each word longer than three characters that occurs in the text is kept
      as often as the query repeats it, and nothing else is kept. */
  lemma {:induction false} TermsExact(ws: seq<string>, text: string)
    ensures forall w :: multiset(Terms(ws, text))[w] == if IsTerm(w, text) then multiset(ws)[w] else 0
  {
    if ws != [] {
      var n := |ws| - 1;
      TermsExact(ws[..n], text);
      assert ws == ws[..n] + [ws[n]];
    }
  }

  // ---- the database fallback ----

  /** The database query: the player's rows when a player id is given, and
      the rows of the query's sentiment when it has one. */
  predicate Selected(h: Row, playerId: Option<string>, p: Parsed) {
    && (playerId.None? || playerId.value == "" || h.playerId == playerId.value)
    && (p.sentiment == "neutral" || h.kind == p.sentiment)
  }

  function SelectRows(rows: seq<Row>, playerId: Option<string>, p: Parsed): (r: seq<Row>)
    ensures forall h :: h in r <==> h in rows && Selected(h, playerId, p)
  {
    if rows == [] then []
    else
      var h := rows[|rows| - 1];
      SelectRows(rows[..|rows| - 1], playerId, p) + (if Selected(h, playerId, p) then [h] else [])
  }

  /** `any(keyword in tag for tag in tags)` */
  predicate AnyHas(tags: seq<string>, keyword: string) {
    exists tag :: tag in tags && Contains(tag, keyword)
  }

  predicate TypeHasTag(tags: seq<string>, t: string) {
    exists k :: k in KeywordsFor(t) && AnyHas(tags, k)
  }

  /** Some keyword of some query event type occurs inside some tag. */
  predicate TagMatch(tags: seq<string>, types: seq<string>) {
    exists t :: t in types && TypeHasTag(tags, t)
  }

  /** The keyword loop of the tag test, left with `break` at the first
      keyword found inside a tag. */
  method AnyKeywordHit(tags: seq<string>, keywords: seq<string>) returns (hit: bool)
    ensures hit <==> exists k :: k in keywords && AnyHas(tags, k)
  {
    hit := false;
    var j := 0;
    while j < |keywords|
      invariant j <= |keywords|
      invariant !hit && forall b :: 0 <= b < j ==> !AnyHas(tags, keywords[b])
    {
      if AnyHas(tags, keywords[j]) {
        hit := true;
        break;
      }
      j := j + 1;
    }
  }

  /** The tag test of the fallback filter. */
  method TagMatches(tags: seq<string>, types: seq<string>) returns (found: bool)
    ensures found <==> TagMatch(tags, types)
  {
    found := false;
    for i := 0 to |types|
      invariant found <==> exists a :: 0 <= a < i && TypeHasTag(tags, types[a])
    {
      var hit := AnyKeywordHit(tags, KeywordsFor(types[i]));
      if hit {
        found := true;
      }
    }
  }

  /** `query_lower in title.lower() or query_lower in (description or "").lower()` */
  predicate TextMatch(h: Row, q: string) {
    Contains(Lower(h.title), q) || Contains(Lower(if h.description.Some? then h.description.value else ""), q)
  }

  /** The fallback filter's test for one row and the lowercased query `q`. */
  predicate Relevant(h: Row, q: string, p: Parsed) {
    || TextMatch(h, q)
    || (p.eventTypes != [] && TagsOf(h) != [] && TagMatch(LowerAll(TagsOf(h)), p.eventTypes))
    || p.eventTypes == []
  }

  function KeepRelevant(rows: seq<Row>, q: string, p: Parsed): (r: seq<Row>)
    ensures forall h :: h in r <==> h in rows && Relevant(h, q, p)
  {
    if rows == [] then []
    else
      var h := rows[|rows| - 1];
      KeepRelevant(rows[..|rows| - 1], q, p) + (if Relevant(h, q, p) then [h] else [])
  }

  lemma KeepRelevantStep(rows: seq<Row>, q: string, p: Parsed, i: nat)
    requires i < |rows|
    ensures KeepRelevant(rows[..i + 1], q, p) == KeepRelevant(rows[..i], q, p) + (if Relevant(rows[i], q, p) then [rows[i]] else [])
  {
    assert rows[..i + 1][..i] == rows[..i];
  }

  /** The rows the fallback scores: the selected rows, filtered when the query is not blank. */
  function Candidates(rows: seq<Row>, query: string, playerId: Option<string>): seq<Row> {
    var p := QueryOf(query);
    var selected := SelectRows(rows, playerId, p);
    if IsBlank(query) then selected else KeepRelevant(selected, Lower(query), p)
  }

  datatype Scored = Scored(highlight: Row, relevance: real, matchedTerms: seq<string>, aiMatched: bool)

  function ScoreKey(s: Scored): real { s.relevance }

  function ScoreRow(h: Row, query: string): Scored {
    Scored(h, Relevance(h, QueryOf(query)), Terms(Words(Lower(query)), HighlightText(h)), false)
  }

  function ScoreAll(rows: seq<Row>, query: string): (r: seq<Scored>)
    ensures |r| == |rows|
  {
    if rows == [] then [] else ScoreAll(rows[..|rows| - 1], query) + [ScoreRow(rows[|rows| - 1], query)]
  }

  lemma ScoreAllStep(rows: seq<Row>, query: string, i: nat)
    requires i < |rows|
    ensures ScoreAll(rows[..i + 1], query) == ScoreAll(rows[..i], query) + [ScoreRow(rows[i], query)]
  {
    assert rows[..i + 1][..i] == rows[..i];
  }

  lemma {:induction false} ScoreAllAt(rows: seq<Row>, query: string)
    ensures forall i :: 0 <= i < |rows| ==> ScoreAll(rows, query)[i] == ScoreRow(rows[i], query)
  {
    if rows != [] {
      var n := |rows| - 1;
      ScoreAllAt(rows[..n], query);
      forall i | 0 <= i < |rows| ensures ScoreAll(rows, query)[i] == ScoreRow(rows[i], query) {
        if i < n {
          assert rows[..n][i] == rows[i];
        }
      }
    }
  }

  /** The database fallback of `search_highlights`, given the rows the
      database returns in its own order. */
  method FallbackSearch(rows: seq<Row>, query: string, playerId: Option<string>) returns (results: seq<Scored>)
    ensures results == SortDesc(ScoreAll(Candidates(rows, query, playerId), query), ScoreKey)
  {
    var parsed := ParseQuery(query);
    var candidates := SelectRows(rows, playerId, parsed);
    if !IsBlank(query) {
      var q := Lower(query);
      var filtered: seq<Row> := [];
      for i := 0 to |candidates|
        invariant filtered == KeepRelevant(candidates[..i], q, parsed)
      {
        KeepRelevantStep(candidates, q, parsed, i);
        var h := candidates[i];
        var textMatch := TextMatch(h, q);
        var tagMatch := false;
        if parsed.eventTypes != [] && TagsOf(h) != [] {
          tagMatch := TagMatches(LowerAll(TagsOf(h)), parsed.eventTypes);
        }
        if textMatch || tagMatch || parsed.eventTypes == [] {
          filtered := filtered + [h];
        }
      }
      assert candidates[..|candidates|] == candidates;
      candidates := filtered;
    }
    var scored: seq<Scored> := [];
    for i := 0 to |candidates|
      invariant scored == ScoreAll(candidates[..i], query)
    {
      ScoreAllStep(candidates, query, i);
      var score := RelevanceScore(candidates[i], parsed);
      var matched := MatchedTerms(candidates[i], query);
      scored := scored + [Scored(candidates[i], score, matched, false)];
    }
    assert candidates[..|candidates|] == candidates;
    results := SortDesc(scored, ScoreKey);
  }

  lemma {:induction false} KeepRelevantAll(rows: seq<Row>, q: string, p: Parsed)
    requires p.eventTypes == []
    ensures KeepRelevant(rows, q, p) == rows
  {
    if rows != [] {
      KeepRelevantAll(rows[..|rows| - 1], q, p);
    }
  }

  /** A query without event types filters nothing beyond the database query. */
  lemma NoEventTypesKeepsAll(rows: seq<Row>, query: string, playerId: Option<string>)
    requires QueryOf(query).eventTypes == []
    ensures Candidates(rows, query, playerId) == SelectRows(rows, playerId, QueryOf(query))
  {
    KeepRelevantAll(SelectRows(rows, playerId, QueryOf(query)), Lower(query), QueryOf(query));
  }

  /** The results are the scored candidates in non-increasing relevance,
      ties in database order; each is a selected row that passes the filter,
      with relevance at most 1.0, and every such row is among them. */
  lemma FallbackSearchCorrect(rows: seq<Row>, query: string, playerId: Option<string>)
    ensures var results := SortDesc(ScoreAll(Candidates(rows, query, playerId), query), ScoreKey);
      && SortedDesc(results, ScoreKey)
      && multiset(results) == multiset(ScoreAll(Candidates(rows, query, playerId), query))
      && (forall c :: WithKey(results, ScoreKey, c) == WithKey(ScoreAll(Candidates(rows, query, playerId), query), ScoreKey, c))
      && (forall s :: s in results ==> s.relevance <= 1.0 && !s.aiMatched)
      && (forall h :: h in Candidates(rows, query, playerId) <==>
            h in rows && Selected(h, playerId, QueryOf(query)) && (IsBlank(query) || Relevant(h, Lower(query), QueryOf(query))))
  {
    var cs := Candidates(rows, query, playerId);
    var scored := ScoreAll(cs, query);
    SortDescCorrect(scored, ScoreKey);
    ScoreAllAt(cs, query);
    forall s | s in SortDesc(scored, ScoreKey) ensures s.relevance <= 1.0 && !s.aiMatched {
      assert s in multiset(scored);
      var i :| 0 <= i < |scored| && scored[i] == s;
      RelevanceBounds(cs[i], QueryOf(query));
    }
  }
}
