/** A stored highlight row (`VideoHighlightModel`) as the search, report and
    analytics services read it, and the tag tally they share. */
module Rows {
  import opened Wrappers
  import opened Sorting
  import opened Tallies

  /** A truthy `ai_insights` JSON object: its `confidence` (0 when the key is
      missing) and its `key_moments` ([] when missing). */
  datatype StoredInsight = StoredInsight(confidence: int, keyMoments: seq<string>)

  /** `date` is the row's datetime as a number that orders like it; `kind` is
      the free-form `type` column; `insights` is None when `ai_insights` is
      None or empty. */
  datatype Row = Row(id: string, title: string, description: Option<string>, date: int, kind: string,
                     tags: Option<seq<string>>, playerId: string, insights: Option<StoredInsight>)

  /** `h.tags or []` */
  function TagsOf(h: Row): seq<string> {
    if h.tags.Some? then h.tags.value else []
  }

  /** Every tag of `hs`, highlight by highlight. */
  function AllTags(hs: seq<Row>): seq<string> {
    if hs == [] then [] else AllTags(hs[..|hs| - 1]) + TagsOf(hs[|hs| - 1])
  }

  /** The highlights of `hs` whose `type` is `kind`, in order. */
  function OfKind(hs: seq<Row>, kind: string): (r: seq<Row>)
    ensures forall h :: h in r ==> h in hs && h.kind == kind
    ensures forall h :: h in hs && h.kind == kind ==> h in r
  {
    if hs == [] then []
    else OfKind(hs[..|hs| - 1], kind) + (if hs[|hs| - 1].kind == kind then [hs[|hs| - 1]] else [])
  }

  /** One for a highlight whose `type` is `kind`, zero otherwise. */
  function KindIndicator(kind: string): Row -> nat {
    (h: Row) => if h.kind == kind then 1 else 0
  }

  /** `sum(1 for h in hs if h.type == kind)` */
  function CountKind(hs: seq<Row>, kind: string): nat {
    SumOf(hs, KindIndicator(kind))
  }

  /** The tag loop shared by `_count_by_tag`, `_identify_strengths` and
      `_identify_weaknesses`: every tag of every highlight is counted once, in
      order of first appearance. */
  method CountTags(hs: seq<Row>) returns (counts: Counts)
    ensures counts == TallyFrom([], AllTags(hs))
  {
    counts := [];
    for i := 0 to |hs|
      invariant counts == TallyFrom([], AllTags(hs[..i]))
    {
      var tags := TagsOf(hs[i]);
      ghost var before := AllTags(hs[..i]);
      assert before + tags[..0] == before;
      for j := 0 to |tags|
        invariant counts == TallyFrom([], before + tags[..j])
      {
        TallyStep([], before + tags[..j], tags[j]);
        SnocTake(before, tags, j);
        counts := Bump(counts, tags[j]);
      }
      AllTagsStep(hs, i);
      assert tags[..|tags|] == tags;
    }
    assert hs[..|hs|] == hs;
  }

  lemma SnocTake<T>(a: seq<T>, b: seq<T>, j: nat)
    requires j < |b|
    ensures a + b[..j + 1] == (a + b[..j]) + [b[j]]
  {
    assert b[..j + 1] == b[..j] + [b[j]];
  }

  lemma AppendAssoc<T>(a: seq<T>, b: seq<T>, c: seq<T>)
    ensures a + (b + c) == (a + b) + c
  {
  }

  lemma AllTagsStep(hs: seq<Row>, i: nat)
    requires i < |hs|
    ensures AllTags(hs[..i + 1]) == AllTags(hs[..i]) + TagsOf(hs[i])
  {
    assert hs[..i + 1][..i] == hs[..i];
  }

  /** The tag counter holds each tag of `hs` once, with its number of occurrences,
      and its counts add up to the number of tags. */
  lemma TagCounts(hs: seq<Row>)
    ensures DistinctKeys(TallyFrom([], AllTags(hs)))
    ensures forall t :: HasKey(TallyFrom([], AllTags(hs)), t) <==> t in AllTags(hs)
    ensures forall t :: Get(TallyFrom([], AllTags(hs)), t) == multiset(AllTags(hs))[t]
    ensures Total(TallyFrom([], AllTags(hs))) == |AllTags(hs)|
  {
    TallyCorrect([], AllTags(hs));
  }
}
