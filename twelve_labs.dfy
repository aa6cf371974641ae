/** The deterministic part of the Twelve Labs gateway
    (backend/twelvelabs_integration.py): which queries are issued, how the
    service's two response shapes become events and key moments, the aggregate
    metrics, highlight and semantic-search extraction, and upload validation.
    Every call into the SDK is a parameter: `search` gives the response to one
    query text, None standing for a raised exception. */
module TwelveLabs {
  import opened Wrappers
  import opened Strings
  import opened Numbers
  import opened Sorting
  import H = Highlights

  /** `soccer_events`, in declaration order. */
  const SoccerEvents: seq<(string, seq<string>)> := [
    ("goal", ["goal", "score", "finish", "shot on target"]),
    ("assist", ["assist", "pass", "through ball", "cross"]),
    ("dribble", ["dribble", "run", "beat defender", "skill move"]),
    ("tackle", ["tackle", "challenge", "win ball"]),
    ("pass", ["pass", "ball distribution", "play making"]),
    ("shot", ["shot", "attempt", "strike"]),
    ("save", ["save", "goalkeeper", "block"]),
    ("foul", ["foul", "yellow card", "red card"]),
    ("offside", ["offside", "offside trap"]),
    ("corner", ["corner kick", "set piece"]),
    ("free_kick", ["free kick", "direct free kick"])
  ]

  /** The value of the first entry at or after `from` whose key is `key`. */
  function LookupFrom<V>(table: seq<(string, V)>, key: string, from: nat): (r: Option<V>)
    requires from <= |table|
    ensures r.Some? ==> exists i :: from <= i < |table| && table[i] == (key, r.value)
    ensures r.None? ==> forall i :: from <= i < |table| ==> table[i].0 != key
    decreases |table| - from
  {
    if from == |table| then None
    else if table[from].0 == key then Some(table[from].1)
    else LookupFrom(table, key, from + 1)
  }

  /** A dictionary lookup in a table of entries. */
  function Lookup<V>(table: seq<(string, V)>, key: string): (r: Option<V>)
    ensures r.Some? ==> exists i :: 0 <= i < |table| && table[i] == (key, r.value)
    ensures r.None? ==> forall i :: 0 <= i < |table| ==> table[i].0 != key
  {
    LookupFrom(table, key, 0)
  }

  function Keys<V>(table: seq<(string, V)>): (r: seq<string>)
    ensures |r| == |table| && forall i :: 0 <= i < |table| ==> r[i] == table[i].0
  {
    seq(|table|, i requires 0 <= i < |table| => table[i].0)
  }

  /** `self.soccer_events.get(event_type, [event_type])` */
  function Keywords(eventType: string): (r: seq<string>)
    ensures |r| > 0
  {
    match Lookup(SoccerEvents, eventType)
    case Some(ks) => assert ks != [] by { var i :| 0 <= i < |SoccerEvents| && SoccerEvents[i] == (eventType, ks); } ks
    case None => [eventType]
  }

  /** `if not event_types: event_types = list(self.soccer_events.keys())` */
  function RequestedTypes(eventTypes: seq<string>): seq<string> {
    if eventTypes == [] then Keys(SoccerEvents) else eventTypes
  }

  function Prefix<T>(s: seq<T>, n: nat): (r: seq<T>)
    ensures |r| == Min(n, |s|) && r == s[..|r|]
  {
    if |s| <= n then s else s[..n]
  }

  // ---- queries ----

  datatype Query = Query(eventType: string, keyword: string, text: string)

  /** The queries of one event type: at most its first two keywords, each
      prefixed with the player's name. */
  function TypeQueries(eventType: string, playerName: string): (r: seq<Query>)
    ensures |r| == Min(2, |Keywords(eventType)|)
    ensures forall i :: 0 <= i < |r| ==>
      r[i] == Query(eventType, Keywords(eventType)[i], playerName + " " + Keywords(eventType)[i])
  {
    var ks := Prefix(Keywords(eventType), 2);
    seq(|ks|, i requires 0 <= i < |ks| => Query(eventType, ks[i], playerName + " " + ks[i]))
  }

  function Queries(eventTypes: seq<string>, playerName: string): (r: seq<Query>)
    ensures |r| <= 2 * |eventTypes|
    ensures forall q :: q in r ==>
      (q.eventType in eventTypes && q.text == playerName + " " + q.keyword && q.keyword in Keywords(q.eventType))
  {
    if eventTypes == [] then []
    else
      var first := TypeQueries(eventTypes[0], playerName);
      var rest := Queries(eventTypes[1..], playerName);
      assert forall q :: q in first ==> q.keyword in Keywords(q.eventType) by {
        forall q | q in first ensures q.keyword in Keywords(q.eventType) {
          var i :| 0 <= i < |first| && first[i] == q;
          assert q.keyword == Keywords(eventTypes[0])[i];
        }
      }
      first + rest
  }

  // ---- responses ----

  datatype Clip = Clip(start: real, end: real, id: Option<string>, thumbnailUrl: Option<string>)

  /** One result item. The clip-shaped form has a non-empty `clips`; the flat form
      may carry its own `start`/`end`. Absent attributes are None. */
  datatype SearchItem = SearchItem(score: int, clips: Option<seq<Clip>>, start: Option<real>, end: Option<real>,
                                   videoId: Option<string>, id: Option<string>, confidence: Option<string>,
                                   metadata: Option<map<string, string>>)

  /** What the SDK returns for one search: an object with a `data` attribute
      (which may or may not hold a list), or already a list. */
  datatype Pager<T> = PagerObject(data: Option<seq<T>>, iterated: seq<T>) | PlainList(items: seq<T>)

  /** `_iter_sync_pager` */
  function IterSyncPager<T>(p: Pager<T>): (r: seq<T>)
    ensures p.PagerObject? && p.data.Some? ==> r == p.data.value
    ensures p.PlainList? ==> r == p.items
    ensures p.PagerObject? && p.data.None? ==> r == p.iterated
  {
    match p
    case PagerObject(Some(d), _) => d
    case PagerObject(None, it) => it
    case PlainList(xs) => xs
  }

  lemma IterSyncPagerIdempotent<T>(p: Pager<T>)
    ensures IterSyncPager(PlainList(IterSyncPager(p))) == IterSyncPager(p)
  {
  }

  datatype KeyMoment = KeyMoment(time: real, description: string, importance: real, eventType: string)

  /** An event together with the key moment recorded beside it. */
  datatype Detection = Detection(event: H.Event, moment: KeyMoment)

  function Confidence(score: int): real {
    score as real / 100.0
  }

  predicate IsClipShaped(item: SearchItem) {
    item.clips.Some? && |item.clips.value| > 0
  }

  /** The detections one item contributes for one query. */
  function ItemDetections(q: Query, playerName: string, item: SearchItem): (r: seq<Detection>)
    ensures item.score <= 70 ==> r == []
    ensures item.score > 70 && IsClipShaped(item) ==> (|r| == |item.clips.value| &&
      forall i :: 0 <= i < |r| ==> r[i].event.start == item.clips.value[i].start && r[i].event.end == item.clips.value[i].end)
    ensures item.score > 70 && !IsClipShaped(item) ==> (|r| == 1 &&
      r[0].event.start == item.start.GetOr(0.0) && r[0].event.end == item.end.GetOr(item.start.GetOr(0.0) + 5.0))
    ensures forall d :: d in r ==>
      (d.event.kind == q.eventType && d.event.confidence == Confidence(item.score) &&
       d.moment.importance == d.event.confidence && d.moment.time == d.event.start && d.moment.eventType == q.eventType)
  {
    if item.score <= 70 then []
    else if IsClipShaped(item) then
      var clips := item.clips.value;
      seq(|clips|, i requires 0 <= i < |clips| => ClipDetection(q, playerName, item, clips[i]))
    else
      [FlatDetection(q, playerName, item)]
  }

  /** The event and key moment of one clip of a clip-shaped item. */
  function ClipDetection(q: Query, playerName: string, item: SearchItem, c: Clip): Detection {
    var conf := Confidence(item.score);
    Detection(H.Event(q.eventType, c.start, c.end, conf, Some(playerName + " - " + q.keyword), item.videoId, c.id, None, None),
              KeyMoment(c.start, q.keyword, conf, q.eventType))
  }

  /** The event and key moment of a flat item: `start` defaults to 0 and `end`
      to five seconds after the start. */
  function FlatDetection(q: Query, playerName: string, item: SearchItem): Detection {
    var conf := Confidence(item.score);
    var start := item.start.GetOr(0.0);
    Detection(H.Event(q.eventType, start, item.end.GetOr(start + 5.0), conf, Some(playerName + " - " + q.keyword),
                      item.videoId, item.id, None, None),
              KeyMoment(start, q.keyword, conf, q.eventType))
  }

  function PageDetections(q: Query, playerName: string, items: seq<SearchItem>): (r: seq<Detection>)
    ensures forall d :: d in r ==>
      (d.event.kind == q.eventType && d.event.confidence > 0.7 && d.moment.importance == d.event.confidence)
  {
    if items == [] then [] else ItemDetections(q, playerName, items[0]) + PageDetections(q, playerName, items[1..])
  }

  /** All detections in query order, or None when some search raised. */
  function Detect(qs: seq<Query>, playerName: string, search: string -> Option<Pager<SearchItem>>): (r: Option<seq<Detection>>)
    ensures r.None? <==> exists i :: 0 <= i < |qs| && search(qs[i].text).None?
    ensures r.Some? ==> forall d :: d in r.value ==>
      (d.event.confidence > 0.7 && d.moment.importance == d.event.confidence && exists q :: q in qs && d.event.kind == q.eventType)
  {
    if qs == [] then Some([])
    else
      var rest := Detect(qs[1..], playerName, search);
      assert forall i :: 1 <= i < |qs| ==> qs[i] == qs[1..][i - 1];
      match search(qs[0].text)
      case None => None
      case Some(p) =>
        if rest.None? then None
        else
          var here := PageDetections(qs[0], playerName, IterSyncPager(p));
          assert forall q :: q in qs[1..] ==> q in qs;
          Some(here + rest.value)
  }

  // ---- metrics ----

  datatype Metrics = Metrics(successRate: real, intensity: real, technicalQuality: real)

  function SumConfidence(events: seq<H.Event>): real {
    if events == [] then 0.0 else events[0].confidence + SumConfidence(events[1..])
  }

  function CountAbove(events: seq<H.Event>, threshold: real): (r: nat)
    ensures r <= |events|
  {
    if events == [] then 0 else (if events[0].confidence > threshold then 1 else 0) + CountAbove(events[1..], threshold)
  }

  predicate UnitConfidences(events: seq<H.Event>) {
    forall i :: 0 <= i < |events| ==> 0.0 <= events[i].confidence <= 1.0
  }

  lemma {:induction false} SumConfidenceBounds(events: seq<H.Event>)
    ensures UnitConfidences(events) ==> 0.0 <= SumConfidence(events) <= |events| as real
  {
    if events != [] && UnitConfidences(events) {
      assert UnitConfidences(events[1..]) by {
        forall i | 0 <= i < |events[1..]| ensures 0.0 <= events[1..][i].confidence <= 1.0 {
          assert events[1..][i] == events[i + 1];
        }
      }
      SumConfidenceBounds(events[1..]);
    }
  }

  /** `a / n`: the share that, taken n times, gives back a. */
  function Share(a: real, n: real): (r: real)
    requires n > 0.0
    ensures r * n == a
    ensures 0.0 <= a <= n ==> 0.0 <= r <= 1.0
  {
    assert a / n * n == a;
    a / n
  }

  /** `_calculate_metrics`, before the `round(x, 2)` of each value: the mean
      confidence, the event count over 20 capped at 1, and the share of events
      above 0.8. */
  function CalculateMetrics(events: seq<H.Event>): (r: Metrics)
    ensures events == [] ==> r == Metrics(0.0, 0.0, 0.0)
    ensures events != [] ==> r.successRate * |events| as real == SumConfidence(events)
    ensures events != [] ==> r.intensity == MinReal(|events| as real / 20.0, 1.0)
    ensures events != [] ==> r.technicalQuality * |events| as real == CountAbove(events, 0.8) as real
  {
    if events == [] then Metrics(0.0, 0.0, 0.0)
    else
      var n := |events| as real;
      Metrics(Share(SumConfidence(events), n), MinReal(n / 20.0, 1.0), Share(CountAbove(events, 0.8) as real, n))
  }

  /** Every metric is a proportion: intensity and technical quality always,
      the success rate whenever the confidences are in [0, 1]. */
  lemma MetricsBounds(events: seq<H.Event>)
    ensures var r := CalculateMetrics(events);
      0.0 <= r.intensity <= 1.0 && 0.0 <= r.technicalQuality <= 1.0
    ensures UnitConfidences(events) ==> 0.0 <= CalculateMetrics(events).successRate <= 1.0
  {
    if events != [] {
      SumConfidenceBounds(events);
    }
  }

  // ---- analyze_video ----

  datatype Analysis = Analysis(videoId: string, status: string, detectedEvents: seq<H.Event>,
                               keyMoments: seq<KeyMoment>, metrics: Metrics, totalEvents: nat)

  function Importance(m: KeyMoment): real { m.importance }

  function Events(ds: seq<Detection>): (r: seq<H.Event>)
    ensures |r| == |ds| && forall i :: 0 <= i < |ds| ==> r[i] == ds[i].event
  {
    seq(|ds|, i requires 0 <= i < |ds| => ds[i].event)
  }

  function Moments(ds: seq<Detection>): (r: seq<KeyMoment>)
    ensures |r| == |ds| && forall i :: 0 <= i < |ds| ==> r[i] == ds[i].moment
  {
    seq(|ds|, i requires 0 <= i < |ds| => ds[i].moment)
  }

  /** `analyze_video`: None when a search raised (the source re-raises). */
  function AnalyzeVideo(videoId: string, playerName: string, eventTypes: seq<string>,
                        search: string -> Option<Pager<SearchItem>>): Option<Analysis>
  {
    var qs := Queries(RequestedTypes(eventTypes), playerName);
    match Detect(qs, playerName, search)
    case None => None
    case Some(ds) =>
      var events := Events(ds);
      Some(Analysis(videoId, "completed", events, Prefix(SortDesc(Moments(ds), Importance), 10),
                    CalculateMetrics(events), |events|))
  }

  /** Every event analyze_video reports comes from a requested type and a
      score above 70, and the count is the number of events. */
  lemma AnalyzeVideoEvents(videoId: string, playerName: string, eventTypes: seq<string>,
                           search: string -> Option<Pager<SearchItem>>)
    requires AnalyzeVideo(videoId, playerName, eventTypes, search).Some?
    ensures var a := AnalyzeVideo(videoId, playerName, eventTypes, search).value;
      a.totalEvents == |a.detectedEvents| &&
      forall e :: e in a.detectedEvents ==> e.confidence > 0.7 && e.kind in RequestedTypes(eventTypes)
  {
    var ds := Detect(Queries(RequestedTypes(eventTypes), playerName), playerName, search).value;
    var a := AnalyzeVideo(videoId, playerName, eventTypes, search).value;
    forall e | e in a.detectedEvents ensures e.confidence > 0.7 && e.kind in RequestedTypes(eventTypes) {
      var i :| 0 <= i < |a.detectedEvents| && a.detectedEvents[i] == e;
      assert ds[i] in ds;
    }
  }

  /** The key moments are at most ten of the recorded moments (one per event),
      in non-increasing importance, none left out more important than one kept. */
  lemma AnalyzeVideoKeyMoments(videoId: string, playerName: string, eventTypes: seq<string>,
                               search: string -> Option<Pager<SearchItem>>)
    requires AnalyzeVideo(videoId, playerName, eventTypes, search).Some?
    ensures var a := AnalyzeVideo(videoId, playerName, eventTypes, search).value;
      var ms := Moments(Detect(Queries(RequestedTypes(eventTypes), playerName), playerName, search).value);
      && |ms| == |a.detectedEvents|
      && |a.keyMoments| == Min(10, |a.detectedEvents|)
      && SortedDesc(a.keyMoments, Importance)
      && multiset(a.keyMoments) <= multiset(ms)
      && forall m, m' :: m in a.keyMoments && m' in multiset(ms) - multiset(a.keyMoments) ==>
           m'.importance <= m.importance
  {
    var ds := Detect(Queries(RequestedTypes(eventTypes), playerName), playerName, search).value;
    var ms := Moments(ds);
    var a := AnalyzeVideo(videoId, playerName, eventTypes, search).value;
    assert a.detectedEvents == Events(ds);
    assert a.keyMoments == Prefix(SortDesc(ms, Importance), 10);
    var k := Min(10, |ms|);
    assert a.keyMoments == SortDesc(ms, Importance)[..k];
    TopOf(ms, Importance, k);
    forall m, m' | m in a.keyMoments && m' in multiset(ms) - multiset(a.keyMoments) ensures m'.importance <= m.importance {
      assert Importance(m') <= Importance(m);
    }
  }

  // ---- the loops of analyze_video ----

  /** `acc` followed by the list `rest` holds, or None when `rest` is None. */
  function Prepend<T>(acc: seq<T>, rest: Option<seq<T>>): (r: Option<seq<T>>)
    ensures r.None? <==> rest.None?
  {
    if rest.None? then None else Some(acc + rest.value)
  }

  lemma PrependAssoc<T>(a: seq<T>, b: seq<T>, rest: Option<seq<T>>)
    ensures Prepend(a, Prepend(b, rest)) == Prepend(a + b, rest)
  {
    if rest.Some? {
      assert a + (b + rest.value) == (a + b) + rest.value;
    }
  }

  /** The clip loop for one result item: with a non-empty `clips`, one
      detection per clip when the score is above 70; otherwise one
      detection for the item itself when the score is above 70. */
  method CollectItem(q: Query, playerName: string, item: SearchItem) returns (ds: seq<Detection>)
    ensures ds == ItemDetections(q, playerName, item)
  {
    ds := [];
    if IsClipShaped(item) {
      var clips := item.clips.value;
      for k := 0 to |clips|
        invariant item.score <= 70 ==> ds == []
        invariant item.score > 70 ==> |ds| == k && forall t :: 0 <= t < k ==> ds[t] == ClipDetection(q, playerName, item, clips[t])
      {
        if item.score > 70 {
          ds := ds + [ClipDetection(q, playerName, item, clips[k])];
        }
      }
    } else if item.score > 70 {
      ds := [FlatDetection(q, playerName, item)];
    }
  }

  lemma PageDetectionsStep(q: Query, playerName: string, items: seq<SearchItem>, j: nat)
    requires j < |items|
    ensures PageDetections(q, playerName, items[j..]) ==
            ItemDetections(q, playerName, items[j]) + PageDetections(q, playerName, items[j + 1..])
  {
    assert items[j..][1..] == items[j + 1..];
  }

  /** `PageDetectionsStep` after detections `ds` already collected. */
  lemma PageDetectionsAcc(q: Query, playerName: string, items: seq<SearchItem>, j: nat, ds: seq<Detection>)
    requires j < |items|
    ensures ds + PageDetections(q, playerName, items[j..]) ==
            (ds + ItemDetections(q, playerName, items[j])) + PageDetections(q, playerName, items[j + 1..])
  {
    PageDetectionsStep(q, playerName, items, j);
  }

  /** The item loop for one query. */
  method CollectPage(q: Query, playerName: string, items: seq<SearchItem>) returns (ds: seq<Detection>)
    ensures ds == PageDetections(q, playerName, items)
  {
    ds := [];
    for j := 0 to |items|
      invariant PageDetections(q, playerName, items) == ds + PageDetections(q, playerName, items[j..])
    {
      var here := CollectItem(q, playerName, items[j]);
      PageDetectionsAcc(q, playerName, items, j, ds);
      ds := ds + here;
    }
    assert ds + PageDetections(q, playerName, items[|items|..]) == ds;
  }

  /** One step of `Detect` along a list of queries. */
  lemma DetectStep(q: Query, qs: seq<Query>, playerName: string, search: string -> Option<Pager<SearchItem>>)
    ensures Detect([q] + qs, playerName, search) ==
      if search(q.text).None? then None
      else Prepend(PageDetections(q, playerName, IterSyncPager(search(q.text).value)), Detect(qs, playerName, search))
  {
    assert ([q] + qs)[1..] == qs;
  }

  /** The queries of the types from `i` on are the first type's queries
      followed by those of the rest. */
  lemma QueriesStep(types: seq<string>, playerName: string, i: nat)
    requires i < |types|
    ensures Queries(types[i..], playerName) == TypeQueries(types[i], playerName) + Queries(types[i + 1..], playerName)
  {
    assert types[i..][1..] == types[i + 1..];
  }

  lemma PrependNil<T>(rest: Option<seq<T>>)
    ensures Prepend([], rest) == rest
  {
    if rest.Some? {
      assert [] + rest.value == rest.value;
    }
  }

  /** `DetectStep` at position `j` of a query list followed by `rest`. */
  lemma DetectSliceStep(qs: seq<Query>, j: nat, rest: seq<Query>, playerName: string,
                        search: string -> Option<Pager<SearchItem>>)
    requires j < |qs|
    ensures Detect(qs[j..] + rest, playerName, search) ==
      if search(qs[j].text).None? then None
      else Prepend(PageDetections(qs[j], playerName, IterSyncPager(search(qs[j].text).value)),
                   Detect(qs[j + 1..] + rest, playerName, search))
  {
    assert qs[j..] + rest == [qs[j]] + (qs[j + 1..] + rest);
    DetectStep(qs[j], qs[j + 1..] + rest, playerName, search);
  }

  /** The query loop for one event type, `search_queries[:2]`, each searched
      as "<player> <keyword>": its detections, None when a search raised. */
  method CollectType(eventType: string, playerName: string, search: string -> Option<Pager<SearchItem>>,
                     ghost rest: seq<Query>) returns (r: Option<seq<Detection>>)
    ensures Detect(TypeQueries(eventType, playerName) + rest, playerName, search) ==
            if r.None? then None else Prepend(r.value, Detect(rest, playerName, search))
  {
    var tq := TypeQueries(eventType, playerName);
    var ds := [];
    assert tq[0..] + rest == tq + rest;
    PrependNil(Detect(tq + rest, playerName, search));
    for j := 0 to |tq|
      invariant Detect(tq + rest, playerName, search) == Prepend(ds, Detect(tq[j..] + rest, playerName, search))
    {
      var q := tq[j];
      DetectSliceStep(tq, j, rest, playerName, search);
      var response := search(q.text);
      if response.None? {
        return None;
      }
      var here := CollectPage(q, playerName, IterSyncPager(response.value));
      PrependAssoc(ds, here, Detect(tq[j + 1..] + rest, playerName, search));
      ds := ds + here;
    }
    assert tq[|tq|..] + rest == rest;
    r := Some(ds);
  }

  /** The event-type loop: every detection of every query, in order, or None
      when some search raised. */
  method CollectAll(types: seq<string>, playerName: string, search: string -> Option<Pager<SearchItem>>)
    returns (r: Option<seq<Detection>>)
    ensures r == Detect(Queries(types, playerName), playerName, search)
  {
    var ds := [];
    assert types[0..] == types;
    PrependNil(Detect(Queries(types, playerName), playerName, search));
    for i := 0 to |types|
      invariant Detect(Queries(types, playerName), playerName, search) ==
                Prepend(ds, Detect(Queries(types[i..], playerName), playerName, search))
    {
      QueriesStep(types, playerName, i);
      var here := CollectType(types[i], playerName, search, Queries(types[i + 1..], playerName));
      if here.None? {
        return None;
      }
      PrependAssoc(ds, here.value, Detect(Queries(types[i + 1..], playerName), playerName, search));
      ds := ds + here.value;
    }
    assert types[|types|..] == [];
    assert ds + [] == ds;
    r := Some(ds);
  }

  /** `analyze_video`, loop by loop: the detections are collected, then the
      key moments sorted by importance and cut at ten. */
  method RunAnalyzeVideo(videoId: string, playerName: string, eventTypes: seq<string>,
                         search: string -> Option<Pager<SearchItem>>) returns (r: Option<Analysis>)
    ensures r == AnalyzeVideo(videoId, playerName, eventTypes, search)
  {
    var types := if eventTypes == [] then Keys(SoccerEvents) else eventTypes;
    var ds := CollectAll(types, playerName, search);
    if ds.None? {
      return None;
    }
    var events := Events(ds.value);
    var keyMoments := Prefix(SortDesc(Moments(ds.value), Importance), 10);
    r := Some(Analysis(videoId, "completed", events, keyMoments, CalculateMetrics(events), |events|));
  }

  // ---- extract_highlights and search_semantic ----

  datatype ClipHighlight = ClipHighlight(kind: string, start: real, end: real, confidence: real,
                                         videoId: string, thumbnailUrl: Option<string>, description: string)

  /** The highlights of one result item, or None when reading it raises: a
      qualifying item without `clips`, or with clips but no `video_id`. */
  function ResultHighlights(eventType: string, keyword: string, minConfidence: real, item: SearchItem): (r: Option<seq<ClipHighlight>>)
    ensures r.Some? && Confidence(item.score) < minConfidence ==> r.value == []
    ensures r.Some? && Confidence(item.score) >= minConfidence ==> item.clips.Some? && |r.value| == |item.clips.value|
    ensures r.Some? ==> forall h :: h in r.value ==>
      (h.kind == eventType && h.confidence == Confidence(item.score) && h.confidence >= minConfidence && h.description == keyword)
  {
    if Confidence(item.score) < minConfidence then Some([])
    else if item.clips.None? then None
    else if item.clips.value == [] then Some([])
    else if item.videoId.None? then None
    else
      var clips := item.clips.value;
      Some(seq(|clips|, i requires 0 <= i < |clips| => ClipHighlightOf(eventType, keyword, item.score, item.videoId.value, clips[i])))
  }

  /** The highlight entry of one clip of a qualifying result. */
  function ClipHighlightOf(eventType: string, keyword: string, score: int, videoId: string, c: Clip): ClipHighlight {
    ClipHighlight(eventType, c.start, c.end, Confidence(score), videoId, c.thumbnailUrl, keyword)
  }

  function ResultsHighlights(eventType: string, keyword: string, minConfidence: real, items: seq<SearchItem>): (r: Option<seq<ClipHighlight>>)
    ensures r.Some? ==> forall h :: h in r.value ==> h.kind == eventType && h.confidence >= minConfidence
  {
    if items == [] then Some([])
    else
      match ResultHighlights(eventType, keyword, minConfidence, items[0])
      case None => None
      case Some(here) =>
        match ResultsHighlights(eventType, keyword, minConfidence, items[1..])
        case None => None
        case Some(rest) => Some(here + rest)
  }

  /** One query per event type (its first keyword, without the player's name). */
  function ExtractFor(types: seq<string>, minConfidence: real, search: string -> Option<seq<SearchItem>>): (r: Option<seq<ClipHighlight>>)
    ensures r.Some? ==> forall h :: h in r.value ==> h.kind in types && h.confidence >= minConfidence
  {
    if types == [] then Some([])
    else
      var keyword := Keywords(types[0])[0];
      var here := match search(keyword)
                  case None => None
                  case Some(items) => ResultsHighlights(types[0], keyword, minConfidence, items);
      match here
      case None => None
      case Some(hs) =>
        match ExtractFor(types[1..], minConfidence, search)
        case None => None
        case Some(rest) => Some(hs + rest)
  }

  /** `extract_highlights`: every exception collapses the result to []. */
  function ExtractHighlights(eventTypes: seq<string>, minConfidence: real, search: string -> Option<seq<SearchItem>>): (r: seq<ClipHighlight>)
    ensures forall h :: h in r ==> h.kind in RequestedTypes(eventTypes) && h.confidence >= minConfidence
    ensures ExtractFor(RequestedTypes(eventTypes), minConfidence, search).None? ==> r == []
  {
    ExtractFor(RequestedTypes(eventTypes), minConfidence, search).GetOr([])
  }

  datatype SemanticHit = SemanticHit(videoId: string, score: real, start: real, end: real, confidence: string,
                                     thumbnailUrl: Option<string>, metadata: map<string, string>)

  function ClipCount(items: seq<SearchItem>): nat {
    if items == [] then 0 else |items[0].clips.GetOr([])| + ClipCount(items[1..])
  }

  /** The hits of the result items, one per clip, or None when reading an item
      raises (no `clips`, or clips without `video_id` or `confidence`). */
  function SemanticHits(items: seq<SearchItem>): (r: Option<seq<SemanticHit>>)
    ensures r.Some? ==> |r.value| == ClipCount(items)
    ensures r.Some? ==> forall h :: h in r.value ==> exists it :: it in items && h.score == Confidence(it.score)
  {
    if items == [] then Some([])
    else
      match ItemHits(items[0])
      case None => None
      case Some(hs) =>
        match SemanticHits(items[1..])
        case None => None
        case Some(rest) =>
          assert forall h :: h in rest ==> exists it' :: it' in items && h.score == Confidence(it'.score) by {
            forall h | h in rest ensures exists it' :: it' in items && h.score == Confidence(it'.score) {
              var it' :| it' in items[1..] && h.score == Confidence(it'.score);
              assert it' in items;
            }
          }
          Some(hs + rest)
  }

  /** The hits of one result, one per clip, or None when reading it raises. */
  function ItemHits(it: SearchItem): (r: Option<seq<SemanticHit>>)
    ensures r.Some? ==> |r.value| == |it.clips.GetOr([])|
    ensures r.Some? ==> forall h :: h in r.value ==> h.score == Confidence(it.score)
  {
    if it.clips.None? then None
    else if it.clips.value == [] then Some([])
    else if it.videoId.None? || it.confidence.None? then None
    else
      var clips := it.clips.value;
      Some(seq(|clips|, i requires 0 <= i < |clips| => HitOf(it, clips[i])))
  }

  /** The hit of one clip of a result that has a `video_id` and a `confidence`. */
  function HitOf(it: SearchItem, c: Clip): SemanticHit
    requires it.videoId.Some? && it.confidence.Some?
  {
    SemanticHit(it.videoId.value, Confidence(it.score), c.start, c.end, it.confidence.value, c.thumbnailUrl,
                it.metadata.GetOr(map[]))
  }

  /** `search_semantic`: [] when the search or the reading of a result raises. */
  function SearchSemantic(response: Option<seq<SearchItem>>): (r: seq<SemanticHit>)
    ensures response.None? ==> r == []
    ensures response.Some? && SemanticHits(response.value).Some? ==> |r| == ClipCount(response.value)
  {
    match response
    case None => []
    case Some(items) => SemanticHits(items).GetOr([])
  }

  // ---- the loops of extract_highlights and search_semantic ----

  /** The clip loop of one result: nothing below the threshold; otherwise one
      entry per clip, reading `clips` and, per clip, `video_id`. */
  method CollectResult(eventType: string, keyword: string, minConfidence: real, item: SearchItem)
    returns (r: Option<seq<ClipHighlight>>)
    ensures r == ResultHighlights(eventType, keyword, minConfidence, item)
  {
    if Confidence(item.score) < minConfidence {
      return Some([]);
    }
    if item.clips.None? {
      return None;
    }
    var clips := item.clips.value;
    var hs := [];
    for k := 0 to |clips|
      invariant k > 0 ==> item.videoId.Some?
      invariant |hs| == k
      invariant forall t :: 0 <= t < k ==> hs[t] == ClipHighlightOf(eventType, keyword, item.score, item.videoId.value, clips[t])
    {
      if item.videoId.None? {
        return None;
      }
      hs := hs + [ClipHighlightOf(eventType, keyword, item.score, item.videoId.value, clips[k])];
    }
    if clips != [] {
      ghost var expected := ResultHighlights(eventType, keyword, minConfidence, item).value;
      assert |expected| == |hs| && forall t :: 0 <= t < |hs| ==> expected[t] == hs[t];
      assert expected == hs;
    }
    r := Some(hs);
  }

  lemma ResultsStep(eventType: string, keyword: string, minConfidence: real, items: seq<SearchItem>, j: nat)
    requires j < |items|
    ensures ResultsHighlights(eventType, keyword, minConfidence, items[j..]) ==
      var here := ResultHighlights(eventType, keyword, minConfidence, items[j]);
      if here.None? then None else Prepend(here.value, ResultsHighlights(eventType, keyword, minConfidence, items[j + 1..]))
  {
    assert items[j..][1..] == items[j + 1..];
  }

  /** The result loop of one query. */
  method CollectResults(eventType: string, keyword: string, minConfidence: real, items: seq<SearchItem>)
    returns (r: Option<seq<ClipHighlight>>)
    ensures r == ResultsHighlights(eventType, keyword, minConfidence, items)
  {
    var hs := [];
    assert items[0..] == items;
    PrependNil(ResultsHighlights(eventType, keyword, minConfidence, items));
    for j := 0 to |items|
      invariant ResultsHighlights(eventType, keyword, minConfidence, items) ==
                Prepend(hs, ResultsHighlights(eventType, keyword, minConfidence, items[j..]))
    {
      ResultsStep(eventType, keyword, minConfidence, items, j);
      var here := CollectResult(eventType, keyword, minConfidence, items[j]);
      if here.None? {
        return None;
      }
      PrependAssoc(hs, here.value, ResultsHighlights(eventType, keyword, minConfidence, items[j + 1..]));
      hs := hs + here.value;
    }
    assert items[|items|..] == [];
    assert hs + [] == hs;
    r := Some(hs);
  }

  lemma ExtractForStep(types: seq<string>, minConfidence: real, search: string -> Option<seq<SearchItem>>, i: nat)
    requires i < |types|
    ensures ExtractFor(types[i..], minConfidence, search) ==
      var keyword := Keywords(types[i])[0];
      var here := if search(keyword).None? then None else ResultsHighlights(types[i], keyword, minConfidence, search(keyword).value);
      if here.None? then None else Prepend(here.value, ExtractFor(types[i + 1..], minConfidence, search))
  {
    assert types[i..][1..] == types[i + 1..];
  }

  /** `extract_highlights`, loop by loop; `search_queries[:1]` is the type's
      first keyword, searched on its own. */
  method RunExtractHighlights(eventTypes: seq<string>, minConfidence: real, search: string -> Option<seq<SearchItem>>)
    returns (r: seq<ClipHighlight>)
    ensures r == ExtractHighlights(eventTypes, minConfidence, search)
  {
    var types := if eventTypes == [] then Keys(SoccerEvents) else eventTypes;
    var hs := [];
    assert types[0..] == types;
    PrependNil(ExtractFor(types, minConfidence, search));
    for i := 0 to |types|
      invariant ExtractFor(types, minConfidence, search) == Prepend(hs, ExtractFor(types[i..], minConfidence, search))
    {
      ExtractForStep(types, minConfidence, search, i);
      var keyword := Keywords(types[i])[0];
      var response := search(keyword);
      if response.None? {
        return [];
      }
      var here := CollectResults(types[i], keyword, minConfidence, response.value);
      if here.None? {
        return [];
      }
      PrependAssoc(hs, here.value, ExtractFor(types[i + 1..], minConfidence, search));
      hs := hs + here.value;
    }
    assert types[|types|..] == [];
    assert hs + [] == hs;
    r := hs;
  }

  /** The clip loop of one semantic-search result. */
  method CollectHits(it: SearchItem) returns (r: Option<seq<SemanticHit>>)
    ensures r == ItemHits(it)
  {
    if it.clips.None? {
      return None;
    }
    var clips := it.clips.value;
    var hs := [];
    for k := 0 to |clips|
      invariant k > 0 ==> it.videoId.Some? && it.confidence.Some?
      invariant |hs| == k
      invariant forall t :: 0 <= t < k ==> hs[t] == HitOf(it, clips[t])
    {
      if it.videoId.None? || it.confidence.None? {
        return None;
      }
      hs := hs + [HitOf(it, clips[k])];
    }
    if clips != [] {
      ghost var expected := ItemHits(it).value;
      assert |expected| == |hs| && forall t :: 0 <= t < |hs| ==> expected[t] == hs[t];
      assert expected == hs;
    }
    r := Some(hs);
  }

  lemma SemanticHitsStep(items: seq<SearchItem>, j: nat)
    requires j < |items|
    ensures SemanticHits(items[j..]) ==
      if ItemHits(items[j]).None? then None else Prepend(ItemHits(items[j]).value, SemanticHits(items[j + 1..]))
  {
    assert items[j..][1..] == items[j + 1..];
  }

  /** `search_semantic`, loop by loop. */
  method RunSearchSemantic(response: Option<seq<SearchItem>>) returns (r: seq<SemanticHit>)
    ensures r == SearchSemantic(response)
  {
    if response.None? {
      return [];
    }
    var items := response.value;
    var hs := [];
    assert items[0..] == items;
    PrependNil(SemanticHits(items));
    for j := 0 to |items|
      invariant SemanticHits(items) == Prepend(hs, SemanticHits(items[j..]))
    {
      SemanticHitsStep(items, j);
      var here := CollectHits(items[j]);
      if here.None? {
        return [];
      }
      PrependAssoc(hs, here.value, SemanticHits(items[j + 1..]));
      hs := hs + here.value;
    }
    assert items[|items|..] == [];
    assert hs + [] == hs;
    r := hs;
  }

  // ---- upload_video ----

  datatype UploadError = MissingSource | BothSources | IndexUnavailable | UploadFailed | IndexingFailed(status: string)

  /** Python truthiness of an optional string. */
  predicate Given(s: Option<string>) { s.Some? && s.value != "" }

  /** `generate_summary`: the text `generate_text` returns, or a fixed sentence
      naming the player when the SDK has no `generate_text` or the call raises
      (`generated` is None); it never raises itself. */
  function GenerateSummary(playerName: string, generated: Option<string>): (r: string)
    ensures generated.Some? ==> r == generated.value
    ensures generated.None? ==> StartsWith(r, "Analysis of " + playerName) && EndsWith(r, "'s performance in the match.")
  {
    match generated
    case Some(text) => text
    case None => "Analysis of " + playerName + "'s performance in the match."
  }

  /** The argument check at the top of `upload_video`. */
  function ValidateSource(videoUrl: Option<string>, videoFilePath: Option<string>): (r: Option<UploadError>)
    ensures r.None? <==> (Given(videoUrl) != Given(videoFilePath))
    ensures r == Some(MissingSource) <==> !Given(videoUrl) && !Given(videoFilePath)
    ensures r == Some(BothSources) <==> Given(videoUrl) && Given(videoFilePath)
  {
    if !Given(videoUrl) && !Given(videoFilePath) then Some(MissingSource)
    else if Given(videoUrl) && Given(videoFilePath) then Some(BothSources)
    else None
  }

  /** The finished indexing task, as `wait_for_done` reports it. */
  datatype Task = Task(status: string, videoId: string)

  /** The index `upload_video` leaves behind: `_ensure_index` runs only for
      valid arguments and an unset index, and its result is kept when it succeeds. */
  function IndexAfterUpload(videoUrl: Option<string>, videoFilePath: Option<string>,
                            indexId: Option<string>, ensuredIndex: Option<string>): (r: Option<string>)
    ensures Given(indexId) || ValidateSource(videoUrl, videoFilePath).Some? ==> r == indexId
    ensures r != indexId ==> r == ensuredIndex && r.Some?
  {
    if ValidateSource(videoUrl, videoFilePath).Some? || Given(indexId) || ensuredIndex.None? then indexId
    else ensuredIndex
  }

  /** What `upload_video` returns, or the error it raises. */
  function UploadOutcome(videoUrl: Option<string>, videoFilePath: Option<string>, indexId: Option<string>,
                         ensuredIndex: Option<string>, task: Option<Task>): (r: Result<string, UploadError>)
    ensures ValidateSource(videoUrl, videoFilePath).Some? ==> r == Err(ValidateSource(videoUrl, videoFilePath).value)
    ensures r.Ok? <==> ValidateSource(videoUrl, videoFilePath).None? && (Given(indexId) || ensuredIndex.Some?)
                       && task.Some? && task.value.status == "ready"
    ensures r.Ok? ==> r.value == task.value.videoId
    ensures r == Err(IndexUnavailable) <==> ValidateSource(videoUrl, videoFilePath).None? && !Given(indexId) && ensuredIndex.None?
    ensures r.Err? && r.error.IndexingFailed? ==> task.Some? && r.error.status == task.value.status != "ready"
  {
    if ValidateSource(videoUrl, videoFilePath).Some? then Err(ValidateSource(videoUrl, videoFilePath).value)
    else if !Given(indexId) && ensuredIndex.None? then Err(IndexUnavailable)
    else match task
      case None => Err(UploadFailed)
      case Some(t) => if t.status == "ready" then Ok(t.videoId) else Err(IndexingFailed(t.status))
  }

  /** The analyzer's mutable state: the index it uploads into. */
  class Analyzer {
    var indexId: Option<string>

    constructor (indexId: Option<string>)
      ensures this.indexId == indexId
    {
      this.indexId := indexId;
    }

    /** `upload_video`. `ensuredIndex` is what `_ensure_index` yields (None: it
        raised) and `task` what the task creation and polling yield (None: the
        SDK raised). */
    method UploadVideo(videoUrl: Option<string>, videoFilePath: Option<string>,
                       ensuredIndex: Option<string>, task: Option<Task>) returns (r: Result<string, UploadError>)
      modifies this
      ensures r == UploadOutcome(videoUrl, videoFilePath, old(indexId), ensuredIndex, task)
      ensures indexId == IndexAfterUpload(videoUrl, videoFilePath, old(indexId), ensuredIndex)
    {
      var invalid := ValidateSource(videoUrl, videoFilePath);
      if invalid.Some? {
        return Err(invalid.value);
      }
      if !Given(indexId) {
        if ensuredIndex.None? {
          return Err(IndexUnavailable);
        }
        indexId := ensuredIndex;
      }
      if task.None? {
        return Err(UploadFailed);
      }
      if task.value.status == "ready" {
        r := Ok(task.value.videoId);
      } else {
        r := Err(IndexingFailed(task.value.status));
      }
    }
  }
}
