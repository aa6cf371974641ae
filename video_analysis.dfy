/** `VideoAnalysisService`: the searchable index built from a video analysis,
    and `extract_highlights` with its mock fallback. */
module VideoAnalysis {
  import opened Wrappers
  import opened Numbers
  import H = Highlights
  import TL = TwelveLabs

  /** `self.supported_events` */
  const SupportedEvents: seq<string> := ["goal", "assist", "shot", "pass", "dribble", "tackle",
                                         "interception", "clearance", "save", "foul", "offside"]

  /** The parts of an analysis the indexer reads: `analysis_id` (None when the
      key is absent), the detected events and the key moments. */
  datatype AnalysisView = AnalysisView(analysisId: Option<string>, events: seq<H.Event>, moments: seq<TL.KeyMoment>)

  datatype IndexedEvent = IndexedEvent(kind: string, start: real, end: real, confidence: real)

  datatype ContentIndex = ContentIndex(videoId: Option<string>, searchableText: seq<string>, tags: seq<string>,
                                       events: seq<IndexedEvent>)

  predicate Described(events: seq<H.Event>) {
    forall i :: 0 <= i < |events| ==> events[i].description.Some?
  }

  /** `index_video_content`; None when an event has no `description`, where
      the source raises `KeyError`. */
  method IndexVideoContent(a: AnalysisView) returns (r: Option<ContentIndex>)
    ensures r.Some? <==> Described(a.events)
    ensures r.Some? ==> r.value.videoId == a.analysisId
    ensures r.Some? ==> |r.value.tags| == |a.events| && |r.value.events| == |a.events|
    ensures r.Some? ==> forall i :: 0 <= i < |a.events| ==>
      && r.value.tags[i] == a.events[i].kind
      && r.value.events[i] == IndexedEvent(a.events[i].kind, a.events[i].start, a.events[i].end, a.events[i].confidence)
    ensures r.Some? ==> |r.value.searchableText| == |a.events| + |a.moments|
    ensures r.Some? ==> forall i :: 0 <= i < |a.events| ==> r.value.searchableText[i] == a.events[i].description.value
    ensures r.Some? ==> forall j :: 0 <= j < |a.moments| ==> r.value.searchableText[|a.events| + j] == a.moments[j].description
  {
    var text: seq<string> := [];
    var tags: seq<string> := [];
    var events: seq<IndexedEvent> := [];
    for i := 0 to |a.events|
      invariant |text| == i && |tags| == i && |events| == i
      invariant forall k :: 0 <= k < i ==> a.events[k].description.Some? && text[k] == a.events[k].description.value
      invariant forall k :: 0 <= k < i ==> tags[k] == a.events[k].kind
      invariant forall k :: 0 <= k < i ==>
        events[k] == IndexedEvent(a.events[k].kind, a.events[k].start, a.events[k].end, a.events[k].confidence)
    {
      var e := a.events[i];
      if e.description.None? {
        return None;
      }
      text := text + [e.description.value];
      tags := tags + [e.kind];
      events := events + [IndexedEvent(e.kind, e.start, e.end, e.confidence)];
    }
    for j := 0 to |a.moments|
      invariant |text| == |a.events| + j
      invariant forall k :: 0 <= k < |a.events| ==> text[k] == a.events[k].description.value
      invariant forall k :: 0 <= k < j ==> text[|a.events| + k] == a.moments[k].description
    {
      text := text + [a.moments[j].description];
    }
    r := Some(ContentIndex(a.analysisId, text, tags, events));
  }

  /** One mock clip of the fallback. */
  datatype MockClip = MockClip(kind: string, start: int, end: int, thumbnailUrl: string, clipUrl: string, confidence: real)

  function MockClipFor(eventType: string): MockClip {
    MockClip(eventType, 100, 120, "/thumbnails/" + eventType + "_clip.jpg", "/clips/" + eventType + "_clip.mp4", 0.9)
  }

  /** The two list shapes `extract_highlights` returns. */
  datatype Extracted = Remote(highlights: seq<TL.ClipHighlight>) | Mock(clips: seq<MockClip>)

  /** The mock loop: one clip for each of the first three event types. */
  method MockHighlights(eventTypes: seq<string>) returns (r: seq<MockClip>)
    ensures |r| == Min(3, |eventTypes|)
    ensures forall i :: 0 <= i < |r| ==> r[i] == MockClipFor(eventTypes[i])
  {
    r := [];
    var firstThree := if |eventTypes| <= 3 then eventTypes else eventTypes[..3];
    for i := 0 to |firstThree|
      invariant |r| == i
      invariant forall k :: 0 <= k < i ==> r[k] == MockClipFor(eventTypes[k])
    {
      r := r + [MockClipFor(firstThree[i])];
    }
  }

  /** `extract_highlights`: the Twelve Labs extraction with minimum confidence
      0.7 when the integration is configured and a video id is given, the mock
      clips otherwise. `search` is the index's search endpoint. */
  method ExtractHighlights(eventTypes: Option<seq<string>>, configured: bool, videoId: Option<string>,
                           search: string -> Option<seq<TL.SearchItem>>) returns (r: Extracted)
    ensures var types := if eventTypes.Some? then eventTypes.value else SupportedEvents;
      if configured && videoId.Some? && videoId.value != "" then r == Remote(TL.ExtractHighlights(types, 0.7, search))
      else r.Mock? && |r.clips| == Min(3, |types|) && forall i :: 0 <= i < |r.clips| ==> r.clips[i] == MockClipFor(types[i])
  {
    var types := if eventTypes.Some? then eventTypes.value else SupportedEvents;
    if configured && videoId.Some? && videoId.value != "" {
      var highlights := TL.RunExtractHighlights(types, 0.7, search);
      r := Remote(highlights);
      return;
    }
    var clips := MockHighlights(types);
    r := Mock(clips);
  }

  /** Whichever path produced them, the clips are of requested event types
      (all of the table's types when the request to Twelve Labs is empty) and
      carry confidence at least 0.7. */
  lemma ExtractedClipsQualify(r: Extracted, eventTypes: Option<seq<string>>, configured: bool, videoId: Option<string>,
                              search: string -> Option<seq<TL.SearchItem>>)
    requires var types := if eventTypes.Some? then eventTypes.value else SupportedEvents;
      if configured && videoId.Some? && videoId.value != "" then r == Remote(TL.ExtractHighlights(types, 0.7, search))
      else r.Mock? && |r.clips| == Min(3, |types|) && forall i :: 0 <= i < |r.clips| ==> r.clips[i] == MockClipFor(types[i])
    ensures var types := if eventTypes.Some? then eventTypes.value else SupportedEvents;
      && (r.Remote? ==> forall h :: h in r.highlights ==> h.kind in TL.RequestedTypes(types) && h.confidence >= 0.7)
      && (r.Mock? ==> |r.clips| <= 3 && forall c :: c in r.clips ==> c.kind in types && c.confidence >= 0.7)
  {
    var types := if eventTypes.Some? then eventTypes.value else SupportedEvents;
    if r.Mock? {
      forall c | c in r.clips ensures c.kind in types && c.confidence >= 0.7 {
        var i :| 0 <= i < |r.clips| && r.clips[i] == c;
        assert types[i] in types;
      }
    }
  }
}
