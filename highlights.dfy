/** The pure decisions of the video processor (backend/video_processor.py):
    recognising YouTube links, bounding the trim length, turning one detected
    event into a highlight record, and choosing the URL a highlight plays. */
module Highlights {
  import opened Wrappers
  import opened Strings
  import opened Numbers
  import Urls

  // ---- YouTube recognition and trimming ----

  const YoutubeDomains: seq<string> := ["youtube.com", "youtu.be", "youtube-nocookie.com"]

  predicate HasYoutubeHost(host: string) {
    EndsWith(host, "youtube.com") || EndsWith(host, "youtu.be") || EndsWith(host, "youtube-nocookie.com")
  }

  /** `_is_youtube_url`: an http(s)-like scheme and a host name ending in one of
      the YouTube domains. */
  function IsYoutubeUrl(url: string): bool {
    var u := Urls.ParseUrl(url);
    StartsWith(u.scheme, "http") && HasYoutubeHost(Urls.HostName(u.netloc))
  }

  lemma NonHttpIsNotYoutube(url: string)
    requires !StartsWith(Urls.ParseUrl(url).scheme, "http")
    ensures !IsYoutubeUrl(url)
  {
  }

  /** The host test is a suffix test against the domain list. */
  lemma YoutubeHostDomains(host: string)
    ensures HasYoutubeHost(host) <==> exists d :: d in YoutubeDomains && EndsWith(host, d)
  {
    if HasYoutubeHost(host) {
      if EndsWith(host, "youtube.com") { assert YoutubeDomains[0] == "youtube.com"; }
      else if EndsWith(host, "youtu.be") { assert YoutubeDomains[1] == "youtu.be"; }
      else { assert YoutubeDomains[2] == "youtube-nocookie.com"; }
    }
  }

  /** On an ordinary absolute link the test is exactly: the scheme starts with
      `http` and the host ends with a YouTube domain. A plain suffix test, so a
      host such as `notyoutube.com` passes too. */
  lemma YoutubeLink(scheme: string, host: string, rest: string)
    requires Urls.PlainScheme(scheme) && Urls.PlainHost(host) && Urls.Safe(rest)
    requires rest == [] || rest[0] in "/?#"
    ensures IsYoutubeUrl(scheme + "://" + host + rest)
        <==> StartsWith(scheme, "http") && exists d :: d in YoutubeDomains && EndsWith(host, d)
  {
    Urls.ParseAbsolute(scheme, host, rest);
    YoutubeHostDomains(host);
  }

  /** The length `_trim_video` passes to the transcoder, or None when it leaves the
      file untouched (`max_seconds <= 0`). */
  function TrimDuration(maxSeconds: int): (r: Option<int>)
    ensures r.None? <==> maxSeconds <= 0
    ensures r.Some? ==> 10 <= r.value <= 7200
    ensures r.Some? && 10 <= maxSeconds <= 7200 ==> r.value == maxSeconds
    ensures r.Some? && maxSeconds < 10 ==> r.value == 10
    ensures maxSeconds > 7200 ==> r == Some(7200)
  {
    if maxSeconds <= 0 then None else Some(Max(10, Min(maxSeconds, 7200)))
  }

  lemma TrimDurationIdempotent(maxSeconds: int)
    requires maxSeconds > 0
    ensures TrimDuration(TrimDuration(maxSeconds).value) == TrimDuration(maxSeconds)
  {
  }

  // ---- events and highlight records ----

  /** A detected event, as the analysis step hands it to the synthesizer. */
  datatype Event = Event(kind: string, start: real, end: real, confidence: real,
                         description: Option<string>, videoId: Option<string>, clipId: Option<string>,
                         clipUrl: Option<string>, videoUrl: Option<string>)

  datatype HighlightType = Strength | Weakness | Neutral {
    function Name(): string {
      match this
      case Strength => "strength"
      case Weakness => "weakness"
      case Neutral => "neutral"
    }
  }

  datatype TimeRange = TimeRange(start: int, end: int)

  /** `AIInsights`: the analysis sentence is kept as the event type and the
      percentage it renders. */
  datatype Insight = Insight(confidence: int, analysisType: string, analysisPercent: real, keyMoments: seq<string>)

  /** `VideoHighlightCreate` */
  datatype HighlightRecord = HighlightRecord(
    id: string, title: string, thumbnail: string, videoUrl: string, duration: string,
    matchName: string, date: int, kind: HighlightType, tags: seq<string>, playerId: string,
    description: string, timestamp: TimeRange, insights: Insight)

  predicate IsStrengthKind(kind: string) {
    kind == "goal" || kind == "assist" || kind == "dribble" || kind == "pass"
  }

  predicate IsFaultKind(kind: string) {
    kind == "foul" || kind == "offside"
  }

  /** Ordered rules, first match wins. */
  function Classify(kind: string, confidence: real): HighlightType {
    if IsStrengthKind(kind) && confidence > 0.75 then Strength
    else if IsFaultKind(kind) || confidence < 0.6 then Weakness
    else Neutral
  }

  function Rank(t: HighlightType): nat {
    match t
    case Weakness => 0
    case Neutral => 1
    case Strength => 2
  }

  /** For a fixed event type, more confidence never gives a worse class. */
  lemma ClassifyMonotone(kind: string, c1: real, c2: real)
    requires c1 <= c2
    ensures Rank(Classify(kind, c1)) <= Rank(Classify(kind, c2))
  {
  }

  /** Weakness comes only from a fault type or a confidence below 0.6. */
  lemma WeaknessCause(kind: string, confidence: real)
    ensures Classify(kind, confidence) == Weakness <==>
              (IsFaultKind(kind) || confidence < 0.6) && !(IsStrengthKind(kind) && confidence > 0.75)
  {
  }

  lemma ClassifyExamples()
    ensures Classify("pass", 0.8) == Strength
    ensures Classify("foul", 0.9) == Weakness
    ensures Classify("foul", 0.5) == Weakness
    ensures Classify("shot", 0.7) == Neutral
  {
  }

  function TitleSuffix(kind: string): string {
    if kind == "goal" then "Goal"
    else if kind == "assist" then "Assist"
    else if kind == "dribble" then "Dribbling Sequence"
    else Title(kind)
  }

  function HighlightTitle(playerName: string, kind: string): (r: string)
    ensures StartsWith(r, playerName + " - ")
    ensures r[|playerName| + 3..] == TitleSuffix(kind)
  {
    playerName + " - " + TitleSuffix(kind)
  }

  /** `f"{d // 60}:{d % 60:02d}"` (Python's floor division and modulo agree with
      Dafny's on a positive divisor). */
  function FormatDuration(d: int): string {
    IntToString(d / 60) + ":" + Pad2(d % 60)
  }

  /** Reads an `M:SS` string back into seconds. */
  function ParseDuration(s: string): Option<int> {
    var i := IndexOf(s, ':');
    if i < |s| && |s| == i + 3 && IsDigit(s[i + 1]) && IsDigit(s[i + 2]) then
      match ParseInt(s[..i])
      case Some(m) => Some(m * 60 + ParseDigits(s[i + 1..]))
      case None => None
    else None
  }

  lemma {:induction false} IntToStringNoColon(n: int)
    ensures ':' !in IntToString(n)
  {
    var s := IntToString(n);
    if n < 0 {
      assert s == "-" + NatToString(-n);
      forall k | 0 <= k < |s| ensures s[k] != ':' {
        if k > 0 { assert s[k] == NatToString(-n)[k - 1]; }
      }
    }
  }

  /** The duration string denotes exactly the number of seconds it was made from. */
  lemma {:induction false} DurationRoundTrip(d: int)
    ensures ParseDuration(FormatDuration(d)) == Some(d)
  {
    var m := IntToString(d / 60);
    var ss := Pad2(d % 60);
    var s := FormatDuration(d);
    assert s == m + (":" + ss);
    IntToStringNoColon(d / 60);
    Urls.IndexOfAppend(m, ":" + ss, ':');
    assert IndexOf(s, ':') == |m|;
    assert s[..|m|] == m;
    assert s[|m| + 1..] == ss;
    ParseIntToString(d / 60);
    ParsePad2(d % 60);
  }

  lemma DurationExample()
    ensures FormatDuration(90 - 75) == "0:15"
  {
    assert NatToString(0) == "0";
    assert NatToString(15) == "15" by {
      assert NatToString(15) == NatToString(1) + [DigitChar(5)];
    }
  }

  function Tags(kind: string, confidence: real): (r: seq<string>)
    ensures 1 <= |r| <= 4 && r[0] == Title(kind)
    ensures ("Excellent" in r[1..]) <==> confidence > 0.9
    ensures |r| == 1 + (if confidence > 0.9 then 1 else 0) + (if kind == "goal" || kind == "assist" then 2 else 0)
    ensures (kind == "goal" || kind == "assist") ==> r[|r| - 2..] == ["Key Moment", "Highlight"]
  {
    var excellent: seq<string> := if confidence > 0.9 then ["Excellent"] else [];
    var key: seq<string> := if kind == "goal" || kind == "assist" then ["Key Moment", "Highlight"] else [];
    var r := [Title(kind)] + excellent + key;
    assert r[1..] == excellent + key;
    assert "Excellent" !in key;
    r
  }

  /** `_create_highlight_from_event`: `id` is the fresh identifier the source draws
      from `uuid4`. */
  function CreateHighlightFromEvent(e: Event, id: string, playerId: string, playerName: string,
                                    videoUrl: string, matchName: string, matchDate: int,
                                    videoId: string): (r: HighlightRecord)
    ensures r.id == id && r.playerId == playerId && r.videoUrl == videoUrl
    ensures r.matchName == matchName && r.date == matchDate
    ensures r.title == HighlightTitle(playerName, e.kind)
    ensures r.kind == Classify(e.kind, e.confidence) && r.tags == Tags(e.kind, e.confidence)
    ensures r.description == e.description.GetOr(playerName + " " + e.kind)
    ensures r.insights.confidence == Trunc(e.confidence * 100.0)
    ensures 0.0 <= e.confidence <= 1.0 ==> 0 <= r.insights.confidence <= 100
    ensures r.insights.analysisType == e.kind && r.insights.analysisPercent == e.confidence * 100.0
    ensures r.insights.keyMoments == [e.kind + " at " + IntToString(r.timestamp.start) + "s"]
    ensures r.thumbnail == "/thumbnails/" + videoId + "_" + IntToString(r.timestamp.start) + ".jpg"
    ensures r.timestamp == TimeRange(RoundHalfEven(e.start), RoundHalfEven(e.end))
  {
    var start := RoundHalfEven(e.start);
    var end := RoundHalfEven(e.end);
    HighlightRecord(
      id := id,
      title := HighlightTitle(playerName, e.kind),
      thumbnail := "/thumbnails/" + videoId + "_" + IntToString(start) + ".jpg",
      videoUrl := videoUrl,
      duration := FormatDuration(end - start),
      matchName := matchName,
      date := matchDate,
      kind := Classify(e.kind, e.confidence),
      tags := Tags(e.kind, e.confidence),
      playerId := playerId,
      description := e.description.GetOr(playerName + " " + e.kind),
      timestamp := TimeRange(start, end),
      insights := Insight(Trunc(e.confidence * 100.0), e.kind, e.confidence * 100.0,
                          [e.kind + " at " + IntToString(start) + "s"]))
  }

  /** A record's time range is the event's, rounded, and its duration string
      is formatted from the length of that range. */
  lemma HighlightTiming(e: Event, id: string, playerId: string, playerName: string, videoUrl: string,
                        matchName: string, matchDate: int, videoId: string)
    ensures var h := CreateHighlightFromEvent(e, id, playerId, playerName, videoUrl, matchName, matchDate, videoId);
      h.timestamp == TimeRange(RoundHalfEven(e.start), RoundHalfEven(e.end))
      && h.duration == FormatDuration(h.timestamp.end - h.timestamp.start)
  {
  }

  /** Reads the second back out of a `"<type> at <start>s"` key moment. */
  function KeyMomentStart(kind: string, moment: string): Option<int> {
    var prefix := kind + " at ";
    if |moment| > |prefix| && StartsWith(moment, prefix) && moment[|moment| - 1] == 's' then
      ParseInt(moment[|prefix|..|moment| - 1])
    else None
  }

  /** A record's single key moment names the event type and gives back the
      record's (rounded) start second. */
  lemma KeyMomentRoundTrip(e: Event, id: string, playerId: string, playerName: string, videoUrl: string,
                           matchName: string, matchDate: int, videoId: string)
    ensures var h := CreateHighlightFromEvent(e, id, playerId, playerName, videoUrl, matchName, matchDate, videoId);
      |h.insights.keyMoments| == 1 && KeyMomentStart(e.kind, h.insights.keyMoments[0]) == Some(h.timestamp.start)
  {
    var h := CreateHighlightFromEvent(e, id, playerId, playerName, videoUrl, matchName, matchDate, videoId);
    var prefix := e.kind + " at ";
    var digits := IntToString(h.timestamp.start);
    var moment := h.insights.keyMoments[0];
    assert moment == prefix + digits + "s";
    assert moment[..|prefix|] == prefix;
    assert moment[|prefix|..|moment| - 1] == digits;
    ParseIntToString(h.timestamp.start);
  }

  // ---- playback URL ----

  /** `event.get("clip_url") or event.get("video_url")`: an empty clip URL counts as absent. */
  function ClipCandidate(e: Event): Option<string> {
    if e.clipUrl.Some? && e.clipUrl.value != "" then e.clipUrl else e.videoUrl
  }

  predicate HasClip(e: Event) {
    var c := ClipCandidate(e);
    c.Some? && !IsBlank(c.value)
  }

  /** The value of the first `v=` part, if any part starts with `v=`. */
  function FirstVParam(parts: seq<string>): (r: Option<string>)
    ensures r.None? <==> forall i :: 0 <= i < |parts| ==> !StartsWith(parts[i], "v=")
    ensures r.Some? ==> exists i :: 0 <= i < |parts| && StartsWith(parts[i], "v=") && r.value == parts[i][2..]
                                    && forall j :: 0 <= j < i ==> !StartsWith(parts[j], "v=")
  {
    if parts == [] then None
    else if StartsWith(parts[0], "v=") then Some(parts[0][2..])
    else
      var r := FirstVParam(parts[1..]);
      assert forall i :: 1 <= i < |parts| ==> parts[i] == parts[1..][i - 1];
      r
  }

  /** The video id `_resolve_event_video_url` extracts from a YouTube link: the
      path of a youtu.be link, otherwise the first `v=` query value. */
  function YoutubeVideoId(source: string): string {
    VideoIdOf(Urls.ParseUrl(source))
  }

  function VideoIdOf(u: Urls.Url): string {
    if EndsWith(Urls.HostName(u.netloc), "youtu.be") then LStrip(u.path, '/')
    else FirstVParam(SplitOn(u.query, '&')).GetOr("")
  }

  function EmbedUrl(id: string): string {
    "https://www.youtube.com/embed/" + id
  }

  /** `_resolve_event_video_url`: the event's own clip, else a YouTube embed link,
      else the source unchanged. */
  function ResolveEventVideoUrl(e: Event, source: string): (r: string)
    ensures HasClip(e) ==> r == ClipCandidate(e).value
    ensures !HasClip(e) && IsYoutubeUrl(source) && YoutubeVideoId(source) != "" ==> r == EmbedUrl(YoutubeVideoId(source))
    ensures !HasClip(e) && !(IsYoutubeUrl(source) && YoutubeVideoId(source) != "") ==> r == source
  {
    if HasClip(e) then ClipCandidate(e).value
    else if source != "" && IsYoutubeUrl(source) && YoutubeVideoId(source) != "" then EmbedUrl(YoutubeVideoId(source))
    else source
  }

  /** Without a clip, the link chosen depends on the source only through its parsed parts. */
  lemma ResolveFromParts(e: Event, source: string, u: Urls.Url)
    requires !HasClip(e) && source != "" && Urls.ParseUrl(source) == u
    ensures ResolveEventVideoUrl(e, source)
         == if StartsWith(u.scheme, "http") && HasYoutubeHost(Urls.HostName(u.netloc)) && VideoIdOf(u) != ""
            then EmbedUrl(VideoIdOf(u)) else source
  {
  }

  /** The link's path piece: `/` followed by the id. */
  lemma {:induction false} ShortLinkParse(host: string, id: string)
    requires Urls.PlainHost(host)
    requires Urls.Safe(id)
    requires forall i :: 0 <= i < |id| ==> id[i] != '/' && id[i] != '?' && id[i] != '#' && id[i] != ';'
    ensures Urls.ParseUrl("https://" + host + "/" + id) == Urls.Url("https", host, "/" + id, "", "")
    ensures Urls.HostName(host) == host
  {
    var rest := "/" + id;
    assert "https://" + host + "/" + id == "https" + "://" + host + rest;
    assert Urls.Safe(rest) && '#' !in rest && '?' !in rest && ';' !in rest by {
      forall i | 0 <= i < |rest|
        ensures !Urls.IsUnsafe(rest[i]) && rest[i] != '#' && rest[i] != '?' && rest[i] != ';'
      {
        if i > 0 { assert rest[i] == id[i - 1]; }
      }
    }
    assert Urls.PlainScheme("https");
    Urls.ParseAbsolute("https", host, rest);
    Urls.SplitRestPath("https", host, rest);
  }

  lemma HttpsIsHttp()
    ensures StartsWith("https", "http")
  {
  }

  /** The id of a youtu.be link is its path without the leading `/`. */
  lemma ShortLinkId(host: string, id: string)
    requires EndsWith(host, "youtu.be") && Urls.HostName(host) == host
    requires forall i :: 0 <= i < |id| ==> id[i] != '/'
    ensures VideoIdOf(Urls.Url("https", host, "/" + id, "", "")) == id
  {
    assert LStrip("/" + id, '/') == LStrip(id, '/');
    assert LStrip(id, '/') == id;
  }

  /** `https://<host>/<id>` with a youtu.be host embeds `<id>`. */
  lemma {:induction false} ResolveShortLink(e: Event, host: string, id: string)
    requires !HasClip(e) && Urls.PlainHost(host) && EndsWith(host, "youtu.be")
    requires id != [] && Urls.Safe(id)
    requires forall i :: 0 <= i < |id| ==> id[i] != '/' && id[i] != '?' && id[i] != '#' && id[i] != ';'
    ensures ResolveEventVideoUrl(e, "https://" + host + "/" + id) == EmbedUrl(id)
  {
    ShortLinkParse(host, id);
    ShortLinkId(host, id);
    HttpsIsHttp();
    ResolveFromParts(e, "https://" + host + "/" + id, Urls.Url("https", host, "/" + id, "", ""));
  }

  lemma WatchPathPlain()
    ensures '#' !in "/watch" && '?' !in "/watch" && ';' !in "/watch"
  {
  }

  lemma {:induction false} WatchLinkParse(host: string, query: string)
    requires Urls.PlainHost(host)
    requires Urls.Safe(query) && '#' !in query
    ensures Urls.ParseUrl("https://" + host + "/watch?" + query) == Urls.Url("https", host, "/watch", query, "")
    ensures Urls.HostName(host) == host
  {
    var rest := "/watch" + "?" + query;
    assert rest == "/watch?" + query;
    assert "https://" + host + "/watch?" + query == "https" + "://" + host + rest;
    assert Urls.Safe("/watch?");
    Urls.SafeAppend("/watch?", query);
    assert rest[0] == '/';
    assert Urls.PlainScheme("https");
    Urls.ParseAbsolute("https", host, rest);
    WatchPathPlain();
    Urls.SplitRestQuery("https", host, "/watch", query);
  }

  /** A host ending in youtube.com is a YouTube host but not a youtu.be one. */
  lemma WatchHost(host: string)
    requires EndsWith(host, "youtube.com")
    ensures HasYoutubeHost(host) && !EndsWith(host, "youtu.be")
  {
    assert host[|host| - 1] == 'm' by {
      assert host[|host| - 11..][10] == host[|host| - 1];
    }
  }

  /** `https://<host>/watch?<query>` with a YouTube host embeds the first `v=` value,
      and is returned unchanged when there is none or it is empty. */
  lemma {:induction false} ResolveWatchLink(e: Event, host: string, query: string)
    requires !HasClip(e) && Urls.PlainHost(host) && EndsWith(host, "youtube.com")
    requires Urls.Safe(query) && '#' !in query
    ensures var source := "https://" + host + "/watch?" + query;
      var v := FirstVParam(SplitOn(query, '&'));
      ResolveEventVideoUrl(e, source) == if v.Some? && v.value != "" then EmbedUrl(v.value) else source
  {
    WatchLinkParse(host, query);
    WatchHost(host);
    HttpsIsHttp();
    ResolveFromParts(e, "https://" + host + "/watch?" + query, Urls.Url("https", host, "/watch", query, ""));
  }

  lemma FirstVParamStep(parts: seq<string>, i: nat)
    requires i < |parts| && !StartsWith(parts[i], "v=")
    ensures FirstVParam(parts[i..]) == FirstVParam(parts[i + 1..])
  {
    assert parts[i..][1..] == parts[i + 1..];
  }

  /** The loop over the query's `&`-separated parts, left at the first part
      that starts with `v=`. */
  method FirstVValue(parts: seq<string>) returns (videoId: string)
    ensures videoId == FirstVParam(parts).GetOr("")
  {
    videoId := "";
    var i := 0;
    assert parts[0..] == parts;
    while i < |parts|
      invariant 0 <= i <= |parts|
      invariant FirstVParam(parts[i..]) == FirstVParam(parts)
      invariant videoId == ""
    {
      if StartsWith(parts[i], "v=") {
        videoId := parts[i][2..];
        break;
      }
      FirstVParamStep(parts, i);
      i := i + 1;
    }
  }

  /** The video id of a parsed YouTube link. */
  method ParsedVideoId(parsed: Urls.Url) returns (videoId: string)
    ensures videoId == VideoIdOf(parsed)
  {
    if EndsWith(Urls.HostName(parsed.netloc), "youtu.be") {
      videoId := LStrip(parsed.path, '/');
    } else {
      videoId := FirstVValue(SplitOn(parsed.query, '&'));
    }
  }

  /** `_resolve_event_video_url`, step by step. */
  method ResolveVideoUrl(e: Event, source: string) returns (url: string)
    ensures url == ResolveEventVideoUrl(e, source)
  {
    var clip := ClipCandidate(e);
    if clip.Some? && !IsBlank(clip.value) {
      return clip.value;
    }
    if source != "" && IsYoutubeUrl(source) {
      var videoId := ParsedVideoId(Urls.ParseUrl(source));
      if videoId != "" {
        return EmbedUrl(videoId);
      }
    }
    url := source;
  }
}
