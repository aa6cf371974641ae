/** The orchestration in backend/video_processor.py: processing a match video
    for a player (upload, analysis, highlight creation, with a fixed simulated
    fallback and temporary-file cleanup) and saving highlights extracted from an
    indexed video. The database, the download, the Twelve Labs calls, the clock
    and `uuid4` are inputs (`Services`); the highlights table and the temporary
    directories are small classes. */
module Pipeline {
  import opened Wrappers
  import opened Strings
  import opened Numbers
  import opened Sorting
  import H = Highlights
  import TL = TwelveLabs
  import Urls

  datatype Player = Player(id: string, name: string)

  datatype Failure = PlayerNotFound(playerId: string) | NotConfigured

  /** The outcomes of everything the pipeline cannot compute itself. */
  datatype Services = Services(
    player: Option<Player>,                          // the database lookup of the player id
    configured: bool,                                // a Twelve Labs analyzer is available
    download: Option<string>,                        // the downloaded file (None: the download raised)
    ensuredIndex: Option<string>,                    // `_ensure_index`
    task: Option<TL.Task>,                           // the indexing task
    search: string -> Option<TL.Pager<TL.SearchItem>>,
    generated: Option<string>,                       // `generate_text` (None: unavailable or raised)
    simulatedUuid: string,                           // the `uuid4` of a simulated run
    ids: nat -> string,                              // the `uuid4` of the i-th highlight built
    persists: nat -> bool)                           // whether the i-th `create_highlight` succeeds

  /** The highlights table. */
  class HighlightStore {
    var records: seq<H.HighlightRecord>

    constructor ()
      ensures records == []
    {
      records := [];
    }

    /** `create_highlight`: appends the record, or raises and leaves the table as it was. */
    method Create(h: H.HighlightRecord, persists: bool) returns (ok: bool)
      modifies this
      ensures ok == persists
      ensures records == old(records) + (if persists then [h] else [])
    {
      if persists {
        records := records + [h];
      }
      ok := persists;
    }
  }

  /** The temporary directories of downloaded videos. */
  class Workspace {
    var temps: set<string>
    const keepTemp: bool    // the `KEEP_YT_TEMP` switch

    constructor (keepTemp: bool)
      ensures temps == {} && this.keepTemp == keepTemp
    {
      temps := {};
      this.keepTemp := keepTemp;
    }

    /** `_download_youtube_video`: a failed download removes its own directory. */
    method Download(outcome: Option<string>) returns (path: Option<string>)
      modifies this
      ensures path == outcome
      ensures temps == old(temps) + (if outcome.Some? then {outcome.value} else {})
    {
      path := outcome;
      if outcome.Some? {
        temps := temps + {outcome.value};
      }
    }

    /** `_cleanup_file` */
    method Cleanup(path: string)
      modifies this
      ensures temps == if keepTemp then old(temps) else old(temps) - {path}
    {
      if !keepTemp {
        temps := temps - {path};
      }
    }

    /** The `finally` block: the downloaded file, if there is one, is cleaned up. */
    method Release(downloadPath: Option<string>)
      modifies this
      ensures temps == if downloadPath.Some? && !keepTemp then old(temps) - {downloadPath.value} else old(temps)
    {
      if downloadPath.Some? {
        Cleanup(downloadPath.value);
      }
    }
  }

  /** The records whose insert succeeds, in order. */
  function Survivors(recs: seq<H.HighlightRecord>, persists: nat -> bool): (r: seq<H.HighlightRecord>)
    ensures |r| <= |recs|
    ensures forall h :: h in r ==> h in recs
    ensures (forall i :: 0 <= i < |recs| ==> persists(i)) ==> r == recs
    decreases |recs|
  {
    if recs == [] then []
    else
      var init := recs[..|recs| - 1];
      assert forall h :: h in init ==> h in recs;
      Survivors(init, persists) + (if persists(|recs| - 1) then [recs[|recs| - 1]] else [])
  }

  /** The per-highlight loop shared by every path: each record gets one insert
      attempt and a failed insert is skipped. */
  method SaveAll(store: HighlightStore, recs: seq<H.HighlightRecord>, persists: nat -> bool)
    returns (saved: seq<H.HighlightRecord>)
    modifies store
    ensures saved == Survivors(recs, persists)
    ensures store.records == old(store.records) + saved
  {
    saved := [];
    var i := 0;
    while i < |recs|
      invariant 0 <= i <= |recs|
      invariant saved == Survivors(recs[..i], persists)
      invariant store.records == old(store.records) + saved
    {
      var ok := store.Create(recs[i], persists(i));
      assert recs[..i + 1][..i] == recs[..i];
      if ok {
        saved := saved + [recs[i]];
      }
      i := i + 1;
    }
    assert recs[..i] == recs;
  }

  // ---- the simulated run ----

  function SimulatedVideoId(uuid: string): string { "simulated-" + uuid }

  function SimulatedEvent(kind: string, start: real, end: real, confidence: real, description: string, videoId: string): H.Event {
    H.Event(kind, start, end, confidence, Some(description), Some(videoId), None, None, None)
  }

  /** The three fixed events of `_simulate_processing`. */
  function SimulatedEvents(playerName: string, videoId: string): (r: seq<H.Event>)
    ensures |r| == 3
  {
    [SimulatedEvent("goal", 75.0, 90.0, 0.92, playerName + " scores from inside the box", videoId),
     SimulatedEvent("assist", 180.0, 195.0, 0.88, playerName + " provides a key pass leading to a goal", videoId),
     SimulatedEvent("dribble", 260.0, 275.0, 0.84, playerName + " beats two defenders", videoId)]
  }

  function SimulatedMoment(e: H.Event): TL.KeyMoment {
    TL.KeyMoment(e.start, e.description.GetOr(""), e.confidence, e.kind)
  }

  function SimulatedAnalysis(playerName: string, videoId: string): TL.Analysis {
    var events := SimulatedEvents(playerName, videoId);
    TL.Analysis(videoId, "simulated", events, seq(3, i requires 0 <= i < 3 => SimulatedMoment(events[i])),
                TL.Metrics(0.9, 0.6, 0.75), |events|)
  }

  /** The AI summary of a run: the fixed sentence of a simulated run, or the text
      `generate_summary` returned. */
  datatype Summary = SimulatedSummary(playerName: string) | Generated(text: string) {
    function Text(): string {
      match this
      case SimulatedSummary(name) =>
        "Simulated analysis for " + name + ": influential performance with goals, assists, and ball progression."
      case Generated(text) => text
    }
  }

  /** The closing message of a run. */
  datatype Note = SimulatedNote | CreatedNote(count: nat) {
    function Text(): string {
      match this
      case SimulatedNote => "Twelve Labs unavailable. Returned simulated analysis and highlights for local testing."
      case CreatedNote(n) => "Successfully processed video. Created " + IntToString(n) + " highlights."
    }
  }

  /** The result dictionary of `process_video_for_player`. */
  datatype Outcome = Outcome(status: string, videoId: string, playerId: string, playerName: string,
                             matchName: string, analysis: TL.Analysis, aiSummary: Summary,
                             highlightsCreated: nat, highlights: seq<H.HighlightRecord>, message: Note)

  /** The highlight records built from `events` in order; the i-th takes the
      i-th fresh id. */
  function Records(events: seq<H.Event>, ids: nat -> string, playerId: string, playerName: string,
                   videoUrl: H.Event -> string, matchName: string, matchDate: int, videoId: string): (r: seq<H.HighlightRecord>)
    ensures |r| == |events|
    ensures forall i :: 0 <= i < |events| ==>
      r[i] == H.CreateHighlightFromEvent(events[i], ids(i), playerId, playerName, videoUrl(events[i]), matchName, matchDate, videoId)
  {
    seq(|events|, i requires 0 <= i < |events| =>
      H.CreateHighlightFromEvent(events[i], ids(i), playerId, playerName, videoUrl(events[i]), matchName, matchDate, videoId))
  }

  function SimulatedRecords(player: Player, videoUrl: string, matchName: string, matchDate: int, o: Services): (r: seq<H.HighlightRecord>)
    ensures |r| == 3
  {
    var videoId := SimulatedVideoId(o.simulatedUuid);
    Records(SimulatedEvents(player.name, videoId), o.ids, player.id, player.name, _ => videoUrl, matchName, matchDate, videoId)
  }

  function SimulatedOutcome(player: Player, videoUrl: string, matchName: string, matchDate: int,
                            autoCreate: bool, o: Services): (r: Outcome)
    ensures r.highlightsCreated == |r.highlights|
    ensures autoCreate ==> r.highlights == Survivors(SimulatedRecords(player, videoUrl, matchName, matchDate, o), o.persists)
    ensures !autoCreate ==> r.highlights == []
  {
    var videoId := SimulatedVideoId(o.simulatedUuid);
    var saved := if autoCreate then Survivors(SimulatedRecords(player, videoUrl, matchName, matchDate, o), o.persists) else [];
    Outcome("success", videoId, player.id, player.name, matchName, SimulatedAnalysis(player.name, videoId),
            SimulatedSummary(player.name), |saved|, saved, SimulatedNote)
  }

  /** A confident strength timed on whole seconds fifteen seconds apart. */
  lemma FifteenSecondStrength(e: H.Event, id: string, playerId: string, playerName: string, videoUrl: string,
                              matchName: string, matchDate: int, videoId: string, start: int)
    requires H.IsStrengthKind(e.kind) && e.confidence > 0.75
    requires e.start == start as real && e.end == (start + 15) as real
    ensures var h := H.CreateHighlightFromEvent(e, id, playerId, playerName, videoUrl, matchName, matchDate, videoId);
      h.kind == H.Strength && h.duration == "0:15" && h.videoUrl == videoUrl && h.timestamp == H.TimeRange(start, start + 15)
  {
    RoundWhole(start);
    RoundWhole(start + 15);
    H.DurationExample();
  }

  /** The start second of the i-th simulated event. */
  function SimulatedStart(i: nat): int
    requires i < 3
  {
    [75, 180, 260][i]
  }

  /** The i-th simulated highlight is a strength fifteen seconds long, played
      from the source link as given. */
  lemma SimulatedHighlightAt(player: Player, videoUrl: string, matchName: string, matchDate: int, o: Services, i: nat)
    requires i < 3
    ensures var h := SimulatedRecords(player, videoUrl, matchName, matchDate, o)[i];
      h.kind == H.Strength && h.duration == "0:15" && h.videoUrl == videoUrl
      && h.timestamp == H.TimeRange(SimulatedStart(i), SimulatedStart(i) + 15)
  {
    var videoId := SimulatedVideoId(o.simulatedUuid);
    var events := SimulatedEvents(player.name, videoId);
    FifteenSecondStrength(events[i], o.ids(i), player.id, player.name, videoUrl, matchName, matchDate, videoId, SimulatedStart(i));
  }

  /** The simulated highlights are the three fixed strengths, each fifteen
      seconds long, all played from the source link as given. */
  lemma SimulatedHighlights(player: Player, videoUrl: string, matchName: string, matchDate: int, o: Services)
    ensures var recs := SimulatedRecords(player, videoUrl, matchName, matchDate, o);
      && |recs| == 3
      && (forall i :: 0 <= i < 3 ==> recs[i].kind == H.Strength && recs[i].duration == "0:15" && recs[i].videoUrl == videoUrl)
      && recs[0].timestamp == H.TimeRange(75, 90) && recs[1].timestamp == H.TimeRange(180, 195)
      && recs[2].timestamp == H.TimeRange(260, 275)
  {
    var recs := SimulatedRecords(player, videoUrl, matchName, matchDate, o);
    forall i | 0 <= i < 3
      ensures recs[i].kind == H.Strength && recs[i].duration == "0:15" && recs[i].videoUrl == videoUrl
      ensures recs[i].timestamp == H.TimeRange(SimulatedStart(i), SimulatedStart(i) + 15)
    {
      SimulatedHighlightAt(player, videoUrl, matchName, matchDate, o, i);
    }
    assert SimulatedStart(0) == 75 && SimulatedStart(1) == 180 && SimulatedStart(2) == 260;
  }

  /** `_simulate_processing` */
  method SimulateProcessing(store: HighlightStore, player: Player, videoUrl: string, matchName: string,
                            matchDate: int, autoCreate: bool, o: Services) returns (out: Outcome)
    modifies store
    ensures out == SimulatedOutcome(player, videoUrl, matchName, matchDate, autoCreate, o)
    ensures store.records == old(store.records) + out.highlights
  {
    var videoId := SimulatedVideoId(o.simulatedUuid);
    var saved: seq<H.HighlightRecord> := [];
    if autoCreate {
      saved := SaveAll(store, SimulatedRecords(player, videoUrl, matchName, matchDate, o), o.persists);
    }
    out := Outcome("success", videoId, player.id, player.name, matchName, SimulatedAnalysis(player.name, videoId),
                   SimulatedSummary(player.name), |saved|, saved, SimulatedNote);
  }

  // ---- the Twelve Labs run ----

  /** The event types `process_video_for_player` asks for. */
  const RealTypes: seq<string> := ["goal", "assist", "dribble", "pass", "shot", "tackle"]

  function Confidence(e: H.Event): real { e.confidence }

  /** The at most 20 events of highest confidence, after a stable sort. */
  function TopEvents(events: seq<H.Event>): seq<H.Event> {
    TL.Prefix(SortDesc(events, Confidence), 20)
  }

  lemma TopEventsCorrect(events: seq<H.Event>)
    ensures |TopEvents(events)| == Min(20, |events|)
    ensures SortedDesc(TopEvents(events), Confidence)
    ensures multiset(TopEvents(events)) <= multiset(events)
    ensures forall e, e' :: e in TopEvents(events) && e' in multiset(events) - multiset(TopEvents(events)) ==>
      e'.confidence <= e.confidence
  {
    var top := TopEvents(events);
    var k := Min(20, |events|);
    assert top == SortDesc(events, Confidence)[..k];
    TopOf(events, Confidence, k);
    forall e, e' | e in top && e' in multiset(events) - multiset(top) ensures e'.confidence <= e.confidence {
      assert Confidence(e') <= Confidence(e);
    }
  }

  /** Upload then analysis then summary; None when the upload or the analysis raises. */
  datatype RealRun = RealRun(videoId: string, analysis: TL.Analysis, summary: string)

  /* `youtube` below is `_is_youtube_url(video_url)`, which the pipeline tests
     once: a YouTube link is downloaded and the file uploaded, any other link is
     uploaded by URL. */

  function UploadArgs(videoUrl: string, youtube: bool, o: Services): (Option<string>, Option<string>) {
    if youtube then (None, o.download) else (Some(videoUrl), None)
  }

  function RunTwelveLabs(player: Player, videoUrl: string, youtube: bool, indexId: Option<string>, o: Services): Option<RealRun> {
    if youtube && o.download.None? then None
    else
      var (url, file) := UploadArgs(videoUrl, youtube, o);
      RunUploaded(player, url, file, indexId, o)
  }

  /** Upload from `url` or `file`, then analysis, then summary (which cannot fail). */
  function RunUploaded(player: Player, url: Option<string>, file: Option<string>, indexId: Option<string>,
                       o: Services): Option<RealRun> {
    match TL.UploadOutcome(url, file, indexId, o.ensuredIndex, o.task)
    case Err(_) => None
    case Ok(videoId) =>
      match TL.AnalyzeVideo(videoId, player.name, RealTypes, o.search)
      case None => None
      case Some(a) => Some(RealRun(videoId, a, TL.GenerateSummary(player.name, o.generated)))
  }

  function RealRecords(player: Player, playerId: string, videoUrl: string, matchName: string, matchDate: int,
                       run: RealRun, o: Services): seq<H.HighlightRecord> {
    Records(TopEvents(run.analysis.detectedEvents), o.ids, playerId, player.name,
            e => H.ResolveEventVideoUrl(e, videoUrl), matchName, matchDate, run.videoId)
  }

  function RealOutcome(player: Player, playerId: string, videoUrl: string, matchName: string, matchDate: int,
                       autoCreate: bool, run: RealRun, o: Services): (r: Outcome)
    ensures r.highlightsCreated == |r.highlights| <= 20
    ensures r.status == "success" && r.videoId == run.videoId && r.analysis == run.analysis
  {
    var saved := if autoCreate && run.analysis.detectedEvents != []
                 then Survivors(RealRecords(player, playerId, videoUrl, matchName, matchDate, run, o), o.persists)
                 else [];
    TopEventsCorrect(run.analysis.detectedEvents);
    Outcome("success", run.videoId, playerId, player.name, matchName, run.analysis, Generated(run.summary),
            |saved|, saved, CreatedNote(|saved|))
  }

  lemma RealTypesAreNotFaults()
    ensures forall k :: k in RealTypes ==> !H.IsFaultKind(k)
  {
  }

  /** Records built from confident, non-fault events are never weaknesses. */
  lemma RecordsNotWeak(events: seq<H.Event>, ids: nat -> string, playerId: string, playerName: string,
                       videoUrl: H.Event -> string, matchName: string, matchDate: int, videoId: string)
    requires forall e :: e in events ==> e.confidence > 0.7 && !H.IsFaultKind(e.kind)
    ensures var recs := Records(events, ids, playerId, playerName, videoUrl, matchName, matchDate, videoId);
      forall i :: 0 <= i < |recs| ==> recs[i].kind != H.Weakness
  {
    var recs := Records(events, ids, playerId, playerName, videoUrl, matchName, matchDate, videoId);
    forall i | 0 <= i < |recs| ensures recs[i].kind != H.Weakness {
      assert events[i] in events;
    }
  }

  /** The top events are among the events. */
  lemma TopEventsFrom(events: seq<H.Event>)
    ensures forall e :: e in TopEvents(events) ==> e in events
  {
    TopEventsCorrect(events);
    forall e | e in TopEvents(events) ensures e in events {
      assert e in multiset(TopEvents(events));
    }
  }

  /** Records built from the top events of confident, non-fault events are
      never weaknesses. */
  lemma TopRecordsNotWeak(events: seq<H.Event>, ids: nat -> string, playerId: string, playerName: string,
                          videoUrl: H.Event -> string, matchName: string, matchDate: int, videoId: string)
    requires forall e :: e in events ==> e.confidence > 0.7 && !H.IsFaultKind(e.kind)
    ensures var recs := Records(TopEvents(events), ids, playerId, playerName, videoUrl, matchName, matchDate, videoId);
      forall i :: 0 <= i < |recs| ==> recs[i].kind != H.Weakness
  {
    TopEventsFrom(events);
    RecordsNotWeak(TopEvents(events), ids, playerId, playerName, videoUrl, matchName, matchDate, videoId);
  }

  /** Every highlight of the Twelve Labs path comes from one of the 20 events of
      highest confidence and is never a weakness: its score was above 70 and no
      requested type is a fault. */
  lemma RealHighlightsNotWeak(player: Player, playerId: string, videoUrl: string, matchName: string,
                              matchDate: int, youtube: bool, indexId: Option<string>, o: Services)
    requires RunTwelveLabs(player, videoUrl, youtube, indexId, o).Some?
    ensures var run := RunTwelveLabs(player, videoUrl, youtube, indexId, o).value;
      var recs := RealRecords(player, playerId, videoUrl, matchName, matchDate, run, o);
      forall i :: 0 <= i < |recs| ==> recs[i].kind != H.Weakness
  {
    var run := RunTwelveLabs(player, videoUrl, youtube, indexId, o).value;
    var (url, file) := UploadArgs(videoUrl, youtube, o);
    var videoId := TL.UploadOutcome(url, file, indexId, o.ensuredIndex, o.task).value;
    assert TL.AnalyzeVideo(videoId, player.name, RealTypes, o.search) == Some(run.analysis);
    TL.AnalyzeVideoEvents(videoId, player.name, RealTypes, o.search);
    RealTypesAreNotFaults();
    TopRecordsNotWeak(run.analysis.detectedEvents, o.ids, playerId, player.name,
                      e => H.ResolveEventVideoUrl(e, videoUrl), matchName, matchDate, run.videoId);
  }

  /** The file a run with Twelve Labs configured downloads: only a YouTube link
      is downloaded, and the download may fail. */
  function Fetched(youtube: bool, o: Services): Option<string> {
    if youtube then o.download else None
  }

  /** The file `process_video_for_player` downloads, if any: none when the
      link-type test itself raises. */
  function Downloaded(player: Option<Player>, videoUrl: string, o: Services): Option<string> {
    if player.Some? && o.configured && !Urls.ParseRaises(videoUrl) then Fetched(H.IsYoutubeUrl(videoUrl), o) else None
  }

  /** The temporary directories left once the `finally` block has run: a
      downloaded file is removed again unless `KEEP_YT_TEMP` is set. */
  function TempsAfter(temps: set<string>, keepTemp: bool, downloaded: Option<string>): (r: set<string>)
    ensures !keepTemp && (downloaded.None? || downloaded.value !in temps) ==> r == temps
    ensures keepTemp ==> r == temps + (if downloaded.Some? then {downloaded.value} else {})
  {
    match downloaded
    case None => temps
    case Some(p) => if keepTemp then temps + {p} else temps - {p}
  }

  /** Downloading and then releasing a file leaves the directories `TempsAfter` names. */
  lemma DownloadThenRelease(temps: set<string>, keepTemp: bool, downloaded: Option<string>)
    ensures var held := temps + (if downloaded.Some? then {downloaded.value} else {});
      TempsAfter(temps, keepTemp, downloaded) == if downloaded.Some? && !keepTemp then held - {downloaded.value} else held
  {
  }

  /** The index the analyzer holds after a configured run: only a run that
      reaches the upload can set it. */
  function IndexAfterRun(videoUrl: string, youtube: bool, o: Services, indexId: Option<string>): Option<string> {
    if youtube && o.download.None? then indexId
    else
      var (url, file) := UploadArgs(videoUrl, youtube, o);
      TL.IndexAfterUpload(url, file, indexId, o.ensuredIndex)
  }

  /** The index the analyzer holds after `process_video_for_player`. */
  function IndexAfter(player: Option<Player>, videoUrl: string, o: Services, indexId: Option<string>): Option<string> {
    if player.Some? && o.configured && !Urls.ParseRaises(videoUrl) then IndexAfterRun(videoUrl, H.IsYoutubeUrl(videoUrl), o, indexId)
    else indexId
  }

  /** The `try` body up to the summary: download when the link is a YouTube
      link, upload, analyze, summarize. */
  method UploadAndAnalyze(ws: Workspace, analyzer: TL.Analyzer, o: Services, player: Player, videoUrl: string,
                          youtube: bool)
    returns (run: Option<RealRun>, downloadPath: Option<string>)
    modifies ws, analyzer
    ensures run == RunTwelveLabs(player, videoUrl, youtube, old(analyzer.indexId), o)
    ensures downloadPath == Fetched(youtube, o)
    ensures ws.temps == old(ws.temps) + (if downloadPath.Some? then {downloadPath.value} else {})
    ensures analyzer.indexId == IndexAfterRun(videoUrl, youtube, o, old(analyzer.indexId))
  {
    downloadPath := None;
    var uploadUrl: Option<string> := Some(videoUrl);
    if youtube {
      downloadPath := ws.Download(o.download);
      if downloadPath.None? {
        return None, None;
      }
      uploadUrl := None;
    }
    run := UploadAnalyzeSummarize(analyzer, o, player, uploadUrl, downloadPath);
  }

  /** Upload, analyze, summarize; None as soon as the upload or the analysis raises. */
  method UploadAnalyzeSummarize(analyzer: TL.Analyzer, o: Services, player: Player, url: Option<string>,
                                file: Option<string>) returns (run: Option<RealRun>)
    modifies analyzer
    ensures run == RunUploaded(player, url, file, old(analyzer.indexId), o)
    ensures analyzer.indexId == TL.IndexAfterUpload(url, file, old(analyzer.indexId), o.ensuredIndex)
  {
    var uploaded := analyzer.UploadVideo(url, file, o.ensuredIndex, o.task);
    if uploaded.Err? {
      return None;
    }
    var analysis := TL.RunAnalyzeVideo(uploaded.value, player.name, RealTypes, o.search);
    if analysis.None? {
      return None;
    }
    var summary := TL.GenerateSummary(player.name, o.generated);
    run := Some(RealRun(uploaded.value, analysis.value, summary));
  }

  /** Step 4 of the Twelve Labs path: the top events become highlights. */
  method SaveRealHighlights(store: HighlightStore, player: Player, playerId: string, videoUrl: string, matchName: string,
                            matchDate: int, autoCreate: bool, run: RealRun, o: Services) returns (out: Outcome)
    modifies store
    ensures out == RealOutcome(player, playerId, videoUrl, matchName, matchDate, autoCreate, run, o)
    ensures store.records == old(store.records) + out.highlights
  {
    var saved: seq<H.HighlightRecord> := [];
    if autoCreate && run.analysis.detectedEvents != [] {
      saved := SaveAll(store, RealRecords(player, playerId, videoUrl, matchName, matchDate, run, o), o.persists);
    }
    out := Outcome("success", run.videoId, playerId, player.name, matchName, run.analysis, Generated(run.summary),
                   |saved|, saved, CreatedNote(|saved|));
  }

  /** The real outcome when every step succeeded, the simulated one otherwise. */
  function FinalOutcome(player: Player, playerId: string, videoUrl: string, matchName: string, matchDate: int,
                        autoCreate: bool, run: Option<RealRun>, o: Services): Outcome {
    match run
    case Some(rr) => RealOutcome(player, playerId, videoUrl, matchName, matchDate, autoCreate, rr, o)
    case None => SimulatedOutcome(player, videoUrl, matchName, matchDate, autoCreate, o)
  }

  /** The rest of the `try` (step 4), or the `except` fallback. */
  method Finish(store: HighlightStore, player: Player, playerId: string, videoUrl: string, matchName: string,
                matchDate: int, autoCreate: bool, run: Option<RealRun>, o: Services) returns (out: Outcome)
    modifies store
    ensures out == FinalOutcome(player, playerId, videoUrl, matchName, matchDate, autoCreate, run, o)
    ensures store.records == old(store.records) + out.highlights
  {
    if run.None? {
      out := SimulateProcessing(store, player, videoUrl, matchName, matchDate, autoCreate, o);
    } else {
      out := SaveRealHighlights(store, player, playerId, videoUrl, matchName, matchDate, autoCreate, run.value, o);
    }
  }

  /** Step 4 or the fallback, then the `finally` block. */
  method FinishAndRelease(store: HighlightStore, ws: Workspace, player: Player, playerId: string, videoUrl: string,
                          matchName: string, matchDate: int, autoCreate: bool, run: Option<RealRun>,
                          downloadPath: Option<string>, o: Services) returns (out: Outcome)
    modifies store, ws
    ensures out == FinalOutcome(player, playerId, videoUrl, matchName, matchDate, autoCreate, run, o)
    ensures store.records == old(store.records) + out.highlights
    ensures ws.temps == if downloadPath.Some? && !ws.keepTemp then old(ws.temps) - {downloadPath.value} else old(ws.temps)
  {
    out := Finish(store, player, playerId, videoUrl, matchName, matchDate, autoCreate, run, o);
    ws.Release(downloadPath);
  }

  /** The `try`/`except`/`finally` of `process_video_for_player`. */
  method ProcessConfigured(store: HighlightStore, ws: Workspace, analyzer: TL.Analyzer, o: Services, player: Player,
                           videoUrl: string, youtube: bool, playerId: string, matchName: string, matchDate: int,
                           autoCreate: bool)
    returns (out: Outcome)
    modifies store, ws, analyzer
    ensures out == FinalOutcome(player, playerId, videoUrl, matchName, matchDate, autoCreate,
                                RunTwelveLabs(player, videoUrl, youtube, old(analyzer.indexId), o), o)
    ensures store.records == old(store.records) + out.highlights
    ensures analyzer.indexId == IndexAfterRun(videoUrl, youtube, o, old(analyzer.indexId))
    ensures ws.temps == TempsAfter(old(ws.temps), ws.keepTemp, Fetched(youtube, o))
  {
    DownloadThenRelease(ws.temps, ws.keepTemp, Fetched(youtube, o));
    ghost var records := store.records;
    var run, downloadPath := UploadAndAnalyze(ws, analyzer, o, player, videoUrl, youtube);
    assert store.records == records;
    ghost var index := analyzer.indexId;
    out := FinishAndRelease(store, ws, player, playerId, videoUrl, matchName, matchDate, autoCreate, run, downloadPath, o);
    assert analyzer.indexId == index;
  }

  /** `process_video_for_player`. */
  method ProcessVideoForPlayer(store: HighlightStore, ws: Workspace, analyzer: TL.Analyzer, o: Services,
                               videoUrl: string, playerId: string, matchName: string, matchDate: int,
                               autoCreate: bool) returns (r: Result<Outcome, Failure>)
    modifies store, ws, analyzer
    ensures o.player.None? ==> r == Err(PlayerNotFound(playerId))
    ensures o.player.None? ==> store.records == old(store.records) && ws.temps == old(ws.temps)
                               && analyzer.indexId == old(analyzer.indexId)
    ensures o.player.Some? && !o.configured ==>
      r == Ok(SimulatedOutcome(o.player.value, videoUrl, matchName, matchDate, autoCreate, o))
    ensures o.player.Some? && o.configured && Urls.ParseRaises(videoUrl) ==>
      r == Ok(SimulatedOutcome(o.player.value, videoUrl, matchName, matchDate, autoCreate, o))
    ensures o.player.Some? && o.configured && !Urls.ParseRaises(videoUrl) ==>
      r == Ok(FinalOutcome(o.player.value, playerId, videoUrl, matchName, matchDate, autoCreate,
                           RunTwelveLabs(o.player.value, videoUrl, H.IsYoutubeUrl(videoUrl), old(analyzer.indexId), o), o))
    ensures r.Ok? ==> store.records == old(store.records) + r.value.highlights
    ensures analyzer.indexId == IndexAfter(o.player, videoUrl, o, old(analyzer.indexId))
    ensures ws.temps == TempsAfter(old(ws.temps), ws.keepTemp, Downloaded(o.player, videoUrl, o))
  {
    if o.player.None? {
      return Err(PlayerNotFound(playerId));
    }
    if !o.configured || Urls.ParseRaises(videoUrl) {
      // Without an analyzer, or when `_is_youtube_url` raises inside the `try`
      // (nothing has been downloaded yet), the run is simulated.
      var out := SimulateProcessing(store, o.player.value, videoUrl, matchName, matchDate, autoCreate, o);
      return Ok(out);
    }
    var out := ProcessConfigured(store, ws, analyzer, o, o.player.value, videoUrl, H.IsYoutubeUrl(videoUrl), playerId,
                                 matchName, matchDate, autoCreate);
    r := Ok(out);
  }

  // ---- extract_and_save_highlights ----

  /** The link saved with extracted highlights; an unset index renders as "None". */
  function IndexVideoUrl(indexId: Option<string>, videoId: string): string {
    "https://api.twelvelabs.io/v1.2/indexes/" + (if indexId.Some? then indexId.value else "None") + "/videos/" + videoId
  }

  /** The event dictionary rebuilt from an extracted highlight. */
  function ExtractedEvent(h: TL.ClipHighlight): H.Event {
    H.Event(h.kind, h.start, h.end, h.confidence, Some(h.description), None, None, None, None)
  }

  /** The records rebuilt from extracted highlights: the i-th keeps the i-th
      clip's confidence, as a percentage, and points at the indexed video. */
  function ExtractedRecords(hs: seq<TL.ClipHighlight>, ids: nat -> string, player: Player, playerId: string,
                            indexId: Option<string>, videoId: string, matchName: string, matchDate: int): (r: seq<H.HighlightRecord>)
    ensures |r| == |hs|
    ensures forall i :: 0 <= i < |r| ==>
      r[i].insights.confidence == Trunc(hs[i].confidence * 100.0) && r[i].videoUrl == IndexVideoUrl(indexId, videoId)
  {
    var events := seq(|hs|, i requires 0 <= i < |hs| => ExtractedEvent(hs[i]));
    Records(events, ids, playerId, player.name, _ => IndexVideoUrl(indexId, videoId), matchName, matchDate, videoId)
  }

  /** `extract_and_save_highlights`: every extracted clip above the threshold is
      offered to the table once; failed inserts are skipped. */
  method ExtractAndSaveHighlights(store: HighlightStore, analyzer: TL.Analyzer, o: Services, videoId: string,
                                  playerId: string, matchName: string, matchDate: int, eventTypes: seq<string>,
                                  minConfidence: real, search: string -> Option<seq<TL.SearchItem>>)
    returns (r: Result<seq<H.HighlightRecord>, Failure>)
    modifies store
    ensures !o.configured ==> r == Err(NotConfigured) && store.records == old(store.records)
    ensures o.configured && o.player.None? ==> r == Err(PlayerNotFound(playerId)) && store.records == old(store.records)
    ensures o.configured && o.player.Some? ==>
      r == Ok(Survivors(ExtractedRecords(TL.ExtractHighlights(eventTypes, minConfidence, search), o.ids, o.player.value,
                                         playerId, analyzer.indexId, videoId, matchName, matchDate), o.persists))
    ensures r.Ok? ==> store.records == old(store.records) + r.value
  {
    if !o.configured {
      return Err(NotConfigured);
    }
    if o.player.None? {
      return Err(PlayerNotFound(playerId));
    }
    var highlights := TL.RunExtractHighlights(eventTypes, minConfidence, search);
    var saved := SaveAll(store, ExtractedRecords(highlights, o.ids, o.player.value, playerId, analyzer.indexId, videoId,
                                                 matchName, matchDate), o.persists);
    r := Ok(saved);
  }

  /** Every saved extracted highlight met the confidence threshold and came
      from a requested type. */
  lemma ExtractedMeetThreshold(eventTypes: seq<string>, minConfidence: real, search: string -> Option<seq<TL.SearchItem>>,
                               ids: nat -> string, player: Player, playerId: string, indexId: Option<string>,
                               videoId: string, matchName: string, matchDate: int)
    ensures var hs := TL.ExtractHighlights(eventTypes, minConfidence, search);
      var recs := ExtractedRecords(hs, ids, player, playerId, indexId, videoId, matchName, matchDate);
      |recs| == |hs| &&
      forall i :: 0 <= i < |recs| ==>
        recs[i].insights.confidence == Trunc(hs[i].confidence * 100.0) && hs[i].confidence >= minConfidence
        && hs[i].kind in TL.RequestedTypes(eventTypes) && recs[i].videoUrl == IndexVideoUrl(indexId, videoId)
  {
    var hs := TL.ExtractHighlights(eventTypes, minConfidence, search);
    forall i | 0 <= i < |hs|
      ensures hs[i].confidence >= minConfidence && hs[i].kind in TL.RequestedTypes(eventTypes)
    {
      assert hs[i] in hs;
    }
  }
}
