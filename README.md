# ScoutPulse video pipeline, in Dafny

A model of the ScoutPulse backend's video pipeline. It proves properties of
that model. The pipeline turns a match video into highlight records for a
player:

- it downloads a YouTube link, or uploads any other link to the Twelve Labs
  service;
- it queries the service for soccer events and classifies every confident
  event as a strength, a weakness or neutral;
- it stores the top twenty events as highlights.

When Twelve Labs is not configured, or any step raises, the pipeline returns
a fixed simulated analysis instead. Beside the pipeline, the model covers
three more parts of the backend:

- the WebSocket connection manager and its notifier;
- the natural-language search fallback over stored highlights;
- the report and analytics helpers that summarise a player's highlights.

The modules follow the source files:

| module | source | what it holds |
|---|---|---|
| `Wrappers` | — | `Option` and `Result` |
| `Strings` | — | the `str` methods the source uses (`lower`, `title`, `split`, `startswith`, `int`, `str`), ASCII only |
| `Numbers` | — | `int(x)` (truncation) and `round(x)` (half to even) on reals |
| `Sorting` | — | Python's stable `sorted(..., reverse=True)` as an insertion sort on a real key |
| `Urls` | — | the part of `urllib.parse.urlparse` and `.hostname` the YouTube tests read |
| `Highlights` | `backend/video_processor.py` | the YouTube link test, the trim length, the classification, the highlight record, the video-link resolution |
| `TwelveLabs` | `backend/twelvelabs_integration.py` | the query plan, the normalisation of search results, the metrics, `upload_video`, `analyze_video`, `extract_highlights`, `search_semantic` |
| `Pipeline` | `backend/video_processor.py` | `process_video_for_player`, `_simulate_processing` and `extract_and_save_highlights`, over a highlight table (`HighlightStore`) and the temporary download directories (`Workspace`) |
| `Realtime` | `backend/websocket_manager.py` | `ConnectionManager` and `DataUpdateNotifier` |
| `Tallies` | — | insertion-ordered `dict` counters (`d[k] = d.get(k, 0) + 1`) |
| `Rows` | `backend/ai_services.py` | the stored highlight row, with its kind and tag counters |
| `Search` | `backend/ai_services.py` | `NaturalLanguageSearchService`: `parse_query`, the relevance score, the matched terms, the database fallback of `search_highlights` |
| `VideoAnalysis` | `backend/ai_services.py` | `VideoAnalysisService.extract_highlights` and `index_video_content` |
| `Reports` | `backend/ai_services.py` | the `PlayerReportService` helpers |
| `Analytics` | `backend/ai_services.py` | the `AnalyticsService` helpers |

## State and external calls

The source's state that changes in place becomes Dafny classes:

- `Pipeline.HighlightStore` holds the highlight table. One insert may fail,
  and `persists(i)` says whether the i-th insert succeeds.
- `Pipeline.Workspace` holds the set of temporary download directories, and
  whether `KEEP_YT_TEMP` is set.
- `TwelveLabs.Analyzer` holds the index id.
- `Realtime.ConnectionManager` holds the channel and player tables. It also
  keeps a log of the messages sent, in order.

Every external call is a parameter of the operation that makes it:

- the Twelve Labs SDK: the search endpoint `search`, the indexing task, and
  the index `_ensure_index` returns;
- the download;
- the text `generate_text` returns, or its absence when the SDK has no
  `generate_text` or the call raises;
- the uuids;
- the result of each database insert;
- the set of WebSockets whose send raises.

An exception the source catches becomes `None` or an `Err`, and the model
follows the path the source takes after catching it.

Timestamps and confidences are reals. `int(confidence * 100)` truncates
toward zero (`Numbers.Trunc`). `round()` rounds half to even
(`Numbers.RoundHalfEven`).

Four details of the code that the model follows:

- A highlight's confidence percentage is `int(confidence * 100)`, a
  truncation toward zero.
- Its first tag is `event_type.title()`.
- The simulated fallback still draws its video id and highlight ids from
  `uuid4`. The model takes them as inputs.
- `notify_report_generated` sends only to the player's channel, and
  `notify_stats_update` sends only to `analytics`.
- `urlparse` raises `ValueError` when the network location holds one square
  bracket without the other. `process_video_for_player` tests the link inside
  its `try`, so such a link is simulated and nothing is downloaded.

## Model

| member | source | states |
|---|---|---|
| Highlights.YoutubeLink | backend/video_processor.py:36-41 | for an ordinary `scheme://host...` link, the YouTube test holds exactly when the scheme starts with `http` and the host ends with one of the YouTube domains |
| Highlights.NonHttpIsNotYoutube | backend/video_processor.py:36-41 | a link whose parsed scheme does not start with `http` is never a YouTube link |
| Highlights.YoutubeHostDomains | backend/video_processor.py:38-41 | the host test is a suffix test against the fixed domain list |
| Urls.ParseAbsolute | backend/video_processor.py:36-41 | `urlparse` of `scheme://host` followed by `/`, `?`, `#` or nothing does not raise, recovers the scheme, and `hostname` recovers the host |
| Urls.UnclosedBracketRaises | backend/video_processor.py:36-41 | `urlparse` of `scheme://[host...` with no closing bracket raises, although the host it would read is a YouTube-like plain host |
| Highlights.TrimDuration | backend/video_processor.py:91-96 | no trim when `max_seconds <= 0`; otherwise the length is clamped into [10, 7200] and equals `max_seconds` inside that range |
| Highlights.TrimDurationIdempotent | backend/video_processor.py:91-96 | clamping an already clamped length changes nothing |
| Highlights.ClassifyMonotone | backend/video_processor.py:299-304 | for a fixed event type, more confidence never gives a worse class |
| Highlights.WeaknessCause | backend/video_processor.py:299-304 | an event is a weakness exactly when it is a foul or offside, or its confidence is below 0.6, and the strength rule does not fire first |
| Highlights.ClassifyExamples | backend/video_processor.py:299-304 | a pass at 0.8 is a strength; a foul at 0.9 or 0.5 is a weakness; a shot at 0.7 is neutral |
| Highlights.HighlightTitle | backend/video_processor.py:307-313 | the title is the player's name, ` - `, then the type's fixed title or the title-cased type |
| Highlights.DurationRoundTrip | backend/video_processor.py:316-319 | the `M:SS` duration string reads back as exactly the number of seconds it was formatted from |
| Highlights.Tags | backend/video_processor.py:321-325 | the title-cased type first; `Excellent` exactly when confidence is above 0.9; `Key Moment` and `Highlight` last for goals and assists; the length counts exactly those |
| Highlights.CreateHighlightFromEvent | backend/video_processor.py:282-349 | the record carries the given id, player, link, match and date; its title, type and tags are `HighlightTitle`, `Classify` and `Tags` of the event; the description defaults to `"<name> <type>"`; the stored percentage is `int(confidence * 100)`, in [0, 100] for a confidence in [0, 1]; the single key moment and the thumbnail name the rounded start second |
| Highlights.KeyMomentRoundTrip | backend/video_processor.py:316-347 | the record's one key moment reads back as the event type and the record's start second |
| Highlights.HighlightTiming | backend/video_processor.py:316-343 | the record's time range is the event's rounded start and end, and its duration string is formatted from that range's length |
| Highlights.FirstVParam | backend/video_processor.py:370-374 | the value of the first `v=` part, with nothing before it starting with `v=`; no value exactly when no part starts with `v=` |
| Highlights.FirstVValue | backend/video_processor.py:370-374 | the loop over the query parts, stopped at the first `v=` part, yields that part's value, or `""` |
| Highlights.ParsedVideoId | backend/video_processor.py:366-374 | the id taken from a parsed YouTube link: the path of a youtu.be link, otherwise the first `v=` value |
| Highlights.ResolveEventVideoUrl | backend/video_processor.py:351-378 | the event's non-empty clip or video URL wins; otherwise a YouTube source with an id becomes its embed URL; otherwise the source is returned unchanged |
| Highlights.ResolveVideoUrl | backend/video_processor.py:351-378 | the step-by-step resolution equals `ResolveEventVideoUrl` |
| Highlights.ResolveFromParts | backend/video_processor.py:361-378 | without a clip, the choice depends on the source only through its parsed scheme, host and id |
| Highlights.ResolveShortLink | backend/video_processor.py:366-376 | `https://<youtu.be host>/<id>` becomes the embed URL of `<id>` |
| Highlights.ResolveWatchLink | backend/video_processor.py:366-378 | `https://<youtube.com host>/watch?<query>` becomes the embed URL of the first `v=` value, and stays unchanged when there is none or it is empty |
| TwelveLabs.Keywords | backend/twelvelabs_integration.py:37-49 | every event type has at least one keyword: its table entry, or the type itself |
| TwelveLabs.TypeQueries | backend/twelvelabs_integration.py:219-223 | at most the first two keywords of a type, each searched as `"<player> <keyword>"` |
| TwelveLabs.Queries | backend/twelvelabs_integration.py:210-223 | at most two queries per type; each is for a requested type, with one of its keywords, prefixed with the player's name |
| TwelveLabs.IterSyncPager | backend/twelvelabs_integration.py:91-97 | a pager's `data` when it has any, its iteration otherwise, and a plain list as it is |
| TwelveLabs.IterSyncPagerIdempotent | backend/twelvelabs_integration.py:91-97 | unwrapping the already unwrapped list changes nothing |
| TwelveLabs.ItemDetections | backend/twelvelabs_integration.py:238-280 | nothing when the score is at most 70; otherwise one detection per clip of a clip-shaped item, or one for a flat item (start 0 and end start + 5 by default); each has the query's type and confidence score / 100, and its key moment matches its event |
| TwelveLabs.CollectItem | backend/twelvelabs_integration.py:238-280 | the loop body for one result item computes `ItemDetections` |
| TwelveLabs.CollectPage | backend/twelvelabs_integration.py:237-280 | the item loop of one query computes its page's detections |
| TwelveLabs.Detect | backend/twelvelabs_integration.py:218-283 | no result exactly when some query's search raises; otherwise every detection is above 0.7 and comes from one of the queries' types |
| TwelveLabs.CollectType | backend/twelvelabs_integration.py:218-283 | the query loop over one type's first two keywords yields that type's share of `Detect` |
| TwelveLabs.CollectAll | backend/twelvelabs_integration.py:218-283 | the nested type and query loops compute `Detect` over all queries |
| TwelveLabs.CalculateMetrics | backend/twelvelabs_integration.py:411-436 | all zero for no events; otherwise success rate times the count is the sum of confidences, intensity is min(count / 20, 1), and technical quality times the count is the number above 0.8 |
| TwelveLabs.MetricsBounds | backend/twelvelabs_integration.py:411-436 | intensity and technical quality are in [0, 1], and so is the success rate when every confidence is in [0, 1] |
| TwelveLabs.SumConfidenceBounds | backend/twelvelabs_integration.py:425 | with confidences in [0, 1], their sum is between 0 and the number of events |
| TwelveLabs.AnalyzeVideoEvents | backend/twelvelabs_integration.py:201-297 | every reported event has confidence above 0.7 and a requested type, and the total is the number of events |
| TwelveLabs.AnalyzeVideoKeyMoments | backend/twelvelabs_integration.py:285-293 | at most ten key moments, in non-increasing importance, drawn from the recorded moments; none left out is more important than one kept |
| TwelveLabs.RunAnalyzeVideo | backend/twelvelabs_integration.py:201-297 | the source's loops compute `AnalyzeVideo` |
| TwelveLabs.ResultHighlights | backend/twelvelabs_integration.py:349-362 | nothing below the threshold; otherwise one highlight per clip, each with the query's type and keyword and confidence score / 100 at or above the threshold; `None` when `clips` is missing |
| TwelveLabs.CollectResult | backend/twelvelabs_integration.py:349-362 | the clip loop of one result computes `ResultHighlights`, and raises on a missing `clips` or `video_id` |
| TwelveLabs.CollectResults | backend/twelvelabs_integration.py:342-362 | the result loop of one query computes its highlights |
| TwelveLabs.ExtractFor | backend/twelvelabs_integration.py:336-362 | every highlight found has one of the types and meets the threshold |
| TwelveLabs.ExtractHighlights | backend/twelvelabs_integration.py:321-368 | every extracted highlight has a requested type and meets the threshold; `[]` once any search or read raises |
| TwelveLabs.RunExtractHighlights | backend/twelvelabs_integration.py:321-368 | the type loop, searching each type's first keyword, computes `ExtractHighlights` |
| TwelveLabs.ItemHits | backend/twelvelabs_integration.py:393-403 | one hit per clip of a result, each scored by the result's confidence |
| TwelveLabs.CollectHits | backend/twelvelabs_integration.py:393-403 | the clip loop of one result computes `ItemHits` |
| TwelveLabs.SemanticHits | backend/twelvelabs_integration.py:393-403 | one hit per clip over all results, each scored by its own result's confidence |
| TwelveLabs.SearchSemantic | backend/twelvelabs_integration.py:370-409 | `[]` when the search raises; otherwise one hit per clip when every result reads cleanly |
| TwelveLabs.RunSearchSemantic | backend/twelvelabs_integration.py:370-409 | the result and clip loops compute `SearchSemantic` |
| TwelveLabs.ValidateSource | backend/twelvelabs_integration.py:152-156 | it accepts exactly one of URL and file; it rejects both missing and both given, each with its own error |
| TwelveLabs.IndexAfterUpload | backend/twelvelabs_integration.py:158-159 | the index changes only for valid arguments and an unset index, and then only to the ensured index |
| TwelveLabs.UploadOutcome | backend/twelvelabs_integration.py:140-199 | the upload returns the task's video id exactly when the arguments are valid, an index is available and the task is ready; it fails with the task's status when the task is not ready |
| TwelveLabs.Analyzer.UploadVideo | backend/twelvelabs_integration.py:140-199 | returns `UploadOutcome` and leaves the index `IndexAfterUpload` names |
| Pipeline.HighlightStore.Create | backend/video_processor.py:243 | an insert appends the record when it succeeds and leaves the table unchanged when it raises |
| Pipeline.Workspace.Download | backend/video_processor.py:43-76 | a successful download adds its directory, and a failed one removes its own |
| Pipeline.Workspace.Cleanup | backend/video_processor.py:78-89 | removes the directory unless `KEEP_YT_TEMP` is set |
| Pipeline.Workspace.Release | backend/video_processor.py:278-280 | the `finally` block cleans up the downloaded file, if any |
| Pipeline.Survivors | backend/video_processor.py:230-254 | the saved records are among the built ones and never more; all of them when every insert succeeds |
| Pipeline.SaveAll | backend/video_processor.py:230-254 | each record gets one insert attempt, and failures are skipped; the table grows by exactly the survivors, in order |
| Pipeline.Records | backend/video_processor.py:230-240 | one record per event, in order, the i-th built from the i-th event and the i-th fresh id |
| Pipeline.TopEventsCorrect | backend/video_processor.py:222-227 | min(20, n) of the events, in non-increasing confidence; no event left out is more confident than one kept |
| Pipeline.RecordsNotWeak | backend/video_processor.py:230-240 | confident events of non-fault types never give a weakness |
| Pipeline.RealHighlightsNotWeak | backend/video_processor.py:207-254 | no highlight the Twelve Labs path creates is a weakness, since every detected event is above 0.7 and no requested type is a fault |
| Pipeline.SimulatedHighlights | backend/video_processor.py:393-467 | the three simulated highlights are strengths, fifteen seconds long, at 75-90, 180-195 and 260-275, all played from the source link |
| Pipeline.SimulatedOutcome | backend/video_processor.py:380-481 | the count is the number of saved highlights; nothing is saved unless highlights were asked for |
| Pipeline.SimulateProcessing | backend/video_processor.py:380-481 | returns `SimulatedOutcome` and grows the table by exactly its highlights |
| Pipeline.RealOutcome | backend/video_processor.py:256-266 | a successful run reports its video id and analysis, and at most twenty highlights |
| Pipeline.TempsAfter | backend/video_processor.py:193-202 | after the run, the directories are unchanged unless a download is kept by `KEEP_YT_TEMP` |
| Pipeline.DownloadThenRelease | backend/video_processor.py:193-280 | downloading and then running the `finally` block leaves the directories `TempsAfter` names |
| Pipeline.UploadAndAnalyze | backend/video_processor.py:193-217 | downloads a YouTube link or uploads the link itself, then analyzes and summarizes; a failed download ends the run |
| Pipeline.UploadAnalyzeSummarize | backend/video_processor.py:200-217 | upload, analysis and summary in that order; `None` as soon as the upload or the analysis raises; the summary never fails |
| TwelveLabs.GenerateSummary | backend/twelvelabs_integration.py:299-319 | the SDK's text when `generate_text` is available and returns, otherwise the fixed `"Analysis of <name>'s performance in the match."` |
| Pipeline.SaveRealHighlights | backend/video_processor.py:219-266 | the top events become the saved highlights, only when they were asked for and there are events |
| Pipeline.Finish | backend/video_processor.py:219-277 | a run that got through analysis saves its highlights; any other falls back to the simulated outcome |
| Pipeline.FinishAndRelease | backend/video_processor.py:219-280 | a failed run still reaches the `finally` block |
| Pipeline.ProcessConfigured | backend/video_processor.py:185-280 | the configured path returns the real or the simulated outcome; its download is released and the analyzer keeps the index the upload set |
| Pipeline.ProcessVideoForPlayer | backend/video_processor.py:144-280 | a missing player is an error and changes nothing; without Twelve Labs, or when `urlparse` of the link raises, the simulated outcome is returned; the table grows by exactly the saved highlights; the directories end as `TempsAfter` says |
| Pipeline.ExtractedRecords | backend/video_processor.py:512-530 | one record per extracted highlight, keeping its confidence as a percentage and pointing at the indexed video |
| Pipeline.ExtractAndSaveHighlights | backend/video_processor.py:483-544 | not configured and missing player are errors that change nothing; otherwise each extracted highlight is offered once and the table grows by the saved ones |
| Pipeline.ExtractedMeetThreshold | backend/video_processor.py:483-544 | every saved extracted highlight meets the threshold, has a requested type and points at the indexed video |
| Realtime.ConnectTo | backend/websocket_manager.py:26-38 | the socket joins the key, which appears if new, and every other key is untouched |
| Realtime.DisconnectFrom | backend/websocket_manager.py:40-48 | the socket leaves a known key, an unknown key is a no-op, and nothing else changes |
| Realtime.DisconnectUndoesConnect | backend/websocket_manager.py:26-48 | disconnecting undoes connecting a new subscriber; a key created by the connect stays behind, empty |
| Realtime.DisconnectIdempotent | backend/websocket_manager.py:40-48 | disconnecting twice is disconnecting once, and disconnecting an absent socket changes nothing |
| Realtime.ConnectCount | backend/websocket_manager.py:26-38 | connecting a new socket adds one to the total connection count, and reconnecting adds nothing |
| Realtime.TotalSplit | backend/websocket_manager.py:89-93 | the total count is one key's sockets plus the rest, taken in any order |
| Realtime.Targets | backend/websocket_manager.py:102-154 | which notifications go to the player's channel, and which to `players`, `highlights` or `analytics` |
| Realtime.DiscardAll | backend/websocket_manager.py:62-64 | removing the failed sockets one by one leaves the channel minus those sockets |
| Realtime.ConnectionManager.Connect | backend/websocket_manager.py:26-31 | the channel table becomes `ConnectTo` of the old one; nothing else changes |
| Realtime.ConnectionManager.ConnectPlayerChannel | backend/websocket_manager.py:33-38 | the player table becomes `ConnectTo` of the old one; nothing else changes |
| Realtime.ConnectionManager.Disconnect | backend/websocket_manager.py:40-43 | the channel table becomes `DisconnectFrom` of the old one |
| Realtime.ConnectionManager.DisconnectPlayerChannel | backend/websocket_manager.py:45-48 | the player table becomes `DisconnectFrom` of the old one |
| Realtime.ConnectionManager.SendAll | backend/websocket_manager.py:55-61 | each member whose send does not raise gets the message exactly once, and the failed ones are reported |
| Realtime.ConnectionManager.Broadcast | backend/websocket_manager.py:50-64 | every live socket of the channel gets the message once; the failed ones leave the channel; the player table is untouched |
| Realtime.ConnectionManager.BroadcastToPlayer | backend/websocket_manager.py:66-80 | the same on the player's channel, leaving the channel table untouched |
| Realtime.ConnectionManager.SendPersonalMessage | backend/websocket_manager.py:82-87 | one delivery when the send succeeds; a failed send is swallowed |
| Realtime.ConnectionManager.GetConnectionCount | backend/websocket_manager.py:89-93 | the channel's size when a channel is named, otherwise the total over all channels |
| Realtime.DataUpdateNotifier.Notify | backend/websocket_manager.py:102-154 | the player broadcast, then the channel broadcast that `Targets` names; afterwards the failed sockets are pruned from exactly the player channel and the named channel that were sent to |
| Realtime.DataUpdateNotifier.NotifyPlayerUpdate | backend/websocket_manager.py:102-111 | a player update goes to the player's channel, then to `players`; both lose their failed sockets |
| Realtime.DataUpdateNotifier.NotifyHighlightAdded | backend/websocket_manager.py:113-123 | a new highlight goes to its player's channel when it has one, then to `highlights`; those channels lose their failed sockets |
| Realtime.DataUpdateNotifier.NotifyAnalysisComplete | backend/websocket_manager.py:125-135 | a finished analysis goes to the player's channel, then to `analytics`; both lose their failed sockets |
| Realtime.DataUpdateNotifier.NotifyReportGenerated | backend/websocket_manager.py:137-145 | a report goes to the player's channel only; only that channel loses its failed sockets and the named channels are unchanged |
| Realtime.DataUpdateNotifier.NotifyStatsUpdate | backend/websocket_manager.py:147-154 | a statistics update goes to `analytics` only; only `analytics` loses its failed sockets and the player channels are unchanged |
| Tallies.TallyCorrect | backend/ai_services.py:691-697 | counting keeps the keys distinct and the existing ones in place; a key is present exactly when it was or was counted; each count grows by its occurrences; the total grows by the number counted |
| Rows.OfKind | backend/ai_services.py:509 | exactly the highlights of the kind |
| Rows.CountTags | backend/ai_services.py:691-696 | the tag loop computes the tally of every tag |
| Rows.TagCounts | backend/ai_services.py:691-696 | each tag appears once, with its number of occurrences, and the counts add up to the number of tags |
| Sorting.SortDescCorrect | backend/ai_services.py:697 | the stable descending sort is a permutation, in non-increasing key order, and keeps the input order among equal keys |
| Sorting.TopOf | backend/video_processor.py:222-227 | the first k of the sort are k of the input, in order, and none left out has a larger key than one kept |
| Search.KeywordsFor | backend/ai_services.py:297 | every event type has at least one keyword |
| Search.ParseQuery | backend/ai_services.py:176-209 | the loop over the keyword table computes `QueryOf` |
| Search.EventTypesRule | backend/ai_services.py:192-197 | the event types are goal, assist, dribble and defense in that order, each present exactly when one of its keywords occurs in the lowercased query |
| Search.SentimentRule | backend/ai_services.py:192-202 | a strength keyword wins over a weakness keyword, and with neither the query is neutral |
| Search.NumericContextRule | backend/ai_services.py:205-207 | numbers are present exactly when the query has a digit, one per run of digits |
| Search.HitsPositions | backend/ai_services.py:334-337 | the number of event-type hits is the number of query positions whose type is a tag |
| Search.RelevanceScore | backend/ai_services.py:325-350 | the loop computes `Relevance` |
| Search.RelevanceBounds | backend/ai_services.py:325-350 | 0.5 plus 0.2 per type hit plus the sentiment and confidence bonuses, capped at 1.0; at least 0.5 when the stored confidence is not negative |
| Search.MatchedTerms | backend/ai_services.py:352-363 | keeps the query words longer than three characters that occur in the title and description |
| Search.TermsExact | backend/ai_services.py:357-363 | each such word is kept as often as the query repeats it, and nothing else is kept |
| Search.SelectRows | backend/ai_services.py:266-276 | exactly the rows of the player and of the query's sentiment |
| Search.AnyKeywordHit | backend/ai_services.py:291-301 | true exactly when some keyword occurs inside some tag |
| Search.TagMatches | backend/ai_services.py:288-301 | true exactly when some keyword of some query event type occurs inside some tag |
| Search.KeepRelevant | backend/ai_services.py:279-307 | exactly the rows matching the text or, with event types, a tag |
| Search.FallbackSearch | backend/ai_services.py:265-323 | the fallback's selection, filter, scoring and sort compute the stated composition |
| Search.FallbackSearchCorrect | backend/ai_services.py:265-323 | results are sorted by relevance and a stable permutation of the scored candidates, each at most 1.0 and not AI-matched; a row is a candidate exactly when it is selected and the query is blank or the row is relevant |
| Search.NoEventTypesKeepsAll | backend/ai_services.py:279-307 | a query without event types filters nothing beyond the database query |
| VideoAnalysis.IndexVideoContent | backend/ai_services.py:129-155 | the index holds one tag and one entry per event, and the searchable text is the event descriptions then the moment descriptions; `None` when an event has no description |
| VideoAnalysis.MockHighlights | backend/ai_services.py:116-127 | one mock clip for each of the first three event types |
| VideoAnalysis.ExtractHighlights | backend/ai_services.py:91-127 | with Twelve Labs and a video id, the remote highlights at threshold 0.7; otherwise the mock clips, with the supported events when no types are given |
| VideoAnalysis.ExtractedClipsQualify | backend/ai_services.py:91-127 | every clip returned has a requested type and confidence at least 0.7, and there are at most three mock clips |
| Reports.StatOfLookup | backend/ai_services.py:479-485 | a rating lookup yields the first entry with the name, or 0 |
| Reports.PlayingStyleMonotone | backend/ai_services.py:471-488 | higher ratings can only move the style to an earlier rule of the chain |
| Reports.PlayingStyleRules | backend/ai_services.py:471-488 | the first applying rule decides, and a player rated at most 80 everywhere is well-rounded |
| Reports.Identify | backend/ai_services.py:490-560 | the rating and tag loops compute `Findings` |
| Reports.IdentifyStrengths | backend/ai_services.py:490-525 | the strengths are `Findings` on the strength side |
| Reports.IdentifyWeaknesses | backend/ai_services.py:527-560 | the weaknesses are `Findings` on the weakness side |
| Reports.StatFindingsSound | backend/ai_services.py:500-506 | every rating entry is a rating of the player that qualifies for the side |
| Reports.CutParts | backend/ai_services.py:508-525 | cutting at five keeps the rating entries first and in order, then the tag entries |
| Reports.FindingsOrder | backend/ai_services.py:490-560 | at most five entries, the qualifying ratings first; tag entries only when there are fewer than five ratings |
| Reports.FindingsTags | backend/ai_services.py:508-523 | at most three tag entries, in non-increasing count, each with the tag's exact number of occurrences |
| Reports.TagRankingCounts | backend/ai_services.py:691-697 | every tag is ranked, with its exact count of at least one, and the counts add up to the number of tags |
| Reports.TagRankingSorted | backend/ai_services.py:697 | the ranking is in non-increasing count |
| Reports.ListedCorrect | backend/ai_services.py:599-630 | each test adds its recommendation exactly when it holds, and the list ends with the closing one, in the order tested |
| Reports.GenerateRecommendations | backend/ai_services.py:599-630 | improve defense exactly when defense is below 60; leverage passing exactly when passing is above 85; reduce errors exactly when weaknesses exceed 30 % of the highlights; the closing recommendation last |
| Reports.ExtractKeyMoments | backend/ai_services.py:632-650 | the key moments of the first ten highlights, in order |
| Reports.MomentsOfCorrect | backend/ai_services.py:632-650 | every moment of the highlights is listed once, under the highlight it belongs to |
| Reports.SumIntsBounds | backend/ai_services.py:596-597 | a sum of bounded integers lies between the bounds times the count |
| Reports.AverageConfidenceBounds | backend/ai_services.py:586-597 | the average confidence lies within any bounds every stored confidence respects |
| Reports.VideoStatisticsCounts | backend/ai_services.py:578-583 | strengths plus weaknesses never exceed the number of highlights |
| Analytics.CountByType | backend/ai_services.py:684-689 | the loop computes the tally of the kinds, starting from the three fixed types |
| Analytics.TypeCounts | backend/ai_services.py:684-689 | the three fixed types come first; every highlight is counted once under its own type; the counts add up to the number of highlights |
| Analytics.CountByTag | backend/ai_services.py:691-697 | the tag counts ranked by count, as `TagRanking` |
| Analytics.ByDateCorrect | backend/ai_services.py:705 | sorting by date is non-decreasing, a permutation, and stable |
| Analytics.TrendsCorrect | backend/ai_services.py:699-727 | no highlights give insufficient data; the halves' strength counts add up to all strengths, each bounded by its half; the trend compares the recent half with the early one |
| Analytics.SummarizeAiInsights | backend/ai_services.py:729-746 | `None` exactly for no highlights; otherwise the average confidence, the number of key moments and the number of highlights with insights |
| Analytics.InsightSummaryBounds | backend/ai_services.py:729-746 | with stored confidences in [0, 100], the average is in [0, 100] and at most every highlight has insights |

## Left out

- File and network I/O is a parameter of the operation that uses it: the
  yt-dlp download, the ffmpeg transcode, the Twelve Labs SDK, the database
  and the WebSocket sends. Their effects are modelled; their internals are
  not.
- Concurrency: the `async` steps run one after another, and concurrent runs
  are not modelled.
- `create_index`, the internals of `_ensure_index`, the signature probing of
  `_search_query`, `generate_summary` and `get_video_info`: the SDK calls and
  what they return are inputs.
- The indexing wait inside `upload_video` is the status of the task the SDK
  returns, which is an input.
- The Twelve Labs path of `search_highlights` (backend/ai_services.py:225-263)
  remaps SDK results and is not modelled. Only the database fallback is.
- The mock `VideoAnalysisService.analyze_video` (backend/ai_services.py:59-89),
  `_generate_summary` and the constant text of `_generate_tactical_analysis`
  are fixed prose and are not modelled. The playing-style rule they use is.
- The assembly of `generate_report`, `get_player_analytics` and
  `get_global_statistics` is not modelled: it only reads the database.
- `reanalyze_existing_video` is not part of this model.
- The `except` branch of `VideoAnalysisService.extract_highlights`: the remote
  call is taken never to raise, because the Twelve Labs `extract_highlights`
  already catches every exception.
- The environment lookups (`YOUTUBE_MAX_DOWNLOAD_SECONDS`, `KEEP_YT_TEMP`,
  the API key and index id) and the module-level singletons are inputs.
- Numbers print as values, not text: `round(x, 2)` in the metrics and the
  `:.1f` of the analysis sentence are left out.
- `n * 0.3`, the relevance score and the averages are exact reals, not
  floating point.
- Highlight dates are always present. A missing stored confidence counts as 0.
- `lower`, `title` and `capitalize` handle ASCII letters only.
- The `player_mentioned` and `time_context` fields of `parse_query` are not
  modelled.
- The timestamp of a report key moment is not modelled.
- Pipeline.Outcome: the source returns a small summary dictionary for each
  created highlight, and the model returns the whole saved record.
- Highlights.CreateHighlightFromEvent: the analysis sentence keeps the real
  percentage rather than its `:.1f` text.
- The bracketed-host check of newer Python versions (an IPv6 or IPvFuture
  address between the brackets) is not modelled; only the unbalanced-bracket
  `ValueError` is.
- Highlights.ResolveEventVideoUrl has no error result for a link `urlparse`
  rejects: the pipeline reaches it only with a link that already passed the
  same test.
