# Sequencer sample player core, in Dafny

This project models three sequential parts of the HTML sample player of the media sequencer and proves their properties.

1. **The live-DVR sequencer plugin** (`SequencerPlugin`). It decorates the next link of the sequencer plugin chain.
   - `mediaToSeekbarTime` asks the inner link first. Across the whole DVR window `[leftDvrEdge, livePosition]` it then intersects the seek-bar range with the window, or throws a `SequencerError` once the left edge has overtaken the viewer.
   - Once the live presentation has ended, it prunes the sequential playlist outside the window instead.
   - `seekFromLinearPosition` clamps the seek target into the window and delegates.
2. **Ad selection, ad scheduling and the playback controller** of the sample player.
   - **Ad selection** (`AdSelection`): the `HH:MM:SS` parser, and the selection of one media file per linear creative from the parsed VAST ad list. It follows the `Ad@sequence` pod and buffet conventions.
   - **Ad planner** (`AdPlanner`):
     - the stable sort by pod sequence number and the buffet cut-off;
     - the classification of a VMAP `timeOffset`;
     - the pod chain, in which every ad is appended to the entry the previous one created;
     - the `scheduleAd`, `scheduleContent`, `scheduleVAST`, `scheduleContentFromVAST` and `scheduleVMAP` entry points.
   - **Playback controller** (`PlaybackController`): the module state `myCurrentSegment`, `myCurrentSeekbarPosition`, `myCurrentMaxSeekbarPosition` and `myPendingAdParams`, and the handlers `onEndOfSegment`, `onCurrentTimeChanged`, `seekFromCurrentPosition`, `setPendingAdVAST` and `schedulePendingAd`.
3. **The log book** of the test library (`Logging`).
   - It is a bounded list of messages, filtered by level.
   - By logging type it is shown in an alert box whenever it fills up, written to the console, or kept as the latest numbered lines for an HTML or JSON dump.

The model is laid out as follows:
- **Collaborators** the core calls but does not contain are classes with a `calls` trace:
  - the rest of the sequencer chain, the sequential playlist and the segment pool (`Sequencing.Sequencer`);
  - the scheduler (`AdPlanner.Scheduler`);
  - the video element (`PlaybackController.Video`).
  Their answers are arbitrary functions of the calls made so far, so nothing is assumed about them.
- **Mutable objects in the source** become classes with the same fields:
  - the controller's module state (`PlaybackController.Controller`);
  - the log book's closure state (`Logging.LogBook`);
  - the ad selection array, an `array` sorted in place.
- **Each state-changing method** is proved against a pure function of the state it sees, and those functions carry the properties.
- **`Date`, `alert` and `console.log`** become parameters and traces.

JavaScript values are modelled as follows:
- Numbers are integers, or NaN where `Number()` of a text field can produce it (`JsText.JsNumber`).
- `undefined` and `null` are `Option`'s `None`.
- A thrown exception is a returned `Error`: a `SequencerError`, the `TypeError` a dereference of `null` throws, or another named error.

Where the code behaves differently from what its comments or a reader would expect, the model follows the code:
- **`seekFromCurrentPosition` can change `myCurrentSegment`.**
  - A `SequencerError` from `seekFromSeekbarPosition` leaves the segment as it was before the seek, but the `onEndOfSegment` it triggers then advances it. That call may also set the video element's `currentTime`.
  - A `null` answer is stored in `myCurrentSegment`, and the dereference that follows throws a `TypeError`, which is logged.
- **`onEndOfSegment` after a second `null` answer.** At `src/HTML/Samples/Player/PlayerTest.js:470` it dereferences `null`. The model returns that `TypeError` as an escaping exception rather than forbidding the case with a precondition. The same holds for the handlers called without a current segment.
- **`timeOffset` fall-through.** A `%` offset, or an offset that is not recognised, is only logged, and the chain is still scheduled as a post-roll.
- **Zero durations.** A linear creative whose duration is zero ends that ad's creatives. The next ad is still examined.
- **`setLoggingType` always replaces the maximum length.** It compares the argument with the *string* `'undefined'`, so an omitted maximum makes the list unbounded.
- **The pending ad stays pending.** `schedulePendingAd` leaves it in place, sorted, and does not clear it.

## Model

| member | source | states |
|---|---|---|
| SequencerPlugin.LiveSeekbar | src/Core/Sequencer/SequencerPlugin.js:56-88 | After the end of the presentation, or for an exempt clip, the inner result passes through. Otherwise the only error is a `SequencerError` when the current linear position lies before the left DVR edge. Otherwise only the two range fields change: the floor becomes max(floor, left edge) and the ceiling min(ceiling, live position) for each edge given. The floor is never lowered and the ceiling never raised. |
| SequencerPlugin.PruneCalls | src/Core/Sequencer/SequencerPlugin.js:56-66 | Entries before the left edge are removed if and only if it is given, and entries after the live position if and only if it is given. No other edit is made. |
| SequencerPlugin.MediaToSeekbarTime | src/Core/Sequencer/SequencerPlugin.js:29-92 | A load check returns the fixed string and calls nothing. Otherwise the inner link is asked first, and the segment is looked up after that call. A missing segment throws `TypeError`. The result is `LiveSeekbar` of the inner answer, and the playlist is pruned exactly when the presentation has ended. |
| SequencerPlugin.ClampSeekPosition | src/Core/Sequencer/SequencerPlugin.js:102-108 | A target inside the window, or with no window, is unchanged. A target before a proper window is raised exactly to its left edge. A target beyond the live position is lowered exactly to it, so in an inverted window the live clamp wins. The live position is always an upper bound, and the left edge a lower bound of a proper window. |
| SequencerPlugin.SeekFromLinearPosition | src/Core/Sequencer/SequencerPlugin.js:94-111 | Exactly one call is made to the next link, with the clamped target, and its answer is returned unchanged. |
| Sequencing.Sequencer.MediaToSeekbarTime | src/Core/Sequencer/SequencerPlugin.js:50-51 | The call is recorded and the sequencer's answer for the calls so far is returned. |
| Sequencing.Sequencer.SeekFromLinearPosition | src/Core/Sequencer/SequencerPlugin.js:110 | The call is recorded and the next link's answer is returned. |
| Sequencing.Sequencer.SeekFromSeekbarPosition | src/HTML/Samples/Player/PlayerTest.js:558 | The call is recorded and the sequencer's answer is returned. |
| Sequencing.Sequencer.OnEndOfMedia | src/HTML/Samples/Player/PlayerTest.js:460 | The call is recorded and the sequencer's answer is returned. |
| Sequencing.Sequencer.MediaToLinearTime | src/HTML/Samples/Player/PlayerTest.js:429-434 | The call is recorded and the sequencer's answer is returned. |
| Sequencing.Sequencer.RemoveEntriesBeforeTime | src/Core/Sequencer/SequencerPlugin.js:59-61 | The playlist edit is recorded. |
| Sequencing.Sequencer.RemoveEntriesAfterTime | src/Core/Sequencer/SequencerPlugin.js:63-65 | The playlist edit is recorded. |
| JsText.IndexOf | src/HTML/Samples/Player/PlayerTest.js:176-186 | The result is the first index of the character, or -1 exactly when it does not occur. |
| JsText.IndexOfPrefix | src/HTML/Samples/Player/PlayerTest.js:186 | In a text whose first occurrence of a character starts its second part, `indexOf` finds it just after the first part. |
| JsText.Split | src/HTML/Samples/Player/PlayerTest.js:41 | No field contains the separator, and joining the fields with it gives back the text. |
| JsText.SplitJoin | src/HTML/Samples/Player/PlayerTest.js:41-45 | Splitting fields that do not contain the separator, after joining them with it, gives back the fields. |
| JsText.NatToString | src/HTML/Samples/Player/PlayerTest.js:437-439 | A non-negative integer is written as the shortest decimal text whose value it is. |
| JsText.IntToString | src/HTML/Samples/Player/PlayerTest.js:437-439 | The text of an integer is non-empty and contains neither `:` nor `%`, so an offset built from it is classified by its own `#` or `:` only. |
| JsText.NumberOfIntToString | src/HTML/Samples/Player/PlayerTest.js:179 | `Number` of the decimal text of an integer is that integer. |
| AdSelection.ConvertHMSToSeconds | src/HTML/Samples/Player/PlayerTest.js:40-46 | Text that does not split into exactly three fields gives 0. Otherwise the result is finite exactly when the three fields are numbers, and then equals (h·60+m)·60+s. |
| AdSelection.HMSFields | src/HTML/Samples/Player/PlayerTest.js:41-45 | Three colon-free fields joined by colons are parsed field by field. |
| AdSelection.HMSRoundTrip | src/HTML/Samples/Player/PlayerTest.js:40-46 | Writing h, m and s as `h:m:s` and parsing the text back gives (h·60+m)·60+s. |
| AdSelection.TwoDigitHMS | src/HTML/Samples/Player/PlayerTest.js:40-46 | `hh:mm:ss` written with two decimal digits per field is (hh·60+mm)·60+ss seconds. |
| AdSelection.HMSExample | src/HTML/Samples/Player/PlayerTest.js:40-46 | `"00:01:30"` gives 90. |
| AdSelection.PodOrderOf | src/HTML/Samples/Player/PlayerTest.js:72-75 | A present `sequence` gives `Sequenced` of its number, which sorts before the buffet; an absent one gives `Buffet`, which sorts before nothing, as `Number.MAX_VALUE` sorts last. |
| AdSelection.FirstDuration | src/HTML/Samples/Player/PlayerTest.js:99-106 | A value is found exactly when some element is a `Duration`. It is then the value of the first such element. |
| AdSelection.FirstPlayable | src/HTML/Samples/Player/PlayerTest.js:112-129 | The index found is that of a playable file with no playable file before it. None is found exactly when no file is playable. |
| AdSelection.EntryFor | src/HTML/Samples/Player/PlayerTest.js:118-126 | The entry has the file's URI and the ad's pod order. Its minimum media time is the `psns:mediaTimeOffset` attribute or 0, and its maximum is the minimum plus the creative duration. |
| AdSelection.CreativeEntry | src/HTML/Samples/Player/PlayerTest.js:88-134 | A creative yields at most one entry. It yields exactly one when it is linear, has a non-zero duration and has a playable file. |
| AdSelection.CreativeEntries | src/HTML/Samples/Player/PlayerTest.js:86-135 | At most one entry is made per creative, each with the ad's pod order. |
| AdSelection.GetAdSelectionArray | src/HTML/Samples/Player/PlayerTest.js:52-151 | The loops build exactly `Selection` of the ad list. |
| AdSelection.AdSelection | src/HTML/Samples/Player/PlayerTest.js:71-148 | One pass of the ad loop yields exactly the ad's entries, and only an in-line ad yields any. |
| AdSelection.CreativesSelection | src/HTML/Samples/Player/PlayerTest.js:86-135 | The creatives loop, with its `break`, yields exactly `CreativeEntries`. |
| AdSelection.CreativeSelection | src/HTML/Samples/Player/PlayerTest.js:87-134 | The loop stops exactly at a linear creative of zero duration, and otherwise yields the creative's entry. |
| AdSelection.FindPlayable | src/HTML/Samples/Player/PlayerTest.js:113-129 | The media-file loop stops at the first playable file, or at the end of the list exactly when none is playable. |
| AdSelection.FindDuration | src/HTML/Samples/Player/PlayerTest.js:96-106 | The duration is the first `Duration` element parsed, or 0 without one. |
| AdSelection.SelectionAppend | src/HTML/Samples/Player/PlayerTest.js:71-150 | The selection of concatenated ad lists is the concatenation of their selections. Ads are independent and ad-list order is kept, unsorted. |
| AdSelection.ZeroDurationEndsAd | src/HTML/Samples/Player/PlayerTest.js:107-110 | Creatives after a zero-duration linear creative of the same ad yield nothing, whatever they are. |
| AdSelection.StopEndsCreatives | src/HTML/Samples/Player/PlayerTest.js:107-110 | Stopping at such a creative leaves exactly the entries of the creatives before it. |
| AdSelection.AdEntriesBound | src/HTML/Samples/Player/PlayerTest.js:86-135 | An ad yields at most one entry per creative. |
| AdSelection.SelectionProvenance | src/HTML/Samples/Player/PlayerTest.js:71-150 | Every selected entry was made from the first playable file of a linear creative of non-zero duration of an in-line ad, and carries that ad's pod order. |
| AdSelection.SingleCreativeExample | src/HTML/Samples/Player/PlayerTest.js:52-151 | One in-line ad with a 15-second creative yields one buffet entry playing media time 0 to 15. |
| AdSelection.OneFileCreative | src/HTML/Samples/Player/PlayerTest.js:96-127 | A linear creative with one non-zero `Duration` and one playable file without an offset does not end the loop and yields exactly one entry for that file, from media time 0 for its duration. |
| AdSelection.OneCreativeAd | src/HTML/Samples/Player/PlayerTest.js:52-151 | An in-line ad without a `sequence` whose only creative does not end the loop yields exactly that creative's entries, in the buffet. |
| AdSelection.EntryForNoOffset | src/HTML/Samples/Player/PlayerTest.js:118-119 | A file without a media-time offset plays from media time 0 for the duration. |
| AdPlanner.Scheduler.ScheduleClip | src/HTML/Samples/Player/PlayerTest.js:289-291 | The clip is recorded, and the id returned is the scheduler's id for the calls made before. |
| AdPlanner.Scheduler.AppendContentClip | src/HTML/Samples/Player/PlayerTest.js:259 | The content clip is recorded. |
| AdPlanner.Scheduler.SetSeekToStart | src/HTML/Samples/Player/PlayerTest.js:261 | The seek-to-start marker is recorded. |
| AdPlanner.AdClipParams | src/HTML/Samples/Player/PlayerTest.js:272-287 | The clip type defaults to "Media" and the roll type to "Mid". Only a mid-roll gets the start time and only a pod member gets the anchor, never both. The media range and the delete flag are carried over. |
| AdPlanner.ScheduleAd | src/HTML/Samples/Player/PlayerTest.js:264-294 | Exactly one clip is scheduled, with `AdClipParams`, and the new entry's id is returned. |
| AdPlanner.ContentCalls | src/HTML/Samples/Player/PlayerTest.js:254-261 | One content clip with the entry's URI and media range is appended, followed by a seek-to-start. |
| AdPlanner.ScheduleContent | src/HTML/Samples/Player/PlayerTest.js:248-262 | The scheduler receives exactly those two calls. |
| AdPlanner.ClassifyOffset | src/HTML/Samples/Player/PlayerTest.js:167-192 | The roll type is Pre, Post or Mid. Only a leading `#` sets an anchor. Only a mid-roll has a non-zero start time. |
| AdPlanner.ClassifyStart | src/HTML/Samples/Player/PlayerTest.js:170-172 | `start` is a pre-roll without anchor. |
| AdPlanner.ClassifyEnd | src/HTML/Samples/Player/PlayerTest.js:173-175 | `end` is a post-roll without anchor. |
| AdPlanner.ClassifyAnchor | src/HTML/Samples/Player/PlayerTest.js:176-181 | `#id` anchors the chain to entry `id`. |
| AdPlanner.ClassifyTime | src/HTML/Samples/Player/PlayerTest.js:186-189 | `h:m:s` is a mid-roll at (h·60+m)·60+s seconds. |
| AdPlanner.ClassifyMid | src/HTML/Samples/Player/PlayerTest.js:170-189 | An offset that is neither `start` nor `end`, does not start with `#`, has no `%` after its first character and has a `:` after it is a mid-roll without anchor at its `h:m:s` duration. |
| AdPlanner.ClassifyFallsThrough | src/HTML/Samples/Player/PlayerTest.js:182-192 | A percentage, or an offset that is not recognised, is scheduled as a post-roll at 0 without anchor. |
| AdPlanner.NotAfterTrans | src/HTML/Samples/Player/PlayerTest.js:163-165 | The comparator's "not after" order is transitive. |
| AdPlanner.Insert | src/HTML/Samples/Player/PlayerTest.js:162-166 | Inserting into the sorted prefix adds one element. |
| AdPlanner.SortByPod | src/HTML/Samples/Player/PlayerTest.js:162-166 | The sort keeps the length. |
| AdPlanner.SortByPodPermutation | src/HTML/Samples/Player/PlayerTest.js:162-166 | The sort is a permutation of the selection. |
| AdPlanner.SortByPodSorted | src/HTML/Samples/Player/PlayerTest.js:162-166 | The sort leaves the selection ascending by pod sequence number. |
| AdPlanner.SortByPodStable | src/HTML/Samples/Player/PlayerTest.js:162-166 | Entries with the same pod sequence number keep their relative order. |
| AdPlanner.SortInPlace | src/HTML/Samples/Player/PlayerTest.js:161-166 | The array is sorted in place into `SortByPod` of its old contents. |
| AdPlanner.InsertInPlace | src/HTML/Samples/Player/PlayerTest.js:162-166 | One pass moves `a[i]` into the sorted prefix and leaves the rest of the array alone. |
| AdPlanner.InsertAt | src/HTML/Samples/Player/PlayerTest.js:162-166 | An entry placed after a prefix it does not sort before, and before a suffix it sorts before, is where `Insert` puts it. |
| AdPlanner.LeadingSequenced | src/HTML/Samples/Player/PlayerTest.js:194-198 | The count covers the leading sequenced entries and stops at a buffet entry. |
| AdPlanner.ScheduledCount | src/HTML/Samples/Player/PlayerTest.js:194-198 | The first entry is always scheduled. Every later scheduled entry is sequenced, and the loop stops only at a buffet entry. |
| AdPlanner.CountSequencedSort | src/HTML/Samples/Player/PlayerTest.js:162-166 | Sorting keeps the number of sequenced entries. |
| AdPlanner.SortedLeading | src/HTML/Samples/Player/PlayerTest.js:161-198 | In a sorted selection all sequenced entries come first. |
| AdPlanner.ScheduledCountIsMax | src/HTML/Samples/Player/PlayerTest.js:161-198 | A non-empty selection schedules max(1, number of sequenced entries). |
| AdPlanner.PodAdParams | src/HTML/Samples/Player/PlayerTest.js:199-207 | The call carries the entry's URI and media range, the plan's start time, the previous id as anchor and the delete flag. Its roll type is the plan's while the previous id is negative, and "Pod" once it is non-negative or NaN (NaN is not below 0). The clip type is left for `AdClipParams` to default. |
| AdPlanner.ChainCalls | src/HTML/Samples/Player/PlayerTest.js:194-210 | The chain makes one call per entry. |
| AdPlanner.ChainEntries | src/HTML/Samples/Player/PlayerTest.js:199-208 | Every call of the chain schedules its entry's URI and media range as "Media", with the given delete flag. |
| AdPlanner.ChainFirst | src/HTML/Samples/Player/PlayerTest.js:202-206 | The first call has the planned roll type, or is a pod member appended to the anchor. |
| AdPlanner.ChainLinks | src/HTML/Samples/Player/PlayerTest.js:199-209 | With non-negative ids, every later call is a pod member appended to the id the previous call returned, and has no start time. |
| AdPlanner.ChainSecond | src/HTML/Samples/Player/PlayerTest.js:199-209 | The second call is appended to the id the first returned. |
| AdPlanner.PlanCallsCount | src/HTML/Samples/Player/PlayerTest.js:161-211 | An empty selection schedules nothing. Otherwise max(1, number of sequenced entries) ads are scheduled. |
| AdPlanner.ScheduleAdSelectionArray | src/HTML/Samples/Player/PlayerTest.js:153-212 | The array ends up sorted, and the scheduler receives exactly `PlanCalls`: the classified offset, the sort, the cut-off and the chain. |
| AdPlanner.ScheduleChain | src/HTML/Samples/Player/PlayerTest.js:194-210 | The loop makes exactly the chain's calls for the scheduled prefix, threading the returned ids. |
| AdPlanner.ContentChainCalls | src/HTML/Samples/Player/PlayerTest.js:224-235 | Two calls are made per scheduled entry. |
| AdPlanner.ContentChainEntries | src/HTML/Samples/Player/PlayerTest.js:229-234 | Entry k is appended with its own media range, followed by a seek-to-start. |
| AdPlanner.ScheduleContentSelectionArray | src/HTML/Samples/Player/PlayerTest.js:214-237 | The array ends up sorted, and the scheduler receives the content calls for the scheduled prefix. |
| AdPlanner.ScheduleContentChain | src/HTML/Samples/Player/PlayerTest.js:224-235 | The loop makes exactly those calls, with the buffet cut-off. |
| AdPlanner.ScheduleVAST | src/HTML/Samples/Player/PlayerTest.js:311-325 | The document's selection is planned at the VMAP offset, without a delete flag. |
| AdPlanner.ScheduleContentFromVAST | src/HTML/Samples/Player/PlayerTest.js:296-309 | The document's selection is scheduled as content. |
| AdPlanner.AdSourceAds | src/HTML/Samples/Player/PlayerTest.js:346-364 | Only an `AdSource` with exactly one child schedules anything: inline VAST data, or the document `onGetURI` fetches for an ad tag. |
| AdPlanner.NoAdSourceNoJobs | src/HTML/Samples/Player/PlayerTest.js:387-407 | An ad break without an `AdSource` child schedules nothing. |
| AdPlanner.AdSourceHandler | src/HTML/Samples/Player/PlayerTest.js:340-366 | The handler plans the source's ad list at the break's time offset, or makes no call. |
| AdPlanner.JobsCallsAppend | src/HTML/Samples/Player/PlayerTest.js:373-409 | Scheduling two runs of jobs one after the other is scheduling their concatenation. |
| AdPlanner.ScheduleVMAP | src/HTML/Samples/Player/PlayerTest.js:327-410 | The scheduler receives exactly the calls of the ad breaks' jobs, in document order. |
| AdPlanner.ScheduleAdBreak | src/HTML/Samples/Player/PlayerTest.js:377-408 | The element loop of one break makes exactly the calls of its `AdSource` children. |
| AdPlanner.PreRollExample | src/HTML/Samples/Player/PlayerTest.js:153-212 | One 15-second in-line ad at `start` becomes a single pre-roll of media time 0 to 15. |
| PlaybackController.Video.SetPlaybackSegment | src/HTML/Samples/Player/PlayerTest.js:472 | The command is recorded, and the current time is unchanged. |
| PlaybackController.Video.SetCurrentTime | src/HTML/Samples/Player/PlayerTest.js:476 | The command is recorded, and the current time is set. |
| PlaybackController.Show | src/HTML/Samples/Player/PlayerTest.js:469-477 | The new segment becomes current. The player is switched when `idSplitFrom` differs and only seeks otherwise. Nothing else changes. |
| PlaybackController.EndOfSegment | src/HTML/Samples/Player/PlayerTest.js:449-482 | The positions and the log are untouched, and at most two `onEndOfMedia` calls are made. No segment gives `TypeError`. A sequencer exception keeps the old segment, and an exception leaves the video alone. A `SeekToStart` answer is ended by a second call and never shown. A `null` answer stops the player. Otherwise the new segment is shown. |
| PlaybackController.Caught | src/HTML/Samples/Player/PlayerTest.js:535-539 | The exception is logged and the maximum is reset to 0. |
| PlaybackController.Reported | src/HTML/Samples/Player/PlayerTest.js:532-544 | The positions are taken from the result, and the current clip id (or -1) is attached to it. |
| PlaybackController.Measure | src/HTML/Samples/Player/PlayerTest.js:507-544 | The sequencer is asked for the seek-bar position of the current segment, at the starting time or else at the player's time. A failing answer is caught. A report is the answer. An exceeded range ends the segment, with the calls, segment and commands of `EndOfSegment`, and a failure there is caught. Otherwise the segment is kept, no further call is made, and `setPlaybackSegment` of it is issued exactly when a starting time was given. |
| PlaybackController.TimeChanged | src/HTML/Samples/Player/PlayerTest.js:484-545 | Calls, commands and log entries only grow. `undefined` is returned only without a segment, and then nothing but the segment changes. A result carries the stored positions and the current clip id. It is the sequencer's answer to a `mediaToSeekbarTime` call made during the handler (`ReportedFrom`). That call is the last one, unless the range was exceeded, in which case `onEndOfSegment`'s `onEndOfMedia` follows it. Without exceeding, the player receives `setPlaybackSegment` of the segment exactly when a starting time was given, and no other command. A caught exception is logged once, resets the maximum and keeps the position. A starting time makes a linear seek first. |
| PlaybackController.AfterSeekGrows | src/HTML/Samples/Player/PlayerTest.js:496-544 | The same frame and report properties hold for the part after the optional seek. |
| PlaybackController.MeasureGrows | src/HTML/Samples/Player/PlayerTest.js:507-544 | With a segment, the measuring part only adds calls, commands and log entries. A report logs nothing and carries the current clip id. A caught failure logs one exception, keeps the seek-bar position and resets the maximum to 0. |
| PlaybackController.MeasureReports | src/HTML/Samples/Player/PlayerTest.js:511-544 | The measuring part's report is the answer to its own `mediaToSeekbarTime` call, as `ReportedFrom` describes. |
| PlaybackController.AfterSeekReports | src/HTML/Samples/Player/PlayerTest.js:496-544 | The same holds after ending a `SeekToStart` segment first. |
| PlaybackController.SeekFromCurrent | src/HTML/Samples/Player/PlayerTest.js:547-574 | The seek targets the stored seek-bar position plus the distance. A segment answered is shown. A `SequencerError` leads to exactly `onEndOfSegment` on the state after the call. Other exceptions are logged and swallowed. A `null` answer is stored and logged as `TypeError`. The positions are untouched. |
| PlaybackController.PendingAdPlan | src/HTML/Samples/Player/PlayerTest.js:436-440 | Without an offset during an ad, the pending ad is a pod appended to the playing clip. Otherwise it is a mid-roll at the current linear time plus the offset. |
| PlaybackController.MidOffsetPlan | src/HTML/Samples/Player/PlayerTest.js:439 | The offset `0:0:t` is classified as a mid-roll at t seconds without anchor. |
| PlaybackController.Controller.constructor | src/HTML/Samples/Player/PlayerTest.js:28-32 | No segment, both positions 0, and no pending ad. |
| PlaybackController.Controller.ShowSegment | src/HTML/Samples/Player/PlayerTest.js:469-477 | The new state is `Show` of the old one. |
| PlaybackController.Controller.OnEndOfSegment | src/HTML/Samples/Player/PlayerTest.js:449-482 | The escaping exception and the new state are `EndOfSegment` of the old state. |
| PlaybackController.Controller.Catch | src/HTML/Samples/Player/PlayerTest.js:535-539 | The new state is `Caught` of the old one. |
| PlaybackController.Controller.OnCurrentTimeChanged | src/HTML/Samples/Player/PlayerTest.js:484-545 | The result and the new state are `TimeChanged` of the old state. |
| PlaybackController.Controller.ContinueTimeChanged | src/HTML/Samples/Player/PlayerTest.js:496-506 | The result and the new state are `AfterSeek` of the old state. |
| PlaybackController.Controller.MeasureTimeChanged | src/HTML/Samples/Player/PlayerTest.js:507-533 | The result and the new state are `Measure` of the old state. |
| PlaybackController.Controller.SeekFromCurrentPosition | src/HTML/Samples/Player/PlayerTest.js:547-574 | The escaping exception and the new state are `SeekFromCurrent` of the old state. |
| PlaybackController.Controller.SetPendingAdVAST | src/HTML/Samples/Player/PlayerTest.js:412-424 | A fresh array holding the document's selection becomes the pending ad, to be deleted after playing. Nothing else changes. |
| PlaybackController.Controller.SchedulePendingAd | src/HTML/Samples/Player/PlayerTest.js:426-447 | No segment, a failing `mediaToLinearTime` or no pending array throws, each after the calls made so far. Otherwise the pending array is sorted in place and planned at `PendingAdOffset` with its delete flag, and without an offset the segment is then ended. |
| PlaybackController.Controller.SchedulePendingSelection | src/HTML/Samples/Player/PlayerTest.js:442-446 | The pending array is sorted and planned at the offset with the pending delete flag, and the segment is ended exactly when no offset was given. |
| Logging.DumpAlerted | src/HTML/Library/Logging.js:118-131 | The list is emptied. A non-empty list is shown in one alert, one entry per line, and an empty one shows nothing. |
| Logging.Logged | src/HTML/Library/Logging.js:64-89 | The invariant is kept. A message below the level, or any message with logging off, changes nothing, and the settings never change. A type the switch does not list, such as `eType.etop`, logs nothing. Console: the message is written and no entry is kept. Dump: the line is numbered, the number goes up by one, and at most the oldest entry is dropped, exactly when the list is full. Alert: the list is shown, ending with the message, exactly when it fills up. |
| Logging.TypeSet | src/HTML/Library/Logging.js:51-60 | The list is emptied and the type and maximum are always replaced, so the invariant holds. An alert is shown only when leaving a non-empty alert list. |
| Logging.Finished | src/HTML/Library/Logging.js:110-117 | The list is empty in every type, and only the alert type shows its pending entries. |
| Logging.HtmlExamples | src/HTML/Library/Logging.js:137-148 | No entries give `<p></p>`, and two entries are separated by one `<br>`. |
| Logging.HtmlStep | src/HTML/Library/Logging.js:139-144 | One pass of the `dumpHTML` loop appends the entry, and `<br>` unless it is the last, extending the entries joined so far. |
| Logging.HtmlEnd | src/HTML/Library/Logging.js:139-147 | After the last entry and `</p>`, the text is `<p>`, the entries joined by `<br>`, and `</p>`. |
| Logging.StackLines | src/HTML/Library/Logging.js:104-106 | Every stack line is prefixed with `->`. |
| Logging.ExceptionLines | src/HTML/Library/Logging.js:96-107 | The summary line names the exception and says whether a stack follows. The stack lines follow it exactly when there is a stack. |
| Logging.LoggedAllValid | src/HTML/Library/Logging.js:95-107 | Logging several messages keeps the invariant and the settings. |
| Logging.LoggedAllNumbers | src/HTML/Library/Logging.js:80-82 | In the dump type every message takes the next line number. |
| Logging.LoggedAllConsole | src/HTML/Library/Logging.js:77-79 | Logging several messages in the console type writes exactly them, in order, and changes nothing else. |
| Logging.LoggedAllIgnored | src/HTML/Library/Logging.js:69-87 | A type that is not alert, console or dump ignores every message. |
| Logging.LoggedAllDump | src/HTML/Library/Logging.js:80-85 | Logging several messages in the dump type keeps the entries that numbering and dropping the oldest when full leaves, one message at a time. Nothing is shown or written. |
| Logging.KeptAllRecent | src/HTML/Library/Logging.js:80-85 | For a list below the maximum, dropping the oldest entry whenever the list is full keeps exactly the most recent entries, fewer than the maximum. |
| Logging.DumpKeptRecent | src/HTML/Library/Logging.js:80-85 | One entry into a list below the maximum keeps its recent entries, and the list stays below the maximum. |
| Logging.RecentAppend | src/HTML/Library/Logging.js:80-85 | Keeping the recent entries, then appending, then keeping again is keeping once at the end. |
| Logging.ExceptionLogged | src/HTML/Library/Logging.js:90-109 | An exception below the level, or in a type that keeps and writes nothing, is not logged. The invariant and the settings are kept. Console: the summary line and then the `->` stack lines are written, in order, and nothing else changes. Dump: every message takes the next line number, and the list holds the most recent of the old entries followed by the numbered messages, fewer than the maximum. Nothing is shown or written. |
| Logging.LogBook.constructor | src/HTML/Library/Logging.js:28-33 | The log book starts empty with maximum 20, type none, level error and line 1, and the invariant holds. |
| Logging.LogBook.SetLoggingType | src/HTML/Library/Logging.js:51-60 | The new state is `TypeSet` of the old one. |
| Logging.LogBook.SetLoggingLevel | src/HTML/Library/Logging.js:61-63 | Only the level changes. |
| Logging.LogBook.Log | src/HTML/Library/Logging.js:64-89 | The new state is `Logged` of the old one. |
| Logging.LogBook.LogException | src/HTML/Library/Logging.js:90-109 | The new state is `ExceptionLogged` of the old one. |
| Logging.LogBook.OnFinished | src/HTML/Library/Logging.js:110-117 | The new state is `Finished` of the old one. |
| Logging.LogBook.DumpAlert | src/HTML/Library/Logging.js:118-131 | The alert loop produces exactly `DumpAlerted` of the old state. |
| Logging.LogBook.DumpJSON | src/HTML/Library/Logging.js:132-136 | The entries are returned and the list is emptied. Nothing else changes. |
| Logging.LogBook.DumpHTML | src/HTML/Library/Logging.js:137-148 | The text is `<p>`, then the entries joined by `<br>`, then `</p>`, and the list is emptied. Nothing else changes. |

## Left out

- ExceptionLogged: for the alert type it states the invariant and the settings, but not which alert boxes are shown. The chunking of the messages into full lists is left to `Logged`, whose contract describes one message.
- **Ad resolver accessors.** The VAST and VMAP accessors of the ad resolver (`createEntry`, `getAdList`, `getCreativeList`, `getMediaFileList`, `getAdBreakList`, `getAdSource`, `createVASTEntryFromAdBreak`, `releaseEntry`) are not part of this model, because their implementation is not shown. Their output is modelled as input datatypes: ads, creatives, media files and ad breaks.
- **`onGetURI`.** It is a function parameter from a URI to the ad list of the fetched document, because it is a foreign call.
- **Sequencer collaborators.** The playlist, the segment pool, the scheduler and the rest of the sequencer chain are collaborators that answer arbitrarily and record calls, because their behaviour is outside the core.
  - The plugin chain's first sequencer and the sequencer the controller holds are one object.
- **`timeString` and log texts.** The informational messages the player logs are not modelled, because they are display only. Only the exceptions passed to `logException` are recorded.
- **`PlayerApp.js`.** It is left out, because it is only DOM and `<video>` event wiring.
- **iOS headers.** The iOS headers are left out, because they are declarations only.
- **`createCustomSequencerPlugin` and registration.** These are left out, because the custom plugin is empty and the registration happens at module load.
- **Numbers.** Times and ids are integers, because no fractional arithmetic is modelled.
  - `Number()` is modelled only on optional `-` plus decimal digits (with `""` giving 0). Other text gives NaN.
  - `sequence`, `psns:mediaTimeOffset` and `minMediaTime` are modelled as the numbers their attribute texts denote, or `None` when the attribute is absent. An attribute is text, so a present `"0"` is truthy and `sequence="0"` stays sequenced (`PodOrderOf(Some(0))` is `Sequenced(0)`). An empty or non-numeric attribute text is not modelled.
  - A `sequence` attribute equal to `Number.MAX_VALUE` is not modelled, because the source would take it for a buffet ad but the model keeps it sequenced.
- **`Array.prototype.sort`.** It is modelled as a stable insertion sort, because the engine's sort algorithm is not given. Every property stated of it (ascending, permutation, stable) holds for any stable sort.
- **`JSON.stringify`.** `Logging.LogBook.DumpJSON` returns the entries rather than their JSON text, because the exact serialisation is outside the core.
- **`alert`, `console.log` and `Date`.** `alert` and `console.log` are traces of the texts they receive, and the time stamp of `log` is a parameter. In `logException` the time stamp of the message at index `k` is `clock(k)`.
- **Non-string stacks and `null` maxima.** A non-string stack in `logException` is not modelled, because the model takes an exception's fields as strings, with `""` for absent. A `null` maximum length is not modelled either.
- **Aliasing of argument objects.** `livePlugin.seekFromLinearPosition` modifies the params object the caller passed, and `mediaToSeekbarTime` modifies the result object of the inner link. The model passes values, so the caller's copy keeping the change is not captured.
- **A segment without a `clip`.** The model's segments always have a clip, so the `!myCurrentSegment.clip` test of `onCurrentTimeChanged` only sees a missing segment.
- **Error names are constructors.** `ex.name === "PLAYER_SEQUENCER:SequencerError"` is modelled by the `SequencerError` constructor of `Error`.
