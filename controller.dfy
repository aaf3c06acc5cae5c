/** The playback controller of the sample player: the module state
    `myCurrentSegment`, `myCurrentSeekbarPosition`,
    `myCurrentMaxSeekbarPosition` and `myPendingAdParams`, and the handlers
    that move it along as the video element reports the end of a segment, a
    change of its current time, or a seek request.

    Every handler is specified by a pure function on a `State`, the part of
    the world it can see: the controller's fields, the calls made on the
    sequencer, the video element's current time and the commands given to
    it, and the exceptions written to the log. */
module PlaybackController {
  import opened Wrappers
  import opened JsText
  import opened Sequencing
  import opened AdSelection
  import opened AdPlanner

  // ---------------------------------------------------------------------------
  // The video element
  // ---------------------------------------------------------------------------

  /** What the controller tells the video element, in the order told. */
  datatype VideoCommand =
    | SetSegment(segment: Option<PlaybackSegment>)   // `setPlaybackSegment(segment)`
    | SetTime(time: int)                             // `currentTime = time`

  /** The video element handed to `initialize`: it answers `canPlayType`,
      has a `currentTime` that playback moves on between the handlers, and
      records what it is told. */
  class Video {
    const canPlay: string -> bool
    var currentTime: int
    var commands: seq<VideoCommand>

    constructor (canPlay: string -> bool, currentTime: int)
      ensures this.canPlay == canPlay && this.currentTime == currentTime && commands == []
    {
      this.canPlay := canPlay;
      this.currentTime := currentTime;
      commands := [];
    }

    method SetPlaybackSegment(segment: Option<PlaybackSegment>)
      modifies this
      ensures commands == old(commands) + [SetSegment(segment)]
      ensures currentTime == old(currentTime)
    {
      commands := commands + [SetSegment(segment)];
    }

    method SetCurrentTime(time: int)
      modifies this
      ensures commands == old(commands) + [SetTime(time)]
      ensures currentTime == time
    {
      commands := commands + [SetTime(time)];
      currentTime := time;
    }
  }

  // ---------------------------------------------------------------------------
  // The state the handlers work on, and their specifications
  // ---------------------------------------------------------------------------

  datatype State = State(
    segment: Option<PlaybackSegment>,
    seekbarPosition: int,
    maxSeekbarPosition: int,
    calls: seq<SequencerCall>,
    currentTime: int,
    commands: seq<VideoCommand>,
    exceptions: seq<Error>)

  /** A handler's outcome: the exception it lets escape, if any, and the
      state it leaves. */
  datatype Step = Step(thrown: Option<Error>, state: State)

  /** How a new segment `x` reaches the player once the clip that was
      playing had `oldSplit` as its `idSplitFrom`: another clip is switched
      to, and in the same clip the player only seeks. */
  predicate Shown(oldSplit: int, x: PlaybackSegment, before: State, after: State) {
    if oldSplit != x.clip.idSplitFrom then
      after.commands == before.commands + [SetSegment(Some(x))] && after.currentTime == before.currentTime
    else
      after.commands == before.commands + [SetTime(x.initialPlaybackStartTime)] && after.currentTime == x.initialPlaybackStartTime
  }

  /** `x` becomes the current segment and is shown. */
  function Show(s: State, oldSplit: int, x: PlaybackSegment): (r: State)
    ensures r.segment == Some(x)
    ensures Shown(oldSplit, x, s, r)
    ensures r == s.(segment := r.segment, currentTime := r.currentTime, commands := r.commands)
  {
    var t := s.(segment := Some(x));
    if oldSplit != x.clip.idSplitFrom then t.(commands := t.commands + [SetSegment(Some(x))])
    else t.(currentTime := x.initialPlaybackStartTime, commands := t.commands + [SetTime(x.initialPlaybackStartTime)])
  }

  /** The parameters of the `onEndOfMedia` call for segment id `id`. */
  function EndParams(id: int, s: State): EndOfMediaParams {
    EndOfMediaParams(id, 1, Some(s.currentTime))
  }

  /** `onEndOfSegment`: the sequencer is told that the current segment has
      ended and answers the next one. A `SeekToStart` answer is ended at once
      with a second call and the segment after it is taken instead; the
      player is then switched or seeks, or is stopped when there is no next
      segment. */
  function EndOfSegment(sq: Sequencer, s: State): (r: Step)
    // the seek-bar positions and the log are not touched
    ensures r.state.seekbarPosition == s.seekbarPosition && r.state.maxSeekbarPosition == s.maxSeekbarPosition
    ensures r.state.exceptions == s.exceptions
    // at most two calls are made, both `onEndOfMedia`
    ensures s.calls <= r.state.calls && |r.state.calls| <= |s.calls| + 2
    ensures forall k :: |s.calls| <= k < |r.state.calls| ==> r.state.calls[k].OnEndOfMediaCall?
    // without a current segment the first dereference throws
    ensures s.segment.None? ==> r == Step(Some(TypeError), s)
    // an exception leaves the video element alone
    ensures r.thrown.Some? ==> r.state.commands == s.commands && r.state.currentTime == s.currentTime
    // a normal return stops the player or shows the new segment
    ensures r.thrown.None? && r.state.segment.None? ==>
      r.state.commands == s.commands + [SetSegment(None)] && r.state.currentTime == s.currentTime
    ensures r.thrown.None? && r.state.segment.Some? ==>
      s.segment.Some? && Shown(s.segment.value.clip.idSplitFrom, r.state.segment.value, s, r.state)
    ensures s.segment.Some? ==>
      var first := sq.endOfMedia(s.calls, EndParams(s.segment.value.segmentId, s));
      var calls1 := s.calls + [OnEndOfMediaCall(EndParams(s.segment.value.segmentId, s))];
      // an exception from the sequencer keeps the segment that was playing
      && (first.Failure? ==> r == Step(Some(first.error), s.(calls := calls1)))
      // any other answer than `SeekToStart` becomes the current segment
      && (first.Success? && (first.value.None? || first.value.value.clip.eClipType != SeekToStart) ==>
            r.state.calls == calls1 && r.state.segment == first.value && r.thrown.None?)
      // a `SeekToStart` answer is ended with a second call and never shown
      && (first.Success? && first.value.Some? && first.value.value.clip.eClipType == SeekToStart ==>
            var params2 := EndParams(first.value.value.segmentId, s);
            var second := sq.endOfMedia(calls1, params2);
            && r.state.calls == calls1 + [OnEndOfMediaCall(params2)]
            && (second.Failure? ==> r == Step(Some(second.error), s.(segment := first.value, calls := r.state.calls)))
            && (second.Success? ==> r.state.segment == second.value)
            && (second.Success? && second.value.None? ==> r.thrown == Some(TypeError)))
  {
    if s.segment.None? then Step(Some(TypeError), s)
    else
      var seg := s.segment.value;
      var params := EndParams(seg.segmentId, s);
      var first := sq.endOfMedia(s.calls, params);
      var s1 := s.(calls := s.calls + [OnEndOfMediaCall(params)]);
      if first.Failure? then Step(Some(first.error), s1)
      else if first.value.None? then Step(None, s1.(segment := None, commands := s1.commands + [SetSegment(None)]))
      else if first.value.value.clip.eClipType != SeekToStart then Step(None, Show(s1, seg.clip.idSplitFrom, first.value.value))
      else
        var params2 := EndParams(first.value.value.segmentId, s);
        var second := sq.endOfMedia(s1.calls, params2);
        var s2 := s1.(segment := first.value, calls := s1.calls + [OnEndOfMediaCall(params2)]);
        if second.Failure? then Step(Some(second.error), s2)
        else if second.value.None? then Step(Some(TypeError), s2.(segment := None))
        else Step(None, Show(s2, seg.clip.idSplitFrom, second.value.value))
  }

  /** What `onCurrentTimeChanged` returns: `undefined` when there is no
      segment, `null` when an exception was caught, or the sequencer's
      seek-bar result with the id of the current clip (-1 for none). */
  datatype TimeChange =
    | NoSegment
    | Failed
    | Report(result: SeekbarResult, currentClipId: int)

  datatype TimeStep = TimeStep(report: TimeChange, state: State)

  function ClipIdOf(segment: Option<PlaybackSegment>): int {
    if segment.Some? then segment.value.clip.id else -1
  }

  /** The `catch` of `onCurrentTimeChanged`: the exception is logged and the
      maximum seek-bar position reset. */
  function Caught(s: State, e: Error): (r: TimeStep)
    ensures r.report == Failed
    ensures r.state.exceptions == s.exceptions + [e] && r.state.maxSeekbarPosition == 0
  {
    TimeStep(Failed, s.(exceptions := s.exceptions + [e], maxSeekbarPosition := 0))
  }

  /** The normal end of `onCurrentTimeChanged`: the positions are taken
      from the result, and the current clip's id is attached to it. */
  function Reported(s: State, result: SeekbarResult): (r: TimeStep)
    ensures r.report == Report(result, ClipIdOf(s.segment))
    ensures r.state.seekbarPosition == result.currentSeekbarPosition
    ensures r.state.maxSeekbarPosition == result.maxSeekbarPosition
  {
    TimeStep(Report(result, ClipIdOf(s.segment)),
             s.(seekbarPosition := result.currentSeekbarPosition, maxSeekbarPosition := result.maxSeekbarPosition))
  }

  /** The part of `onCurrentTimeChanged` from the asking of the seek-bar
      position on, for a current segment that is not `SeekToStart`. */
  function Measure(sq: Sequencer, s: State, startingLinearTime: Option<int>): (r: TimeStep)
    requires s.segment.Some?
    ensures
      var params := MediaParams(s.segment.value.segmentId, 1, startingLinearTime.GetOr(s.currentTime), None, None, false, false);
      var answer := sq.mediaToSeekbar(s.calls, params);
      var s1 := s.(calls := s.calls + [MediaToSeekbarTimeCall(params)]);
      // the position asked for is the starting time, or else the player's time
      && s1.calls <= r.state.calls
      // a failing answer is caught, and nothing else is done
      && (answer.Failure? ==> r == Caught(s1, answer.error))
      // a report is the sequencer's answer
      && (r.report.Report? ==> answer == Success(r.report.result))
      // an exceeded range ends the segment, and an exception from that is caught
      && (answer.Success? && answer.value.playbackRangeExceeded ==>
            var ended := EndOfSegment(sq, s1);
            && r.state.calls == ended.state.calls && r.state.segment == ended.state.segment
            && r.state.commands == ended.state.commands
            && (r.report.Failed? <==> ended.thrown.Some?))
      // otherwise the segment is kept, and handed to the player exactly when a starting time was given
      && (answer.Success? && !answer.value.playbackRangeExceeded ==>
            && r.report == Report(answer.value, ClipIdOf(s.segment))
            && r.state.calls == s1.calls && r.state.segment == s.segment
            && r.state.commands == s.commands + (if startingLinearTime.Some? then [SetSegment(s.segment)] else []))
  {
    var params := MediaParams(s.segment.value.segmentId, 1, startingLinearTime.GetOr(s.currentTime), None, None, false, false);
    var answer := sq.mediaToSeekbar(s.calls, params);
    var s1 := s.(calls := s.calls + [MediaToSeekbarTimeCall(params)]);
    if answer.Failure? then Caught(s1, answer.error)
    else if answer.value.playbackRangeExceeded then
      var ended := EndOfSegment(sq, s1);
      if ended.thrown.Some? then Caught(ended.state, ended.thrown.value) else Reported(ended.state, answer.value)
    else if startingLinearTime.Some? then Reported(s1.(commands := s1.commands + [SetSegment(s1.segment)]), answer.value)
    else Reported(s1, answer.value)
  }

  /** The part of `onCurrentTimeChanged` after the optional seek: a
      `SeekToStart` segment is ended first. */
  function AfterSeek(sq: Sequencer, s: State, startingLinearTime: Option<int>): TimeStep {
    if s.segment.None? then TimeStep(NoSegment, s)
    else if s.segment.value.clip.eClipType == SeekToStart then
      var params := EndOfMediaParams(s.segment.value.segmentId, 1, None);
      var answer := sq.endOfMedia(s.calls, params);
      var s1 := s.(calls := s.calls + [OnEndOfMediaCall(params)]);
      if answer.Failure? then Caught(s1, answer.error)
      else if answer.value.None? then Caught(s1.(segment := None), TypeError)
      else Measure(sq, s1.(segment := answer.value), startingLinearTime)
    else Measure(sq, s, startingLinearTime)
  }

  /** The linear seek `onCurrentTimeChanged` makes for a starting time. */
  function StartParams(t: int): LinearSeekParams {
    LinearSeekParams(None, t, None, None)
  }

  /** `onCurrentTimeChanged(startingLinearTime)`. */
  function TimeChanged(sq: Sequencer, s: State, startingLinearTime: Option<int>): (r: TimeStep)
    // calls, commands and log entries are only ever added
    ensures s.calls <= r.state.calls && s.commands <= r.state.commands && s.exceptions <= r.state.exceptions
    // nothing to report without a segment, and nothing changes but the segment and the calls
    ensures r.report.NoSegment? ==>
      && r.state.segment.None?
      && r.state == s.(segment := None, calls := r.state.calls)
    ensures startingLinearTime.None? && s.segment.None? ==> r == TimeStep(NoSegment, s)
    // a report carries the positions the controller keeps, and the current clip
    ensures r.report.Report? ==>
      && r.state.seekbarPosition == r.report.result.currentSeekbarPosition
      && r.state.maxSeekbarPosition == r.report.result.maxSeekbarPosition
      && r.report.currentClipId == ClipIdOf(r.state.segment)
      && r.state.exceptions == s.exceptions
    // a caught exception is logged once, resets the maximum and keeps the position
    ensures r.report.Failed? ==>
      && |r.state.exceptions| == |s.exceptions| + 1
      && r.state.maxSeekbarPosition == 0
      && r.state.seekbarPosition == s.seekbarPosition
    // a starting time is sought first, from no current segment and with no DVR edges
    ensures startingLinearTime.Some? ==>
      |r.state.calls| > |s.calls| && r.state.calls[|s.calls|] == SeekFromLinearPositionCall(StartParams(startingLinearTime.value))
    // a report is the sequencer's `mediaToSeekbarTime` answer; an exceeded range has ended the
    // segment, and otherwise the player is handed the segment exactly for a starting time
    ensures ReportedFrom(sq, s, r, startingLinearTime.Some?)
  {
    if startingLinearTime.Some? then
      var params := StartParams(startingLinearTime.value);
      var answer := sq.seekFromLinear(s.calls, params);
      var s1 := s.(calls := s.calls + [SeekFromLinearPositionCall(params)]);
      if answer.Failure? then Caught(s1, answer.error)
      else
        var s2 := s1.(segment := answer.value);
        AfterSeekGrows(sq, s2, startingLinearTime);
        AfterSeekReports(sq, s2, startingLinearTime);
        AfterSeek(sq, s2, startingLinearTime)
    else
      AfterSeekGrows(sq, s, startingLinearTime);
      AfterSeekReports(sq, s, startingLinearTime);
      AfterSeek(sq, s, startingLinearTime)
  }

  /** The call at index `k` of `calls` is a `mediaToSeekbarTime` call that
      the sequencer answered with `result`, given the calls made before it. */
  predicate AnsweredAt(sq: Sequencer, calls: seq<SequencerCall>, k: int, result: SeekbarResult) {
    0 <= k < |calls| && calls[k].MediaToSeekbarTimeCall? && sq.mediaToSeekbar(calls[..k], calls[k].mediaParams) == Success(result)
  }

  /** Where a report of `onCurrentTimeChanged` comes from: it is the answer
      to a `mediaToSeekbarTime` call made after `s`. That call is the last
      one unless the range was exceeded, and then the `onEndOfMedia` of
      `onEndOfSegment` follows it. When the range was not exceeded the player
      is handed the segment exactly when `started`, and gets nothing else. */
  ghost predicate ReportedFrom(sq: Sequencer, s: State, r: TimeStep, started: bool) {
    r.report.Report? ==>
      && (exists k :: |s.calls| <= k && AnsweredAt(sq, r.state.calls, k, r.report.result) &&
            if r.report.result.playbackRangeExceeded then k + 1 < |r.state.calls| && r.state.calls[k + 1].OnEndOfMediaCall?
            else k == |r.state.calls| - 1)
      && (!r.report.result.playbackRangeExceeded ==>
            r.state.commands == s.commands + (if started then [SetSegment(r.state.segment)] else []))
  }

  /** The measuring part reports the answer it asked for. */
  lemma MeasureReports(sq: Sequencer, s: State, startingLinearTime: Option<int>)
    requires s.segment.Some?
    ensures ReportedFrom(sq, s, Measure(sq, s, startingLinearTime), startingLinearTime.Some?)
  {
    var r := Measure(sq, s, startingLinearTime);
    var params := MediaParams(s.segment.value.segmentId, 1, startingLinearTime.GetOr(s.currentTime), None, None, false, false);
    var s1 := s.(calls := s.calls + [MediaToSeekbarTimeCall(params)]);
    if r.report.Report? {
      var k := |s.calls|;
      assert r.state.calls[..k] == s.calls && r.state.calls[k] == MediaToSeekbarTimeCall(params) by {
        assert r.state.calls[..k + 1] == s1.calls;
      }
      if r.report.result.playbackRangeExceeded {
        var ended := EndOfSegment(sq, s1);
        assert |ended.state.calls| > |s1.calls|;
        assert AnsweredAt(sq, r.state.calls, k, r.report.result);
      } else {
        assert AnsweredAt(sq, r.state.calls, k, r.report.result);
      }
    }
  }

  /** The part after the optional seek reports the answer it asked for. */
  lemma AfterSeekReports(sq: Sequencer, s: State, startingLinearTime: Option<int>)
    ensures ReportedFrom(sq, s, AfterSeek(sq, s, startingLinearTime), startingLinearTime.Some?)
  {
    if s.segment.Some? {
      if s.segment.value.clip.eClipType == SeekToStart {
        var params := EndOfMediaParams(s.segment.value.segmentId, 1, None);
        var answer := sq.endOfMedia(s.calls, params);
        var s1 := s.(calls := s.calls + [OnEndOfMediaCall(params)]);
        if answer.Success? && answer.value.Some? {
          MeasureReports(sq, s1.(segment := answer.value), startingLinearTime);
        }
      } else {
        MeasureReports(sq, s, startingLinearTime);
      }
    }
  }

  /** What every part of `onCurrentTimeChanged` keeps: traces only grow,
      `undefined` is returned only without a segment and changes nothing, a
      result leaves the log alone and carries the current clip's id, and a
      caught exception is logged once, keeps the position and resets the
      maximum. */
  predicate TimeFrame(s: State, r: TimeStep) {
    && s.calls <= r.state.calls && s.commands <= r.state.commands && s.exceptions <= r.state.exceptions
    && (r.report.NoSegment? ==> s.segment.None? && r.state == s)
    && (r.report.Report? ==> r.state.exceptions == s.exceptions && r.report.currentClipId == ClipIdOf(r.state.segment))
    && (r.report.Failed? ==>
          |r.state.exceptions| == |s.exceptions| + 1 && r.state.seekbarPosition == s.seekbarPosition && r.state.maxSeekbarPosition == 0)
  }

  /** The part after the optional seek keeps `TimeFrame`. */
  lemma AfterSeekGrows(sq: Sequencer, s: State, startingLinearTime: Option<int>)
    ensures TimeFrame(s, AfterSeek(sq, s, startingLinearTime))
  {
    if s.segment.Some? {
      if s.segment.value.clip.eClipType == SeekToStart {
        var params := EndOfMediaParams(s.segment.value.segmentId, 1, None);
        var answer := sq.endOfMedia(s.calls, params);
        var s1 := s.(calls := s.calls + [OnEndOfMediaCall(params)]);
        if answer.Success? && answer.value.Some? {
          MeasureGrows(sq, s1.(segment := answer.value), startingLinearTime);
        }
      } else {
        MeasureGrows(sq, s, startingLinearTime);
      }
    }
  }

  /** The part from the asking of the seek-bar position on keeps `TimeFrame`. */
  lemma MeasureGrows(sq: Sequencer, s: State, startingLinearTime: Option<int>)
    requires s.segment.Some?
    ensures TimeFrame(s, Measure(sq, s, startingLinearTime))
  {
    var params := MediaParams(s.segment.value.segmentId, 1, startingLinearTime.GetOr(s.currentTime), None, None, false, false);
    var answer := sq.mediaToSeekbar(s.calls, params);
    var s1 := s.(calls := s.calls + [MediaToSeekbarTimeCall(params)]);
    if answer.Success? && answer.value.playbackRangeExceeded {
      var ended := EndOfSegment(sq, s1);
      assert s.commands <= ended.state.commands;
    }
  }

  /** `seekFromCurrentPosition(skipDistance)`: a seek-bar seek by
      `skipDistance` from the controller's seek-bar position. */
  function SeekFromCurrent(sq: Sequencer, s: State, skipDistance: int): (r: Step)
    // the seek-bar positions are not touched
    ensures r.state.seekbarPosition == s.seekbarPosition && r.state.maxSeekbarPosition == s.maxSeekbarPosition
    // without a current segment the parameters cannot be built
    ensures s.segment.None? ==> r == Step(Some(TypeError), s)
    ensures s.segment.Some? ==>
      var seg := s.segment.value;
      var params := SeekbarSeekParams(seg.segmentId, 1, s.seekbarPosition + skipDistance);
      var answer := sq.seekFromSeekbar(s.calls, params);
      var s1 := s.(calls := s.calls + [SeekFromSeekbarPositionCall(params)]);
      // the target is the current seek-bar position moved by the distance
      && |r.state.calls| > |s.calls| && r.state.calls[|s.calls|] == SeekFromSeekbarPositionCall(params)
      // a segment answered is switched to or sought in
      && (answer.Success? && answer.value.Some? ==>
            r.thrown.None? && r.state.segment == answer.value && r.state.calls == s1.calls && Shown(seg.clip.idSplitFrom, answer.value.value, s, r.state))
      // a sequencer error ends the segment that was playing, once, and nothing else happens
      && (answer.Failure? && answer.error.SequencerError? ==> r == EndOfSegment(sq, s1))
      // any other exception is logged and swallowed
      && (answer.Failure? && !answer.error.SequencerError? ==> r == Step(None, s1.(exceptions := s1.exceptions + [answer.error])))
      // a missing segment is stored, and dereferencing it throws a logged TypeError
      && (answer.Success? && answer.value.None? ==> r == Step(None, s1.(segment := None, exceptions := s1.exceptions + [TypeError])))
  {
    if s.segment.None? then Step(Some(TypeError), s)
    else
      var seg := s.segment.value;
      var params := SeekbarSeekParams(seg.segmentId, 1, s.seekbarPosition + skipDistance);
      var answer := sq.seekFromSeekbar(s.calls, params);
      var s1 := s.(calls := s.calls + [SeekFromSeekbarPositionCall(params)]);
      if answer.Success? && answer.value.Some? then Step(None, Show(s1, seg.clip.idSplitFrom, answer.value.value))
      else
        var s2 := if answer.Success? then s1.(segment := None) else s1;
        var e := if answer.Success? then TypeError else answer.error;
        if e.SequencerError? then EndOfSegment(sq, s2) else Step(None, s2.(exceptions := s2.exceptions + [e]))
  }

  // ---------------------------------------------------------------------------
  // The pending ad
  // ---------------------------------------------------------------------------

  /** `!timeOffset`: the offset is left out, or zero. */
  predicate NoOffset(timeOffset: Option<int>) {
    timeOffset.None? || timeOffset.value == 0
  }

  /** The VMAP time offset `schedulePendingAd` schedules the pending ad at,
      for the clip playing at linear time `currentLinearTime`. */
  function PendingAdOffset(clip: Clip, currentLinearTime: int, timeOffset: Option<int>): string {
    if NoOffset(timeOffset) && clip.isAdvertisement then "#" + IntToString(clip.id)
    else "0:0:" + IntToString(currentLinearTime + timeOffset.GetOr(0))
  }

  /** The pending ad is appended to the ad that is playing when no offset is
      given, and is otherwise a mid-roll at the current linear time plus the
      offset. */
  lemma PendingAdPlan(clip: Clip, currentLinearTime: int, timeOffset: Option<int>)
    ensures ClassifyOffset(PendingAdOffset(clip, currentLinearTime, timeOffset)) ==
      if NoOffset(timeOffset) && clip.isAdvertisement then OffsetPlan("Post", Finite(0), Finite(clip.id))
      else OffsetPlan("Mid", Finite(currentLinearTime + timeOffset.GetOr(0)), Finite(-1))
  {
    if NoOffset(timeOffset) && clip.isAdvertisement {
      ClassifyAnchor(clip.id);
    } else {
      MidOffsetPlan(currentLinearTime + timeOffset.GetOr(0));
    }
  }

  /** `0:0:t` is a mid-roll at `t` seconds. */
  lemma MidOffsetPlan(t: int)
    ensures ClassifyOffset("0:0:" + IntToString(t)) == OffsetPlan("Mid", Finite(t), Finite(-1))
  {
    MidOffsetText(t);
    ClassifyTime(0, 0, t);
  }

  lemma MidOffsetText(t: int)
    ensures "0:0:" + IntToString(t) == IntToString(0) + ":" + IntToString(0) + ":" + IntToString(t)
  {
    assert IntToString(0) == "0";
  }

  // ---------------------------------------------------------------------------
  // The controller
  // ---------------------------------------------------------------------------

  /** The module state of the sample player and its collaborators. The
      pending ad is `myPendingAdParams`: `None` while it is the empty object
      `{}` it starts as. */
  class Controller {
    const sequencer: Sequencer
    const scheduler: Scheduler
    const video: Video
    var currentSegment: Option<PlaybackSegment>
    var currentMaxSeekbarPosition: int
    var currentSeekbarPosition: int
    var pendingAdSelection: Option<array<AdSelectionEntry>>
    var pendingDeleteAfterPlayed: bool
    /** The exceptions passed to `logBook.logException`. */
    var loggedExceptions: seq<Error>

    /** The module's initial state, after `initialize(video)`. */
    constructor (sequencer: Sequencer, scheduler: Scheduler, video: Video)
      ensures this.sequencer == sequencer && this.scheduler == scheduler && this.video == video
      ensures currentSegment.None? && currentMaxSeekbarPosition == 0 && currentSeekbarPosition == 0
      ensures pendingAdSelection.None? && !pendingDeleteAfterPlayed && loggedExceptions == []
    {
      this.sequencer := sequencer;
      this.scheduler := scheduler;
      this.video := video;
      currentSegment := None;
      currentMaxSeekbarPosition := 0;
      currentSeekbarPosition := 0;
      pendingAdSelection := None;
      pendingDeleteAfterPlayed := false;
      loggedExceptions := [];
    }

    function Snapshot(): State
      reads this, sequencer, video
    {
      State(currentSegment, currentSeekbarPosition, currentMaxSeekbarPosition,
            sequencer.calls, video.currentTime, video.commands, loggedExceptions)
    }

    /** Makes `x` the current segment and shows it. */
    method ShowSegment(oldSplit: int, x: PlaybackSegment)
      modifies this, video
      ensures Snapshot() == Show(old(Snapshot()), oldSplit, x)
      ensures pendingAdSelection == old(pendingAdSelection) && pendingDeleteAfterPlayed == old(pendingDeleteAfterPlayed)
    {
      currentSegment := Some(x);
      if oldSplit != x.clip.idSplitFrom {
        video.SetPlaybackSegment(currentSegment);
      } else {
        video.SetCurrentTime(x.initialPlaybackStartTime);
      }
    }

    /** `onEndOfSegment()`. */
    method OnEndOfSegment() returns (thrown: Option<Error>)
      modifies this, sequencer, video
      ensures Step(thrown, Snapshot()) == EndOfSegment(sequencer, old(Snapshot()))
      ensures pendingAdSelection == old(pendingAdSelection) && pendingDeleteAfterPlayed == old(pendingDeleteAfterPlayed)
    {
      if currentSegment.None? {
        return Some(TypeError);
      }
      var params := EndOfMediaParams(currentSegment.value.segmentId, 1, Some(video.currentTime));
      var currentIdSplitFrom := currentSegment.value.clip.idSplitFrom;
      var answer := sequencer.OnEndOfMedia(params);
      if answer.Failure? {
        return Some(answer.error);
      }
      currentSegment := answer.value;
      if currentSegment.Some? {
        if currentSegment.value.clip.eClipType == SeekToStart {
          // first end the SeekToStart segment so that it is deleted
          params := params.(currentSegmentId := currentSegment.value.segmentId, currentPlaybackRate := 1);
          answer := sequencer.OnEndOfMedia(params);
          if answer.Failure? {
            return Some(answer.error);
          }
          currentSegment := answer.value;
          if currentSegment.None? {
            return Some(TypeError);
          }
        }
        ShowSegment(currentIdSplitFrom, currentSegment.value);
      } else {
        video.SetPlaybackSegment(None);
      }
      return None;
    }

    /** The `catch` of `onCurrentTimeChanged`. */
    method Catch(e: Error) returns (r: TimeChange)
      modifies this
      ensures TimeStep(r, Snapshot()) == Caught(old(Snapshot()), e)
      ensures pendingAdSelection == old(pendingAdSelection) && pendingDeleteAfterPlayed == old(pendingDeleteAfterPlayed)
    {
      loggedExceptions := loggedExceptions + [e];
      currentMaxSeekbarPosition := 0;
      r := Failed;
    }

    /** `onCurrentTimeChanged(startingLinearTime)`. */
    method OnCurrentTimeChanged(startingLinearTime: Option<int>) returns (r: TimeChange)
      modifies this, sequencer, video
      ensures TimeStep(r, Snapshot()) == TimeChanged(sequencer, old(Snapshot()), startingLinearTime)
      ensures pendingAdSelection == old(pendingAdSelection) && pendingDeleteAfterPlayed == old(pendingDeleteAfterPlayed)
    {
      if startingLinearTime.Some? {
        var answer := sequencer.SeekFromLinearPosition(StartParams(startingLinearTime.value));
        if answer.Failure? {
          r := Catch(answer.error);
          return;
        }
        currentSegment := answer.value;
      }
      r := ContinueTimeChanged(startingLinearTime);
    }

    /** `onCurrentTimeChanged` after the optional seek. */
    method ContinueTimeChanged(startingLinearTime: Option<int>) returns (r: TimeChange)
      modifies this, sequencer, video
      ensures TimeStep(r, Snapshot()) == AfterSeek(sequencer, old(Snapshot()), startingLinearTime)
      ensures pendingAdSelection == old(pendingAdSelection) && pendingDeleteAfterPlayed == old(pendingDeleteAfterPlayed)
    {
      if currentSegment.None? {
        return NoSegment;
      }
      if currentSegment.value.clip.eClipType == SeekToStart {
        // first end the SeekToStart segment so that it is deleted
        var answer := sequencer.OnEndOfMedia(EndOfMediaParams(currentSegment.value.segmentId, 1, None));
        if answer.Failure? {
          r := Catch(answer.error);
          return;
        }
        currentSegment := answer.value;
        if currentSegment.None? {
          r := Catch(TypeError);
          return;
        }
      }
      r := MeasureTimeChanged(startingLinearTime);
    }

    /** `onCurrentTimeChanged` from the asking of the seek-bar position on. */
    method MeasureTimeChanged(startingLinearTime: Option<int>) returns (r: TimeChange)
      requires currentSegment.Some?
      modifies this, sequencer, video
      ensures TimeStep(r, Snapshot()) == Measure(sequencer, old(Snapshot()), startingLinearTime)
      ensures pendingAdSelection == old(pendingAdSelection) && pendingDeleteAfterPlayed == old(pendingDeleteAfterPlayed)
    {
      var params := MediaParams(currentSegment.value.segmentId, 1, startingLinearTime.GetOr(video.currentTime), None, None, false, false);
      var answer := sequencer.MediaToSeekbarTime(params);
      if answer.Failure? {
        r := Catch(answer.error);
        return;
      }
      var result := answer.value;
      if result.playbackRangeExceeded {
        var thrown := OnEndOfSegment();
        if thrown.Some? {
          r := Catch(thrown.value);
          return;
        }
      } else if startingLinearTime.Some? {
        // switch to the starting clip
        video.SetPlaybackSegment(currentSegment);
      }
      currentMaxSeekbarPosition := result.maxSeekbarPosition;
      currentSeekbarPosition := result.currentSeekbarPosition;
      r := Report(result, if currentSegment.Some? then currentSegment.value.clip.id else -1);
    }

    /** `seekFromCurrentPosition(skipDistance)`. */
    method SeekFromCurrentPosition(skipDistance: int) returns (thrown: Option<Error>)
      modifies this, sequencer, video
      ensures Step(thrown, Snapshot()) == SeekFromCurrent(sequencer, old(Snapshot()), skipDistance)
      ensures pendingAdSelection == old(pendingAdSelection) && pendingDeleteAfterPlayed == old(pendingDeleteAfterPlayed)
    {
      if currentSegment.None? {
        return Some(TypeError);
      }
      var params := SeekbarSeekParams(currentSegment.value.segmentId, 1, currentSeekbarPosition + skipDistance);
      var currentIdSplitFrom := currentSegment.value.clip.idSplitFrom;
      var answer := sequencer.SeekFromSeekbarPosition(params);
      var ex: Error;
      if answer.Success? {
        currentSegment := answer.value;
        if currentSegment.Some? {
          ShowSegment(currentIdSplitFrom, currentSegment.value);
          return None;
        }
        ex := TypeError;
      } else {
        ex := answer.error;
      }
      if ex.SequencerError? {
        thrown := OnEndOfSegment();
      } else {
        loggedExceptions := loggedExceptions + [ex];
        thrown := None;
      }
    }

    /** `setPendingAdVAST(docVAST)`, on the ad list of the parsed
        document: the ad selection of the document becomes the pending ad,
        to be deleted after it has played. */
    method SetPendingAdVAST(ads: seq<VastAd>)
      modifies this
      ensures pendingAdSelection.Some? && fresh(pendingAdSelection.value)
      ensures pendingAdSelection.value[..] == Selection(ads, video.canPlay)
      ensures pendingDeleteAfterPlayed
      ensures Snapshot() == old(Snapshot())
    {
      var selection := GetAdSelectionArray(ads, video.canPlay);
      var adSelectionArray := new AdSelectionEntry[|selection|](i requires 0 <= i < |selection| => selection[i]);
      pendingAdSelection := Some(adSelectionArray);
      pendingDeleteAfterPlayed := true;
    }

    /** `schedulePendingAd(timeOffset)`: the pending ad is scheduled after the
        ad that is playing, or at the current linear time plus the offset;
        without an offset the current segment is ended so that it plays at
        once. The pending ad stays pending, sorted. */
    method SchedulePendingAd(timeOffset: Option<int>) returns (thrown: Option<Error>)
      modifies this, sequencer, video, scheduler
      modifies if pendingAdSelection.Some? then {pendingAdSelection.value} else {}
      ensures pendingAdSelection == old(pendingAdSelection) && pendingDeleteAfterPlayed == old(pendingDeleteAfterPlayed)
      // without a current segment nothing is called
      ensures old(currentSegment).None? ==>
        thrown == Some(TypeError) && Snapshot() == old(Snapshot()) && scheduler.calls == old(scheduler.calls)
      ensures old(currentSegment).Some? ==>
        var seg := old(currentSegment).value;
        var params := LinearTimeParams(seg.segmentId, old(video.currentTime));
        var linear := sequencer.mediaToLinear(old(sequencer.calls), params);
        var s1 := old(Snapshot()).(calls := old(sequencer.calls) + [MediaToLinearTimeCall(params)]);
        if linear.Failure? then
          thrown == Some(linear.error) && Snapshot() == s1 && scheduler.calls == old(scheduler.calls)
        else if old(pendingAdSelection).None? then
          // the pending ad is still `{}`: its missing array has no length
          thrown == Some(TypeError) && Snapshot() == s1 && scheduler.calls == old(scheduler.calls)
        else
          var a := old(pendingAdSelection).value;
          && a[..] == SortByPod(old(a[..]))
          && scheduler.calls == old(scheduler.calls) +
               PlanCalls(old(a[..]), PendingAdOffset(seg.clip, linear.value, timeOffset), old(pendingDeleteAfterPlayed), scheduler.entryId, old(scheduler.calls))
          && (if NoOffset(timeOffset) then Step(thrown, Snapshot()) == EndOfSegment(sequencer, s1)
              else thrown.None? && Snapshot() == s1)
    {
      if currentSegment.None? {
        return Some(TypeError);
      }
      var currentLinearTime := sequencer.MediaToLinearTime(LinearTimeParams(currentSegment.value.segmentId, video.currentTime));
      if currentLinearTime.Failure? {
        return Some(currentLinearTime.error);
      }
      var vmapTimeOffset := PendingAdOffset(currentSegment.value.clip, currentLinearTime.value, timeOffset);
      if pendingAdSelection.None? {
        return Some(TypeError);
      }
      thrown := SchedulePendingSelection(pendingAdSelection.value, vmapTimeOffset, NoOffset(timeOffset));
    }

    /** The end of `schedulePendingAd`: the pending array is scheduled at
        `vmapTimeOffset`, and the current segment is ended when `endSegment`. */
    method SchedulePendingSelection(a: array<AdSelectionEntry>, vmapTimeOffset: string, endSegment: bool) returns (thrown: Option<Error>)
      requires pendingAdSelection == Some(a)
      modifies this, sequencer, video, scheduler, a
      ensures pendingAdSelection == old(pendingAdSelection) && pendingDeleteAfterPlayed == old(pendingDeleteAfterPlayed)
      ensures a[..] == SortByPod(old(a[..]))
      ensures scheduler.calls == old(scheduler.calls) + PlanCalls(old(a[..]), vmapTimeOffset, pendingDeleteAfterPlayed, scheduler.entryId, old(scheduler.calls))
      ensures if endSegment then Step(thrown, Snapshot()) == EndOfSegment(sequencer, old(Snapshot()))
              else thrown.None? && Snapshot() == old(Snapshot())
    {
      ScheduleAdSelectionArray(scheduler, a, vmapTimeOffset, pendingDeleteAfterPlayed);
      if endSegment {
        thrown := OnEndOfSegment();
      } else {
        thrown := None;
      }
    }
  }
}
