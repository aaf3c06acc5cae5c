/** The live-DVR sequencer plugin: a decorator over the next link of the
    sequencer chain that keeps the seek bar inside the DVR window
    `[leftDvrEdge, livePosition]`, prunes the playlist once the live
    presentation has ended, and clamps linear seeks into the window. */
module SequencerPlugin {
  import opened Wrappers
  import opened JsText
  import opened Sequencing

  /** The result string of a `checkLoad` call. */
  const LoadedMessage: string := "Plugin loaded successfully"

  /** What `mediaToSeekbarTime` returns: the fixed string for `checkLoad`,
      a (possibly overridden) seek-bar result, or a thrown exception. */
  datatype SeekbarOutcome =
    | Loaded(message: string)
    | Seekbar(result: SeekbarResult)
    | Thrown(error: Error)

  /** The playback position converted from media time to linear time by the
      segment's clip. */
  function CurrentPosition(p: MediaParams, clip: Clip): int {
    p.currentPlaybackPosition + clip.linearStartTime - clip.clipBeginMediaTime
  }

  /** No DVR override applies: neither edge is given, or the clip is an
      advertisement of zero linear duration. */
  predicate Exempt(p: MediaParams, clip: Clip) {
    (p.leftDvrEdge.None? && p.livePosition.None?) || (clip.isAdvertisement && clip.linearDuration == 0)
  }

  /** The seek-bar range is overridden: the presentation is live and the clip
      is not exempt. */
  predicate Clamps(p: MediaParams, clip: Clip) {
    !p.liveEnded && !Exempt(p, clip)
  }

  /** The override the plugin applies to the inner link's result `base` for
      the clip of the current segment. */
  function LiveSeekbar(base: SeekbarResult, p: MediaParams, clip: Clip): (r: Result<SeekbarResult, Error>)
    // the result is passed through untouched after the end of the presentation or when exempt
    ensures !Clamps(p, clip) ==> r == Success(base)
    // the left DVR edge overtaking the viewer is an error, and the only one
    ensures r.Failure? <==> Clamps(p, clip) && p.leftDvrEdge.Some? && CurrentPosition(p, clip) < p.leftDvrEdge.value
    ensures r.Failure? ==> r.error == SequencerError(CurrentPosition(p, clip), p.leftDvrEdge.value)
    // only the two range fields may change
    ensures r.Success? ==> r.value.currentSeekbarPosition == base.currentSeekbarPosition
    ensures r.Success? ==> r.value.playbackRangeExceeded == base.playbackRangeExceeded
    // the floor is never lowered and the ceiling never raised
    ensures r.Success? ==> r.value.minSeekbarPosition >= base.minSeekbarPosition
    ensures r.Success? ==> r.value.maxSeekbarPosition <= base.maxSeekbarPosition
    // when clamping, the range is the intersection with the DVR window
    ensures r.Success? && Clamps(p, clip) ==>
      r.value.minSeekbarPosition == (if p.leftDvrEdge.Some? then Max(base.minSeekbarPosition, p.leftDvrEdge.value) else base.minSeekbarPosition)
    ensures r.Success? && Clamps(p, clip) ==>
      r.value.maxSeekbarPosition == (if p.livePosition.Some? then Min(base.maxSeekbarPosition, p.livePosition.value) else base.maxSeekbarPosition)
  {
    if !Clamps(p, clip) then Success(base)
    else if p.leftDvrEdge.Some? && CurrentPosition(p, clip) < p.leftDvrEdge.value then
      Failure(SequencerError(CurrentPosition(p, clip), p.leftDvrEdge.value))
    else
      var afterLeft :=
        if p.leftDvrEdge.Some? && base.minSeekbarPosition < p.leftDvrEdge.value
        then base.(minSeekbarPosition := p.leftDvrEdge.value) else base;
      var afterLive :=
        if p.livePosition.Some? && afterLeft.maxSeekbarPosition > p.livePosition.value
        then afterLeft.(maxSeekbarPosition := p.livePosition.value) else afterLeft;
      Success(afterLive)
  }

  /** The playlist edits made after the end of the live presentation. */
  function PruneCalls(p: MediaParams): (r: seq<SequencerCall>)
    ensures RemoveEntriesBeforeTimeCall(p.leftDvrEdge.GetOr(0)) in r <==> p.leftDvrEdge.Some?
    ensures RemoveEntriesAfterTimeCall(p.livePosition.GetOr(0)) in r <==> p.livePosition.Some?
    ensures forall k :: 0 <= k < |r| ==>
      (r[k].RemoveEntriesBeforeTimeCall? && Some(r[k].beforeTime) == p.leftDvrEdge) ||
      (r[k].RemoveEntriesAfterTimeCall? && Some(r[k].afterTime) == p.livePosition)
  {
    (if p.leftDvrEdge.Some? then [RemoveEntriesBeforeTimeCall(p.leftDvrEdge.value)] else []) +
    (if p.livePosition.Some? then [RemoveEntriesAfterTimeCall(p.livePosition.value)] else [])
  }

  /** `livePlugin.mediaToSeekbarTime`. The inner link is asked first; its
      result is then overridden for the DVR window, or the playlist is pruned
      after the end of the presentation. */
  method MediaToSeekbarTime(next: Sequencer, p: MediaParams) returns (r: SeekbarOutcome)
    modifies next
    // a load check answers the fixed string and calls nothing
    ensures p.checkLoad ==> r == Loaded(LoadedMessage) && next.calls == old(next.calls)
    ensures !p.checkLoad ==>
      var afterInner := old(next.calls) + [MediaToSeekbarTimeCall(p)];
      var inner := next.mediaToSeekbar(old(next.calls), p);
      var segment := next.segmentPool(afterInner, p.currentSegmentId);
      if inner.Failure? then
        r == Thrown(inner.error) && next.calls == afterInner
      else if segment.None? then
        r == Thrown(TypeError) && next.calls == afterInner
      else
        var outcome := LiveSeekbar(inner.value, p, segment.value.clip);
        && next.calls == afterInner + (if p.liveEnded then PruneCalls(p) else [])
        && r == (if outcome.Success? then Seekbar(outcome.value) else Thrown(outcome.error))
  {
    if p.checkLoad {
      return Loaded(LoadedMessage);
    }
    var inner := next.MediaToSeekbarTime(p);
    if inner.Failure? {
      return Thrown(inner.error);
    }
    var result := inner.value;
    var segment := next.segmentPool(next.calls, p.currentSegmentId);
    if segment.None? {
      // `currentSegment.clip` on undefined
      return Thrown(TypeError);
    }
    var entry := segment.value.clip;
    var currentPosition := p.currentPlaybackPosition + entry.linearStartTime - entry.clipBeginMediaTime;
    if p.liveEnded {
      if p.leftDvrEdge.Some? {
        next.RemoveEntriesBeforeTime(p.leftDvrEdge.value);
      }
      if p.livePosition.Some? {
        next.RemoveEntriesAfterTime(p.livePosition.value);
      }
    } else if !((p.leftDvrEdge.None? && p.livePosition.None?) || (entry.isAdvertisement && entry.linearDuration == 0)) {
      if p.leftDvrEdge.Some? {
        if currentPosition < p.leftDvrEdge.value {
          return Thrown(SequencerError(currentPosition, p.leftDvrEdge.value));
        }
        if result.minSeekbarPosition < p.leftDvrEdge.value {
          result := result.(minSeekbarPosition := p.leftDvrEdge.value);
        }
      }
      if p.livePosition.Some? {
        if result.maxSeekbarPosition > p.livePosition.value {
          result := result.(maxSeekbarPosition := p.livePosition.value);
        }
      }
    }
    r := Seekbar(result);
  }

  /** The seek target after `seekFromLinearPosition` has clamped it: raised
      to the left DVR edge, then lowered to the live position. */
  function ClampSeekPosition(position: int, leftDvrEdge: Option<int>, livePosition: Option<int>): (r: int)
    // without a window the target is unchanged, and so is a target inside it
    ensures (leftDvrEdge.None? || leftDvrEdge.value <= position) && (livePosition.None? || position <= livePosition.value) ==> r == position
    // the live position is an upper bound that always holds
    ensures livePosition.Some? ==> r <= livePosition.value
    // the left edge is a lower bound unless it lies beyond the live position
    ensures leftDvrEdge.Some? && (livePosition.None? || leftDvrEdge.value <= livePosition.value) ==> r >= leftDvrEdge.value
    // an inverted window: the live clamp is applied last and wins
    ensures leftDvrEdge.Some? && livePosition.Some? && livePosition.value < leftDvrEdge.value ==> r == livePosition.value
    // a target before a proper window is raised to its left edge
    ensures leftDvrEdge.Some? && position < leftDvrEdge.value && (livePosition.None? || leftDvrEdge.value <= livePosition.value) ==> r == leftDvrEdge.value
    // a target beyond the live position is lowered to it
    ensures livePosition.Some? && livePosition.value < position ==> r == livePosition.value
    // the result is the target or one of the edges
    ensures r == position || Some(r) == leftDvrEdge || Some(r) == livePosition
  {
    var raised := if leftDvrEdge.Some? && position < leftDvrEdge.value then leftDvrEdge.value else position;
    if livePosition.Some? && livePosition.value < raised then livePosition.value else raised
  }

  /** `livePlugin.seekFromLinearPosition`: clamps the target into the DVR
      window and returns exactly what the next link returns for it. */
  method SeekFromLinearPosition(next: Sequencer, p: LinearSeekParams) returns (r: Result<Option<PlaybackSegment>, Error>)
    modifies next
    ensures
      var clamped := p.(linearSeekPosition := ClampSeekPosition(p.linearSeekPosition, p.leftDvrEdge, p.livePosition));
      && next.calls == old(next.calls) + [SeekFromLinearPositionCall(clamped)]
      && r == next.seekFromLinear(old(next.calls), clamped)
  {
    var params := p;
    if params.leftDvrEdge.Some? && params.linearSeekPosition < params.leftDvrEdge.value {
      params := params.(linearSeekPosition := params.leftDvrEdge.value);
    }
    if params.livePosition.Some? && params.livePosition.value < params.linearSeekPosition {
      params := params.(linearSeekPosition := params.livePosition.value);
    }
    r := next.SeekFromLinearPosition(params);
  }
}
