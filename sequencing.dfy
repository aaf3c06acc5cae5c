/** Values shared by the sequencer chain and the playback controller (clips,
    playback segments, seek-bar results, the errors a link may throw) and the
    part of the sequencer that is not modelled: the links further down the
    chain, the sequential playlist and the playback segment pool. */
module Sequencing {
  import opened Wrappers

  /** The clip types of a playlist entry. `SeekToStart` is the synthetic
      marker that forces a reset of the timeline and is never played. */
  datatype ClipType = Media | Static | Vast | SeekToStart

  /** A playable media unit, with the fields the core reads. */
  datatype Clip = Clip(
    id: int,
    clipURI: string,
    eClipType: ClipType,
    isAdvertisement: bool,
    idSplitFrom: int,
    linearStartTime: int,
    linearDuration: int,
    clipBeginMediaTime: int,
    clipEndMediaTime: int)

  /** A scheduled instance of a clip on the program timeline. */
  datatype PlaybackSegment = PlaybackSegment(
    segmentId: int,
    clip: Clip,
    initialPlaybackStartTime: int)

  /** The result object of `mediaToSeekbarTime`. */
  datatype SeekbarResult = SeekbarResult(
    currentSeekbarPosition: int,
    minSeekbarPosition: int,
    maxSeekbarPosition: int,
    playbackRangeExceeded: bool)

  /** Exceptions. `SequencerError` is the one the controller recognises by
      name; it carries the two positions its message reports. `TypeError` is
      what dereferencing `null` or `undefined` throws. */
  datatype Error =
    | SequencerError(currentPosition: int, leftDvrEdge: int)
    | TypeError
    | OtherError(name: string)

  /** Parameters of `mediaToSeekbarTime`. An omitted DVR edge is `None`. */
  datatype MediaParams = MediaParams(
    currentSegmentId: int,
    playbackRate: int,
    currentPlaybackPosition: int,
    leftDvrEdge: Option<int>,
    livePosition: Option<int>,
    liveEnded: bool,
    checkLoad: bool)

  /** Parameters of `seekFromLinearPosition`. */
  datatype LinearSeekParams = LinearSeekParams(
    currentSegmentId: Option<int>,
    linearSeekPosition: int,
    leftDvrEdge: Option<int>,
    livePosition: Option<int>)

  /** Parameters of `seekFromSeekbarPosition`. */
  datatype SeekbarSeekParams = SeekbarSeekParams(
    currentSegmentId: int,
    playbackRate: int,
    seekbarSeekPosition: int)

  /** Parameters of `onEndOfMedia`; the position may be left out. */
  datatype EndOfMediaParams = EndOfMediaParams(
    currentSegmentId: int,
    currentPlaybackRate: int,
    currentPlaybackPosition: Option<int>)

  /** Parameters of `mediaToLinearTime`. */
  datatype LinearTimeParams = LinearTimeParams(
    currentSegmentId: int,
    currentPlaybackPosition: int)

  /** One call made to the rest of the sequencer, in the order made. */
  datatype SequencerCall =
    | MediaToSeekbarTimeCall(mediaParams: MediaParams)
    | SeekFromLinearPositionCall(linearParams: LinearSeekParams)
    | SeekFromSeekbarPositionCall(seekbarParams: SeekbarSeekParams)
    | OnEndOfMediaCall(endParams: EndOfMediaParams)
    | MediaToLinearTimeCall(timeParams: LinearTimeParams)
    | RemoveEntriesBeforeTimeCall(beforeTime: int)
    | RemoveEntriesAfterTimeCall(afterTime: int)

  /** The sequencer as seen from one of its clients: a link of the plugin
      chain together with the sequential playlist and the segment pool
      behind it. Its answers are arbitrary functions of the calls made so far
      and of the arguments, so nothing is assumed about how the playlist
      evolves; every call is recorded in `calls`. */
  class Sequencer {
    const mediaToSeekbar: (seq<SequencerCall>, MediaParams) -> Result<SeekbarResult, Error>
    const seekFromLinear: (seq<SequencerCall>, LinearSeekParams) -> Result<Option<PlaybackSegment>, Error>
    const seekFromSeekbar: (seq<SequencerCall>, SeekbarSeekParams) -> Result<Option<PlaybackSegment>, Error>
    const endOfMedia: (seq<SequencerCall>, EndOfMediaParams) -> Result<Option<PlaybackSegment>, Error>
    const mediaToLinear: (seq<SequencerCall>, LinearTimeParams) -> Result<int, Error>
    /** `playbackSegmentPool.getPlaybackSegment`. */
    const segmentPool: (seq<SequencerCall>, int) -> Option<PlaybackSegment>

    var calls: seq<SequencerCall>

    constructor (
      mediaToSeekbar: (seq<SequencerCall>, MediaParams) -> Result<SeekbarResult, Error>,
      seekFromLinear: (seq<SequencerCall>, LinearSeekParams) -> Result<Option<PlaybackSegment>, Error>,
      seekFromSeekbar: (seq<SequencerCall>, SeekbarSeekParams) -> Result<Option<PlaybackSegment>, Error>,
      endOfMedia: (seq<SequencerCall>, EndOfMediaParams) -> Result<Option<PlaybackSegment>, Error>,
      mediaToLinear: (seq<SequencerCall>, LinearTimeParams) -> Result<int, Error>,
      segmentPool: (seq<SequencerCall>, int) -> Option<PlaybackSegment>)
      ensures this.mediaToSeekbar == mediaToSeekbar && this.seekFromLinear == seekFromLinear
      ensures this.seekFromSeekbar == seekFromSeekbar && this.endOfMedia == endOfMedia
      ensures this.mediaToLinear == mediaToLinear && this.segmentPool == segmentPool
      ensures calls == []
    {
      this.mediaToSeekbar := mediaToSeekbar;
      this.seekFromLinear := seekFromLinear;
      this.seekFromSeekbar := seekFromSeekbar;
      this.endOfMedia := endOfMedia;
      this.mediaToLinear := mediaToLinear;
      this.segmentPool := segmentPool;
      calls := [];
    }

    method MediaToSeekbarTime(p: MediaParams) returns (r: Result<SeekbarResult, Error>)
      modifies this
      ensures r == mediaToSeekbar(old(calls), p)
      ensures calls == old(calls) + [MediaToSeekbarTimeCall(p)]
    {
      r := mediaToSeekbar(calls, p);
      calls := calls + [MediaToSeekbarTimeCall(p)];
    }

    method SeekFromLinearPosition(p: LinearSeekParams) returns (r: Result<Option<PlaybackSegment>, Error>)
      modifies this
      ensures r == seekFromLinear(old(calls), p)
      ensures calls == old(calls) + [SeekFromLinearPositionCall(p)]
    {
      r := seekFromLinear(calls, p);
      calls := calls + [SeekFromLinearPositionCall(p)];
    }

    method SeekFromSeekbarPosition(p: SeekbarSeekParams) returns (r: Result<Option<PlaybackSegment>, Error>)
      modifies this
      ensures r == seekFromSeekbar(old(calls), p)
      ensures calls == old(calls) + [SeekFromSeekbarPositionCall(p)]
    {
      r := seekFromSeekbar(calls, p);
      calls := calls + [SeekFromSeekbarPositionCall(p)];
    }

    method OnEndOfMedia(p: EndOfMediaParams) returns (r: Result<Option<PlaybackSegment>, Error>)
      modifies this
      ensures r == endOfMedia(old(calls), p)
      ensures calls == old(calls) + [OnEndOfMediaCall(p)]
    {
      r := endOfMedia(calls, p);
      calls := calls + [OnEndOfMediaCall(p)];
    }

    method MediaToLinearTime(p: LinearTimeParams) returns (r: Result<int, Error>)
      modifies this
      ensures r == mediaToLinear(old(calls), p)
      ensures calls == old(calls) + [MediaToLinearTimeCall(p)]
    {
      r := mediaToLinear(calls, p);
      calls := calls + [MediaToLinearTimeCall(p)];
    }

    /** `sequentialPlaylist.change.removeEntriesBeforeTime`. */
    method RemoveEntriesBeforeTime(t: int)
      modifies this
      ensures calls == old(calls) + [RemoveEntriesBeforeTimeCall(t)]
    {
      calls := calls + [RemoveEntriesBeforeTimeCall(t)];
    }

    /** `sequentialPlaylist.change.removeEntriesAfterTime`. */
    method RemoveEntriesAfterTime(t: int)
      modifies this
      ensures calls == old(calls) + [RemoveEntriesAfterTimeCall(t)]
    {
      calls := calls + [RemoveEntriesAfterTimeCall(t)];
    }
  }
}
