/** The ad selection resolver of the sample player: from the already-parsed
    VAST ad list of a manifest it picks, for every linear creative of every
    in-line ad, the first media file the player can play, and records the
    media-time range to play and the ad's pod sequence number. */
module AdSelection {
  import opened Wrappers
  import opened JsText

  // ---------------------------------------------------------------------------
  // Manifest accessor output
  // ---------------------------------------------------------------------------

  /** The `type` of an entry of the VAST ad list. */
  datatype AdType = InLine | Wrapper | Extensions | UnknownAdType(name: string)

  /** A child element of a creative, such as `Duration`. */
  datatype Element = Element(name: string, value: string)

  /** A media file: its MIME type attribute, the custom
      `psns:mediaTimeOffset` attribute if present, and its URI. */
  datatype MediaFile = MediaFile(mimeType: string, mediaTimeOffset: Option<int>, uri: string)

  /** A creative of an ad; a missing element list is an empty one. */
  datatype Creative = Creative(creativeType: string, elements: seq<Element>, mediaFiles: seq<MediaFile>)

  /** An entry of the ad list with its `sequence` attribute, if present, and
      its creatives. */
  datatype VastAd = VastAd(adType: AdType, sequence: Option<int>, creatives: seq<Creative>)

  // ---------------------------------------------------------------------------
  // Selection entries
  // ---------------------------------------------------------------------------

  /** The pod sequence number of an ad. An ad without a `sequence` attribute
      belongs to a buffet and gets the largest number (`Number.MAX_VALUE`),
      so it sorts after every sequenced ad. */
  datatype PodOrder = Sequenced(n: int) | Buffet {
    /** `a.adPodSequenceNumber - b.adPodSequenceNumber < 0`. */
    predicate Before(other: PodOrder) {
      Sequenced? && (other.Buffet? || n < other.n)
    }
  }

  /** A candidate ad creative. */
  datatype AdSelectionEntry = AdSelectionEntry(
    uri: string,
    minMediaTime: int,
    maxMediaTime: JsNumber,
    adPodSequenceNumber: PodOrder)

  // ---------------------------------------------------------------------------
  // HH:MM:SS
  // ---------------------------------------------------------------------------

  /** `convertHMSToSeconds`: 0 unless the text has exactly three
      colon-separated fields, otherwise `(h * 60 + m) * 60 + s` of their
      numeric values (NaN if one of them is not a number). */
  function ConvertHMSToSeconds(hms: string): (r: JsNumber)
    ensures |Split(hms, ':')| != 3 ==> r == Finite(0)
    ensures |Split(hms, ':')| == 3 ==>
      var fields := Split(hms, ':');
      && (r.Finite? <==> NumberOf(fields[0]).Finite? && NumberOf(fields[1]).Finite? && NumberOf(fields[2]).Finite?)
      && (r.Finite? ==> r.value == (NumberOf(fields[0]).value * 60 + NumberOf(fields[1]).value) * 60 + NumberOf(fields[2]).value)
  {
    var fields := Split(hms, ':');
    if |fields| != 3 then Finite(0)
    else
      var h, m, s := NumberOf(fields[0]), NumberOf(fields[1]), NumberOf(fields[2]);
      if h.Finite? && m.Finite? && s.Finite? then Finite((h.value * 60 + m.value) * 60 + s.value) else NaN
  }

  /** Three fields without a colon, joined by colons, are parsed field by
      field. */
  lemma HMSFields(h: string, m: string, sec: string)
    requires ':' !in h && ':' !in m && ':' !in sec
    ensures ConvertHMSToSeconds(h + ":" + m + ":" + sec) ==
      var x, y, z := NumberOf(h), NumberOf(m), NumberOf(sec);
      if x.Finite? && y.Finite? && z.Finite? then Finite((x.value * 60 + y.value) * 60 + z.value) else NaN
  {
    var fields := [h, m, sec];
    assert Join(fields[1..][1..], [':']) == sec;
    assert Join(fields[1..], [':']) == m + ":" + sec;
    assert Join(fields, [':']) == h + ":" + m + ":" + sec;
    SplitJoin(fields, ':');
  }

  /** Writing hours, minutes and seconds as `h:m:s` and parsing the text back
      gives the number of seconds they stand for. */
  lemma HMSRoundTrip(h: int, m: int, s: int)
    ensures ConvertHMSToSeconds(IntToString(h) + ":" + IntToString(m) + ":" + IntToString(s)) == Finite((h * 60 + m) * 60 + s)
  {
    HMSFields(IntToString(h), IntToString(m), IntToString(s));
    NumberOfIntToString(h);
    NumberOfIntToString(m);
    NumberOfIntToString(s);
  }

  /** `Number` of a two-digit field. */
  lemma TwoDigits(t: string, d0: nat, d1: nat)
    requires d0 < 10 && d1 < 10
    requires t == [DigitChar(d0), DigitChar(d1)]
    ensures NumberOf(t) == Finite(d0 * 10 + d1)
  {
    assert AllDigits(t);
    assert t[..1] == [DigitChar(d0)];
    assert [DigitChar(d0)][..0] == [];
    assert DigitsValue(t[..1]) == d0;
    assert DigitsValue(t) == DigitsValue(t[..1]) * 10 + d1;
  }

  /** `hh:mm:ss` written with two digits each is the duration it denotes. */
  lemma TwoDigitHMS(h0: nat, h1: nat, m0: nat, m1: nat, s0: nat, s1: nat)
    requires h0 < 10 && h1 < 10 && m0 < 10 && m1 < 10 && s0 < 10 && s1 < 10
    ensures ConvertHMSToSeconds([DigitChar(h0), DigitChar(h1), ':', DigitChar(m0), DigitChar(m1), ':', DigitChar(s0), DigitChar(s1)]) ==
      Finite(((h0 * 10 + h1) * 60 + m0 * 10 + m1) * 60 + s0 * 10 + s1)
  {
    var h, m, sec := [DigitChar(h0), DigitChar(h1)], [DigitChar(m0), DigitChar(m1)], [DigitChar(s0), DigitChar(s1)];
    TwoDigits(h, h0, h1);
    TwoDigits(m, m0, m1);
    TwoDigits(sec, s0, s1);
    HMSFields(h, m, sec);
    assert h + ":" + m + ":" + sec == [DigitChar(h0), DigitChar(h1), ':', DigitChar(m0), DigitChar(m1), ':', DigitChar(s0), DigitChar(s1)];
  }

  /** A duration of one minute and a half. */
  lemma HMSExample()
    ensures ConvertHMSToSeconds("00:01:30") == Finite(90)
  {
    assert [DigitChar(0), DigitChar(0), ':', DigitChar(0), DigitChar(1), ':', DigitChar(3), DigitChar(0)] == "00:01:30";
    TwoDigitHMS(0, 0, 0, 1, 3, 0);
  }

  /** A duration of fifteen seconds. */
  lemma FifteenSeconds()
    ensures ConvertHMSToSeconds("00:00:15") == Finite(15)
  {
    assert [DigitChar(0), DigitChar(0), ':', DigitChar(0), DigitChar(0), ':', DigitChar(1), DigitChar(5)] == "00:00:15";
    TwoDigitHMS(0, 0, 0, 0, 1, 5);
  }

  // ---------------------------------------------------------------------------
  // The selection, as functions
  // ---------------------------------------------------------------------------

  /** The pod order assigned to an ad from its `sequence` attribute: an ad
      without one is a buffet ad, which sorts after every pod member, as the
      largest number does. */
  function PodOrderOf(sequence: Option<int>): (r: PodOrder)
    ensures r.Buffet? <==> sequence.None?
    ensures sequence.Some? ==> r.n == sequence.value && r.Before(Buffet)
    ensures r.Buffet? ==> forall o: PodOrder :: !r.Before(o)
  {
    if sequence.Some? then Sequenced(sequence.value) else Buffet
  }

  /** The value of the first `Duration` element, if any. */
  function FirstDuration(elements: seq<Element>): (r: Option<string>)
    ensures r.Some? <==> exists k :: 0 <= k < |elements| && elements[k].name == "Duration"
    ensures r.Some? ==> exists k :: && 0 <= k < |elements| && elements[k].name == "Duration" && elements[k].value == r.value
                                    && (forall k' :: 0 <= k' < k ==> elements[k'].name != "Duration")
  {
    if |elements| == 0 then None
    else if elements[0].name == "Duration" then Some(elements[0].value)
    else
      var r := FirstDuration(elements[1..]);
      assert forall k :: 1 <= k < |elements| ==> elements[k] == elements[1..][k - 1];
      r
  }

  /** The duration of a creative in seconds: its first `Duration` element
      parsed, or 0 without one. */
  function CreativeDuration(c: Creative): JsNumber {
    match FirstDuration(c.elements)
    case None => Finite(0)
    case Some(v) => ConvertHMSToSeconds(v)
  }

  /** The index of the first media file whose MIME type can be played. */
  function FirstPlayable(files: seq<MediaFile>, canPlay: string -> bool): (r: Option<nat>)
    ensures r.Some? ==> r.value < |files| && canPlay(files[r.value].mimeType)
    ensures r.Some? ==> forall k :: 0 <= k < r.value ==> !canPlay(files[k].mimeType)
    ensures r.None? ==> forall k :: 0 <= k < |files| ==> !canPlay(files[k].mimeType)
  {
    if |files| == 0 then None
    else if canPlay(files[0].mimeType) then Some(0)
    else
      var r := FirstPlayable(files[1..], canPlay);
      assert forall k :: 1 <= k < |files| ==> files[k] == files[1..][k - 1];
      if r.Some? then Some(r.value + 1) else None
  }

  /** A linear creative whose duration is zero: it ends the creatives of its ad. */
  predicate StopsCreatives(c: Creative) {
    c.creativeType == "Linear" && CreativeDuration(c).IsZero()
  }

  /** The entry made for media file `files[k]` of a creative of duration `d`. */
  function EntryFor(file: MediaFile, d: JsNumber, order: PodOrder): (e: AdSelectionEntry)
    ensures e.uri == file.uri && e.adPodSequenceNumber == order
    ensures e.minMediaTime == file.mediaTimeOffset.GetOr(0)
    ensures e.maxMediaTime == Finite(e.minMediaTime).Plus(d)
  {
    var minTime := file.mediaTimeOffset.GetOr(0);
    AdSelectionEntry(file.uri, minTime, Finite(minTime).Plus(d), order)
  }

  /** The entry a single creative yields, if any: only a linear creative with
      a non-zero duration and a playable media file yields one. */
  function CreativeEntry(c: Creative, order: PodOrder, canPlay: string -> bool): (r: seq<AdSelectionEntry>)
    ensures |r| <= 1
    ensures |r| == 1 <==> c.creativeType == "Linear" && !StopsCreatives(c) && FirstPlayable(c.mediaFiles, canPlay).Some?
  {
    if c.creativeType != "Linear" || StopsCreatives(c) then []
    else match FirstPlayable(c.mediaFiles, canPlay)
      case None => []
      case Some(k) => [EntryFor(c.mediaFiles[k], CreativeDuration(c), order)]
  }

  /** The entries of a list of creatives: one per linear creative with a
      playable file, up to the first linear creative of zero duration. */
  function CreativeEntries(cs: seq<Creative>, order: PodOrder, canPlay: string -> bool): (r: seq<AdSelectionEntry>)
    ensures |r| <= |cs|
    ensures forall k :: 0 <= k < |r| ==> r[k].adPodSequenceNumber == order
  {
    if |cs| == 0 || StopsCreatives(cs[0]) then []
    else CreativeEntry(cs[0], order, canPlay) + CreativeEntries(cs[1..], order, canPlay)
  }

  /** The entries an ad yields: only in-line ads yield any. */
  function AdEntries(ad: VastAd, canPlay: string -> bool): seq<AdSelectionEntry> {
    if ad.adType == InLine then CreativeEntries(ad.creatives, PodOrderOf(ad.sequence), canPlay) else []
  }

  /** The selection for an ad list, in ad-list order. */
  function Selection(ads: seq<VastAd>, canPlay: string -> bool): seq<AdSelectionEntry> {
    if |ads| == 0 then [] else AdEntries(ads[0], canPlay) + Selection(ads[1..], canPlay)
  }

  // ---------------------------------------------------------------------------
  // The selection, as the player computes it
  // ---------------------------------------------------------------------------

  /** `getAdSelectionArrayFromVASTEntryId`, on the ad list the manifest
      accessor returns for the entry. The loops over the creatives and over
      the elements and media files of a creative are the methods below. */
  method GetAdSelectionArray(ads: seq<VastAd>, canPlay: string -> bool) returns (adSelectionArray: seq<AdSelectionEntry>)
    ensures adSelectionArray == Selection(ads, canPlay)
  {
    adSelectionArray := [];
    var adListIndex := 0;
    while adListIndex < |ads|
      invariant 0 <= adListIndex <= |ads|
      invariant adSelectionArray == Selection(ads[..adListIndex], canPlay)
    {
      SelectionSnoc(ads, adListIndex, canPlay);
      var entries := AdSelection(ads[adListIndex], canPlay);
      adSelectionArray := adSelectionArray + entries;
      adListIndex := adListIndex + 1;
    }
    assert ads[..|ads|] == ads;
  }

  /** The body of the loop over the ad list: only in-line ads are examined. */
  method AdSelection(ad: VastAd, canPlay: string -> bool) returns (entries: seq<AdSelectionEntry>)
    ensures entries == AdEntries(ad, canPlay)
  {
    var adSequenceNumber := if ad.sequence.Some? then Sequenced(ad.sequence.value) else Buffet;
    if ad.adType == InLine {
      entries := CreativesSelection(ad.creatives, adSequenceNumber, canPlay);
    } else {
      // Wrapper, Extensions and unrecognised ad types are only logged
      entries := [];
    }
  }

  /** `Selection` of a prefix grown by one ad. */
  lemma SelectionSnoc(ads: seq<VastAd>, i: nat, canPlay: string -> bool)
    requires i < |ads|
    ensures Selection(ads[..i + 1], canPlay) == Selection(ads[..i], canPlay) + AdEntries(ads[i], canPlay)
  {
    assert ads[..i + 1] == ads[..i] + [ads[i]];
    SelectionAppend(ads[..i], [ads[i]], canPlay);
    assert [ads[i]][1..] == [];
  }

  /** The loop over the creatives of an in-line ad. */
  method CreativesSelection(creativesList: seq<Creative>, adSequenceNumber: PodOrder, canPlay: string -> bool)
    returns (entries: seq<AdSelectionEntry>)
    ensures entries == CreativeEntries(creativesList, adSequenceNumber, canPlay)
  {
    entries := [];
    var creativesListIndex := 0;
    while creativesListIndex < |creativesList|
      invariant 0 <= creativesListIndex <= |creativesList|
      invariant forall k :: 0 <= k < creativesListIndex ==> !StopsCreatives(creativesList[k])
      invariant entries == CreativeEntries(creativesList[..creativesListIndex], adSequenceNumber, canPlay)
    {
      var creative := creativesList[creativesListIndex];
      var stop, entry := CreativeSelection(creative, adSequenceNumber, canPlay);
      if stop {
        // logged: a linear creative without a duration ends this ad's creatives
        StopEndsCreatives(creativesList, creativesListIndex, adSequenceNumber, canPlay);
        return;
      }
      CreativeEntriesSnoc(creativesList, creativesListIndex, adSequenceNumber, canPlay);
      entries := entries + entry;
      creativesListIndex := creativesListIndex + 1;
    }
    assert creativesList[..|creativesList|] == creativesList;
  }

  /** The body of the loop over the creatives: whether the creative ends the
      ad's creatives, and otherwise the entry it yields, if any. */
  method CreativeSelection(creative: Creative, adSequenceNumber: PodOrder, canPlay: string -> bool)
    returns (stop: bool, entry: seq<AdSelectionEntry>)
    ensures stop == StopsCreatives(creative)
    ensures !stop ==> entry == CreativeEntry(creative, adSequenceNumber, canPlay)
  {
    stop, entry := false, [];
    if creative.creativeType == "Linear" {
      var creativeDuration := FindDuration(creative.elements);
      if creativeDuration.IsZero() {
        stop := true;
        return;
      }
      var mediaFileListIndex := FindPlayable(creative.mediaFiles, canPlay);
      if mediaFileListIndex < |creative.mediaFiles| {
        var file := creative.mediaFiles[mediaFileListIndex];
        var creativeMinMediaTime := file.mediaTimeOffset.GetOr(0);
        var creativeMaxMediaTime := Finite(creativeMinMediaTime).Plus(creativeDuration);
        entry := [AdSelectionEntry(file.uri, creativeMinMediaTime, creativeMaxMediaTime, adSequenceNumber)];
      }
      // when no media file can be played this is only logged
    }
  }

  /** Creatives that do not end the list contribute their entries in order. */
  lemma {:induction false} CreativeEntriesAppend(a: seq<Creative>, b: seq<Creative>, order: PodOrder, canPlay: string -> bool)
    requires forall k :: 0 <= k < |a| ==> !StopsCreatives(a[k])
    ensures CreativeEntries(a + b, order, canPlay) == CreativeEntries(a, order, canPlay) + CreativeEntries(b, order, canPlay)
    decreases |a|
  {
    if |a| == 0 {
      assert a + b == b;
    } else {
      assert (a + b)[0] == a[0];
      assert (a + b)[1..] == a[1..] + b;
      CreativeEntriesAppend(a[1..], b, order, canPlay);
    }
  }

  /** `CreativeEntries` of a prefix grown by a creative that does not end the list. */
  lemma CreativeEntriesSnoc(cs: seq<Creative>, i: nat, order: PodOrder, canPlay: string -> bool)
    requires i < |cs| && forall k :: 0 <= k <= i ==> !StopsCreatives(cs[k])
    ensures CreativeEntries(cs[..i + 1], order, canPlay) == CreativeEntries(cs[..i], order, canPlay) + CreativeEntry(cs[i], order, canPlay)
  {
    var pre, c := cs[..i], cs[i];
    assert cs[..i + 1] == pre + [c];
    assert forall k :: 0 <= k < |pre| ==> !StopsCreatives(pre[k]) by {
      forall k | 0 <= k < |pre| ensures !StopsCreatives(pre[k]) {
        assert pre[k] == cs[k];
      }
    }
    CreativeEntriesAppend(pre, [c], order, canPlay);
    assert [c][1..] == [];
    assert CreativeEntries([c], order, canPlay) == CreativeEntry(c, order, canPlay) + CreativeEntries([], order, canPlay);
  }

  /** A creative that ends the list leaves the entries of the creatives before it. */
  lemma StopEndsCreatives(cs: seq<Creative>, i: nat, order: PodOrder, canPlay: string -> bool)
    requires i < |cs| && StopsCreatives(cs[i])
    ensures CreativeEntries(cs, order, canPlay) == CreativeEntries(cs[..i], order, canPlay)
  {
    assert cs == cs[..i] + [cs[i]] + cs[i + 1..];
    ZeroDurationEndsAd(cs[..i], cs[i], cs[i + 1..], order, canPlay);
  }

  /** The loop over the media files of a creative: the index of the first
      playable one, or the length of the list. */
  method FindPlayable(mediaFileList: seq<MediaFile>, canPlay: string -> bool) returns (mediaFileListIndex: nat)
    ensures mediaFileListIndex <= |mediaFileList|
    ensures mediaFileListIndex < |mediaFileList| <==> FirstPlayable(mediaFileList, canPlay).Some?
    ensures mediaFileListIndex < |mediaFileList| ==> FirstPlayable(mediaFileList, canPlay).value == mediaFileListIndex
  {
    mediaFileListIndex := 0;
    while mediaFileListIndex < |mediaFileList|
      invariant 0 <= mediaFileListIndex <= |mediaFileList|
      invariant forall k :: 0 <= k < mediaFileListIndex ==> !canPlay(mediaFileList[k].mimeType)
    {
      if canPlay(mediaFileList[mediaFileListIndex].mimeType) {
        return;
      }
      mediaFileListIndex := mediaFileListIndex + 1;
    }
  }

  /** The creative-duration lookup: the first `Duration` element, parsed. */
  method FindDuration(elements: seq<Element>) returns (creativeDuration: JsNumber)
    ensures creativeDuration == (if FirstDuration(elements).Some? then ConvertHMSToSeconds(FirstDuration(elements).value) else Finite(0))
  {
    creativeDuration := Finite(0);
    var index := 0;
    while index < |elements|
      invariant 0 <= index <= |elements|
      invariant FirstDuration(elements[index..]) == FirstDuration(elements)
    {
      assert elements[index..][1..] == elements[index + 1..];
      if elements[index].name == "Duration" {
        creativeDuration := ConvertHMSToSeconds(elements[index].value);
        return;
      }
      index := index + 1;
    }
  }

  // ---------------------------------------------------------------------------
  // Properties of the selection
  // ---------------------------------------------------------------------------

  /** The selection of a concatenated ad list is the concatenation of the
      selections: ads are processed independently and in order, and the
      result is not sorted. */
  lemma {:induction false} SelectionAppend(a: seq<VastAd>, b: seq<VastAd>, canPlay: string -> bool)
    ensures Selection(a + b, canPlay) == Selection(a, canPlay) + Selection(b, canPlay)
    decreases |a|
  {
    if |a| == 0 {
      assert a + b == b;
    } else {
      assert (a + b)[1..] == a[1..] + b;
      SelectionAppend(a[1..], b, canPlay);
    }
  }

  /** Creatives of one ad after a zero-duration linear creative yield no
      entries, whatever they are. */
  lemma {:induction false} ZeroDurationEndsAd(before: seq<Creative>, z: Creative, after: seq<Creative>, order: PodOrder, canPlay: string -> bool)
    requires StopsCreatives(z)
    ensures CreativeEntries(before + [z] + after, order, canPlay) == CreativeEntries(before, order, canPlay)
    decreases |before|
  {
    var cs := before + [z] + after;
    if |before| == 0 {
      assert cs[0] == z;
    } else {
      assert cs[0] == before[0];
      assert cs[1..] == before[1..] + [z] + after;
      ZeroDurationEndsAd(before[1..], z, after, order, canPlay);
    }
  }

  /** An ad yields at most one entry per creative. */
  lemma AdEntriesBound(ad: VastAd, canPlay: string -> bool)
    ensures |AdEntries(ad, canPlay)| <= |ad.creatives|
  {
  }

  /** Every entry of the selection was made from the first playable media
      file of a linear creative of non-zero duration of an in-line ad, and
      carries that ad's pod order. */
  lemma {:induction false} SelectionProvenance(ads: seq<VastAd>, canPlay: string -> bool, x: AdSelectionEntry)
    requires x in Selection(ads, canPlay)
    ensures exists i, j :: 0 <= i < |ads| && 0 <= j < |ads[i].creatives| && MadeFrom(x, ads[i], ads[i].creatives[j], canPlay)
    decreases |ads|
  {
    if x in AdEntries(ads[0], canPlay) {
      var j := CreativeProvenance(ads[0].creatives, PodOrderOf(ads[0].sequence), canPlay, x);
      assert MadeFrom(x, ads[0], ads[0].creatives[j], canPlay);
    } else {
      SelectionProvenance(ads[1..], canPlay, x);
      var i, j :| 0 <= i < |ads[1..]| && 0 <= j < |ads[1..][i].creatives| && MadeFrom(x, ads[1..][i], ads[1..][i].creatives[j], canPlay);
      assert ads[1..][i] == ads[i + 1];
    }
  }

  /** `x` is the entry made from creative `c` of in-line ad `ad`. */
  predicate MadeFrom(x: AdSelectionEntry, ad: VastAd, c: Creative, canPlay: string -> bool) {
    && ad.adType == InLine
    && c.creativeType == "Linear"
    && !CreativeDuration(c).IsZero()
    && FirstPlayable(c.mediaFiles, canPlay).Some?
    && x == EntryFor(c.mediaFiles[FirstPlayable(c.mediaFiles, canPlay).value], CreativeDuration(c), PodOrderOf(ad.sequence))
  }

  lemma {:induction false} CreativeProvenance(cs: seq<Creative>, order: PodOrder, canPlay: string -> bool, x: AdSelectionEntry) returns (j: nat)
    requires x in CreativeEntries(cs, order, canPlay)
    ensures j < |cs| && cs[j].creativeType == "Linear" && !CreativeDuration(cs[j]).IsZero()
    ensures FirstPlayable(cs[j].mediaFiles, canPlay).Some?
    ensures x == EntryFor(cs[j].mediaFiles[FirstPlayable(cs[j].mediaFiles, canPlay).value], CreativeDuration(cs[j]), order)
    decreases |cs|
  {
    var c := cs[0];
    assert !StopsCreatives(c);
    assert CreativeEntries(cs, order, canPlay) == CreativeEntry(c, order, canPlay) + CreativeEntries(cs[1..], order, canPlay);
    if x in CreativeEntry(c, order, canPlay) {
      j := 0;
    } else {
      var j' := CreativeProvenance(cs[1..], order, canPlay, x);
      assert cs[1..][j'] == cs[j' + 1];
      j := j' + 1;
    }
  }

  /** One in-line ad with one linear creative of 15 seconds and one playable
      file yields exactly one buffet entry playing seconds 0 to 15. */
  lemma SingleCreativeExample(uri: string, mime: string, canPlay: string -> bool)
    requires canPlay(mime)
    ensures
      var ad := VastAd(InLine, None, [Creative("Linear", [Element("Duration", "00:00:15")], [MediaFile(mime, None, uri)])]);
      Selection([ad], canPlay) == [AdSelectionEntry(uri, 0, Finite(15), Buffet)]
  {
    var c := Creative("Linear", [Element("Duration", "00:00:15")], [MediaFile(mime, None, uri)]);
    FifteenSecondCreative(c, uri, mime, canPlay);
    OneCreativeAd(c, canPlay);
  }

  /** A buffet ad with a single creative that does not stop the loop yields
      exactly that creative's entries. */
  lemma OneCreativeAd(c: Creative, canPlay: string -> bool)
    requires !StopsCreatives(c)
    ensures Selection([VastAd(InLine, None, [c])], canPlay) == CreativeEntry(c, Buffet, canPlay)
  {
    assert [c][1..] == [];
    assert CreativeEntries([c], Buffet, canPlay) == CreativeEntry(c, Buffet, canPlay) + CreativeEntries([], Buffet, canPlay);
    var ad := VastAd(InLine, None, [c]);
    assert [ad][1..] == [];
    assert Selection([ad], canPlay) == AdEntries(ad, canPlay) + Selection([], canPlay);
  }

  lemma FifteenSecondCreative(c: Creative, uri: string, mime: string, canPlay: string -> bool)
    requires canPlay(mime)
    requires c == Creative("Linear", [Element("Duration", "00:00:15")], [MediaFile(mime, None, uri)])
    ensures !StopsCreatives(c)
    ensures CreativeEntry(c, Buffet, canPlay) == [AdSelectionEntry(uri, 0, Finite(15), Buffet)]
  {
    FifteenSeconds();
    OneFileCreative(c, canPlay);
  }

  /** A linear creative with one `Duration` element of non-zero length and one
      playable media file without an offset yields one entry for that file,
      from media time 0 for the creative's duration. */
  lemma OneFileCreative(c: Creative, canPlay: string -> bool)
    requires c.creativeType == "Linear"
    requires |c.elements| == 1 && c.elements[0].name == "Duration"
    requires !ConvertHMSToSeconds(c.elements[0].value).IsZero()
    requires |c.mediaFiles| == 1 && canPlay(c.mediaFiles[0].mimeType) && c.mediaFiles[0].mediaTimeOffset.None?
    ensures !StopsCreatives(c)
    ensures CreativeEntry(c, Buffet, canPlay) == [AdSelectionEntry(c.mediaFiles[0].uri, 0, ConvertHMSToSeconds(c.elements[0].value), Buffet)]
  {
    assert FirstDuration(c.elements) == Some(c.elements[0].value);
    assert FirstPlayable(c.mediaFiles, canPlay) == Some(0);
    EntryForNoOffset(c.mediaFiles[0], CreativeDuration(c), Buffet);
  }

  /** A media file without a media-time offset plays from media time 0 for
      the creative's duration. */
  lemma EntryForNoOffset(file: MediaFile, d: JsNumber, order: PodOrder)
    requires file.mediaTimeOffset.None?
    ensures EntryFor(file, d, order) == AdSelectionEntry(file.uri, 0, d, order)
  {
  }
}
