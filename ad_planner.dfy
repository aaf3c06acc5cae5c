/** The ad planner of the sample player: it turns an ad selection into
    playlist entries. The selection is sorted by pod sequence number, cut
    off after the first entry when it is only a buffet, and scheduled as a
    chain in which every ad is appended to the entry the previous one
    became; where the chain starts is read from a VMAP-style `timeOffset`. */
module AdPlanner {
  import opened Wrappers
  import opened JsText
  import opened AdSelection

  // ---------------------------------------------------------------------------
  // The scheduler collaborator
  // ---------------------------------------------------------------------------

  /** The fields of a clip-parameter object the player sets before handing it
      to `scheduleClip`; `None` marks a field it leaves at the value
      `createScheduleClipParams` gave it, and `deleteAfterPlayed` is whether
      the player sets that flag. */
  datatype ClipParams = ClipParams(
    clipURI: string,
    eClipType: string,
    eRollType: string,
    clipBeginMediaTime: int,
    clipEndMediaTime: JsNumber,
    startTime: Option<JsNumber>,
    appendTo: Option<JsNumber>,
    deleteAfterPlayed: bool)

  /** The fields of a content-clip-parameter object the player sets before
      `appendContentClip`. */
  datatype ContentClipParams = ContentClipParams(clipURI: string, clipBeginMediaTime: int, clipEndMediaTime: JsNumber)

  /** A call made on the scheduler. */
  datatype SchedulerCall =
    | ScheduleClipCall(clip: ClipParams)
    | AppendContentClipCall(content: ContentClipParams)
    | SetSeekToStartCall

  /** The playlist scheduler. Its implementation is not part of this model:
      the id of the entry `scheduleClip` creates is a function of the calls
      made before, and every call is recorded. */
  class Scheduler {
    const entryId: seq<SchedulerCall> -> int
    var calls: seq<SchedulerCall>

    constructor (entryId: seq<SchedulerCall> -> int)
      ensures this.entryId == entryId && calls == []
    {
      this.entryId := entryId;
      calls := [];
    }

    /** `scheduleClip(clipParams).id`. */
    method ScheduleClip(clipParams: ClipParams) returns (id: int)
      modifies this
      ensures id == entryId(old(calls))
      ensures calls == old(calls) + [ScheduleClipCall(clipParams)]
    {
      id := entryId(calls);
      calls := calls + [ScheduleClipCall(clipParams)];
    }

    /** `appendContentClip(clipParams)`; the entry it returns is not used. */
    method AppendContentClip(clipParams: ContentClipParams)
      modifies this
      ensures calls == old(calls) + [AppendContentClipCall(clipParams)]
    {
      calls := calls + [AppendContentClipCall(clipParams)];
    }

    /** `setSeekToStart()`. */
    method SetSeekToStart()
      modifies this
      ensures calls == old(calls) + [SetSeekToStartCall]
    {
      calls := calls + [SetSeekToStartCall];
    }
  }

  // ---------------------------------------------------------------------------
  // scheduleAd and scheduleContent
  // ---------------------------------------------------------------------------

  /** The argument of `scheduleAd`. An empty `eClipType` or `eRollType`
      stands for the property being absent or empty, both of which are
      falsy. */
  datatype AdParams = AdParams(
    uri: string,
    eClipType: string,
    eRollType: string,
    minMediaTime: int,
    maxMediaTime: JsNumber,
    startTime: JsNumber,
    appendTo: JsNumber,
    deleteAfterPlayed: bool)

  /** The clip parameters `scheduleAd` builds: clip type and roll type
      default to "Media" and "Mid", the start time is passed only to a
      mid-roll and the anchor only to a pod member. */
  function AdClipParams(p: AdParams): (r: ClipParams)
    ensures r.clipURI == p.uri && r.clipBeginMediaTime == p.minMediaTime && r.clipEndMediaTime == p.maxMediaTime
    ensures r.eClipType == (if p.eClipType == "" then "Media" else p.eClipType)
    ensures r.eRollType == (if p.eRollType == "" then "Mid" else p.eRollType)
    ensures r.eClipType != "" && r.eRollType != ""
    ensures r.startTime == (if r.eRollType == "Mid" then Some(p.startTime) else None)
    ensures r.appendTo == (if r.eRollType == "Pod" then Some(p.appendTo) else None)
    ensures r.startTime.None? || r.appendTo.None?
    ensures r.deleteAfterPlayed == p.deleteAfterPlayed
  {
    var rollType := if p.eRollType == "" then "Mid" else p.eRollType;
    ClipParams(
      p.uri,
      if p.eClipType == "" then "Media" else p.eClipType,
      rollType,
      p.minMediaTime,
      p.maxMediaTime,
      if rollType == "Mid" then Some(p.startTime) else None,
      if rollType == "Pod" then Some(p.appendTo) else None,
      p.deleteAfterPlayed)
  }

  /** `scheduleAd`: builds the clip parameters and returns the id of the new
      playlist entry. */
  method ScheduleAd(sch: Scheduler, params: AdParams) returns (entryIdResult: int)
    modifies sch
    ensures entryIdResult == sch.entryId(old(sch.calls))
    ensures sch.calls == old(sch.calls) + [ScheduleClipCall(AdClipParams(params))]
  {
    var rollType := if params.eRollType == "" then "Mid" else params.eRollType;
    var clipParams := ClipParams(
      params.uri,
      if params.eClipType == "" then "Media" else params.eClipType,
      rollType, params.minMediaTime, params.maxMediaTime, None, None, false);
    if clipParams.eRollType == "Mid" {
      clipParams := clipParams.(startTime := Some(params.startTime));
    } else if clipParams.eRollType == "Pod" {
      clipParams := clipParams.(appendTo := Some(params.appendTo));
    }
    if params.deleteAfterPlayed {
      clipParams := clipParams.(deleteAfterPlayed := true);
    }
    entryIdResult := sch.ScheduleClip(clipParams);
  }

  /** The calls `scheduleContent` makes for one selection entry: append the
      content clip, then mark the playlist to seek to its start. */
  function ContentCalls(e: AdSelectionEntry): (r: seq<SchedulerCall>)
    ensures |r| == 2 && r[1] == SetSeekToStartCall
    ensures r[0].AppendContentClipCall? && r[0].content.clipURI == e.uri
    ensures r[0].content.clipBeginMediaTime == e.minMediaTime && r[0].content.clipEndMediaTime == e.maxMediaTime
  {
    [AppendContentClipCall(ContentClipParams(e.uri, e.minMediaTime, e.maxMediaTime)), SetSeekToStartCall]
  }

  /** `scheduleContent`. */
  method ScheduleContent(sch: Scheduler, params: AdSelectionEntry)
    modifies sch
    ensures sch.calls == old(sch.calls) + ContentCalls(params)
  {
    var clipParams := ContentClipParams(params.uri, params.minMediaTime, params.maxMediaTime);
    sch.AppendContentClip(clipParams);
    sch.SetSeekToStart();
  }

  // ---------------------------------------------------------------------------
  // The VMAP timeOffset
  // ---------------------------------------------------------------------------

  /** Where a chain starts: the roll type of its first entry, the start time
      passed to a mid-roll, and the entry it is appended to (negative for
      none). */
  datatype OffsetPlan = OffsetPlan(rollType: string, startTime: JsNumber, prevId: JsNumber)

  /** The plan when nothing in the offset is recognised, or it is only logged. */
  const DefaultPlan := OffsetPlan("Post", Finite(0), Finite(-1))

  /** The classification of a `timeOffset`, tested in the order the player
      tests it: "start", "end", a leading "#" (a playlist entry id), a "%"
      after the first character (only logged), a ":" after the first
      character (a time of day), and anything else (only logged). */
  function ClassifyOffset(timeOffset: string): (r: OffsetPlan)
    // the roll type is one of the three a chain can start with
    ensures r.rollType == "Pre" || r.rollType == "Post" || r.rollType == "Mid"
    // only a "#" anchor sets the entry to append to
    ensures (|timeOffset| == 0 || timeOffset[0] != '#') ==> r.prevId == Finite(-1)
    // only a mid-roll carries a start time other than 0
    ensures r.rollType != "Mid" ==> r.startTime == Finite(0)
  {
    if timeOffset == "start" then DefaultPlan.(rollType := "Pre")
    else if timeOffset == "end" then DefaultPlan
    else if IndexOf(timeOffset, '#') == 0 then DefaultPlan.(prevId := NumberOf(timeOffset[1..]))
    else if IndexOf(timeOffset, '%') > 0 then DefaultPlan
    else if IndexOf(timeOffset, ':') > 0 then DefaultPlan.(rollType := "Mid", startTime := ConvertHMSToSeconds(timeOffset))
    else DefaultPlan
  }

  lemma ClassifyStart()
    ensures ClassifyOffset("start") == OffsetPlan("Pre", Finite(0), Finite(-1))
  {
  }

  lemma ClassifyEnd()
    ensures ClassifyOffset("end") == OffsetPlan("Post", Finite(0), Finite(-1))
  {
  }

  /** `#id` names the playlist entry the chain is appended to. */
  lemma ClassifyAnchor(id: int)
    ensures ClassifyOffset("#" + IntToString(id)) == OffsetPlan("Post", Finite(0), Finite(id))
  {
    var t := "#" + IntToString(id);
    assert t[1..] == IntToString(id);
    assert t != "start" && t != "end";
    NumberOfIntToString(id);
  }

  /** `h:m:s` is a mid-roll starting at that many seconds. */
  lemma ClassifyTime(h: int, m: int, s: int)
    ensures ClassifyOffset(IntToString(h) + ":" + IntToString(m) + ":" + IntToString(s))
      == OffsetPlan("Mid", Finite((h * 60 + m) * 60 + s), Finite(-1))
  {
    var hs, ms, ss := IntToString(h), IntToString(m), IntToString(s);
    var rest := ":" + ms + ":" + ss;
    var t := hs + ":" + ms + ":" + ss;
    assert t == hs + rest;
    IndexOfPrefix(hs, rest, ':');
    assert t[0] != '#' by {
      assert t[0] == hs[0];
    }
    assert '%' !in t by {
      assert '%' !in rest;
    }
    assert ':' in t;
    ClassifyMid(t);
    HMSRoundTrip(h, m, s);
  }

  /** A text with a `:` after its first character, and without a leading
      `#` or a `%`, is a mid-roll at the time it parses to. */
  lemma ClassifyMid(t: string)
    requires t != "start" && t != "end" && IndexOf(t, '#') != 0 && IndexOf(t, '%') <= 0 && IndexOf(t, ':') > 0
    ensures ClassifyOffset(t) == OffsetPlan("Mid", ConvertHMSToSeconds(t), Finite(-1))
  {
  }

  /** A percentage, or an offset not recognised at all, is only logged: the
      chain is scheduled as a post-roll. */
  lemma ClassifyFallsThrough(timeOffset: string)
    requires timeOffset != "start" && timeOffset != "end"
    requires |timeOffset| == 0 || timeOffset[0] != '#'
    requires IndexOf(timeOffset, '%') > 0 || IndexOf(timeOffset, ':') <= 0
    ensures ClassifyOffset(timeOffset) == DefaultPlan
  {
  }

  // ---------------------------------------------------------------------------
  // Sorting by pod sequence number
  // ---------------------------------------------------------------------------

  /** `a` may stay in front of `b`: the comparator is not positive. */
  predicate NotAfter(a: AdSelectionEntry, b: AdSelectionEntry) {
    !b.adPodSequenceNumber.Before(a.adPodSequenceNumber)
  }

  /** Ascending by pod sequence number. */
  predicate Sorted(s: seq<AdSelectionEntry>) {
    forall i, j :: 0 <= i < j < |s| ==> NotAfter(s[i], s[j])
  }

  /** `NotAfter` is transitive. */
  lemma NotAfterTrans(a: AdSelectionEntry, b: AdSelectionEntry, c: AdSelectionEntry)
    requires NotAfter(a, b) && NotAfter(b, c)
    ensures NotAfter(a, c)
  {
  }

  /** `x` inserted into sorted `t` after every entry it does not sort before:
      it is moved left only past entries with a strictly larger number. */
  function Insert(t: seq<AdSelectionEntry>, x: AdSelectionEntry): (r: seq<AdSelectionEntry>)
    ensures |r| == |t| + 1
    decreases |t|
  {
    if |t| == 0 then [x]
    else if x.adPodSequenceNumber.Before(t[|t| - 1].adPodSequenceNumber) then Insert(t[..|t| - 1], x) + [t[|t| - 1]]
    else t + [x]
  }

  /** The order `Array.prototype.sort` leaves the selection in with the
      comparator `a.adPodSequenceNumber - b.adPodSequenceNumber`, a sort that
      is stable. */
  function SortByPod(s: seq<AdSelectionEntry>): (r: seq<AdSelectionEntry>)
    ensures |r| == |s|
  {
    if |s| == 0 then [] else Insert(SortByPod(s[..|s| - 1]), s[|s| - 1])
  }

  lemma {:induction false} InsertMultiset(t: seq<AdSelectionEntry>, x: AdSelectionEntry)
    ensures multiset(Insert(t, x)) == multiset(t) + multiset{x}
    decreases |t|
  {
    if |t| > 0 && x.adPodSequenceNumber.Before(t[|t| - 1].adPodSequenceNumber) {
      var u := t[..|t| - 1];
      InsertMultiset(u, x);
      assert t == u + [t[|t| - 1]];
    }
  }

  /** The sort is a permutation. */
  lemma {:induction false} SortByPodPermutation(s: seq<AdSelectionEntry>)
    ensures multiset(SortByPod(s)) == multiset(s)
    decreases |s|
  {
    if |s| > 0 {
      var u := s[..|s| - 1];
      SortByPodPermutation(u);
      InsertMultiset(SortByPod(u), s[|s| - 1]);
      assert s == u + [s[|s| - 1]];
    }
  }

  lemma {:induction false} InsertSorted(t: seq<AdSelectionEntry>, x: AdSelectionEntry)
    requires Sorted(t)
    ensures Sorted(Insert(t, x))
    decreases |t|
  {
    if |t| == 0 {
    } else if x.adPodSequenceNumber.Before(t[|t| - 1].adPodSequenceNumber) {
      var u := t[..|t| - 1];
      var last := t[|t| - 1];
      InsertSorted(u, x);
      InsertMultiset(u, x);
      var v := Insert(u, x);
      forall i | 0 <= i < |v|
        ensures NotAfter(v[i], last)
      {
        assert v[i] in multiset(v);
        if v[i] != x {
          assert v[i] in multiset(u);
          var k :| 0 <= k < |u| && u[k] == v[i];
          assert t[k] == v[i];
        }
      }
      assert Insert(t, x) == v + [last];
    } else {
      var last := t[|t| - 1];
      forall i | 0 <= i < |t|
        ensures NotAfter(t[i], x)
      {
        if i < |t| - 1 {
          NotAfterTrans(t[i], last, x);
        }
      }
    }
  }

  /** The sort leaves the selection ascending. */
  lemma {:induction false} SortByPodSorted(s: seq<AdSelectionEntry>)
    ensures Sorted(SortByPod(s))
    decreases |s|
  {
    if |s| > 0 {
      SortByPodSorted(s[..|s| - 1]);
      InsertSorted(SortByPod(s[..|s| - 1]), s[|s| - 1]);
    }
  }

  /** The entries with pod order `o`, in order. */
  function WithOrder(s: seq<AdSelectionEntry>, o: PodOrder): seq<AdSelectionEntry>
  {
    if |s| == 0 then []
    else WithOrder(s[..|s| - 1], o) + (if s[|s| - 1].adPodSequenceNumber == o then [s[|s| - 1]] else [])
  }

  lemma {:induction false} WithOrderAppend(a: seq<AdSelectionEntry>, b: seq<AdSelectionEntry>, o: PodOrder)
    ensures WithOrder(a + b, o) == WithOrder(a, o) + WithOrder(b, o)
    decreases |b|
  {
    if |b| == 0 {
      assert a + b == a;
    } else {
      assert (a + b)[..|a + b| - 1] == a + b[..|b| - 1];
      WithOrderAppend(a, b[..|b| - 1], o);
    }
  }

  lemma {:induction false} InsertWithOrder(t: seq<AdSelectionEntry>, x: AdSelectionEntry, o: PodOrder)
    ensures WithOrder(Insert(t, x), o) == WithOrder(t, o) + (if x.adPodSequenceNumber == o then [x] else [])
    decreases |t|
  {
    if |t| == 0 {
      WithOrderSingle(x, o);
    } else if x.adPodSequenceNumber.Before(t[|t| - 1].adPodSequenceNumber) {
      InsertWithOrder(t[..|t| - 1], x, o);
      InsertPastWithOrder(t, x, o);
    } else {
      WithOrderAppend(t, [x], o);
      WithOrderSingle(x, o);
    }
  }

  lemma WithOrderSingle(x: AdSelectionEntry, o: PodOrder)
    ensures WithOrder([x], o) == if x.adPodSequenceNumber == o then [x] else []
  {
    assert [x][..0] == [];
  }

  /** Moving `x` past an entry that sorts strictly after it does not change
      the relative order of entries with equal numbers. */
  lemma InsertPastWithOrder(t: seq<AdSelectionEntry>, x: AdSelectionEntry, o: PodOrder)
    requires |t| > 0 && x.adPodSequenceNumber.Before(t[|t| - 1].adPodSequenceNumber)
    requires WithOrder(Insert(t[..|t| - 1], x), o) == WithOrder(t[..|t| - 1], o) + (if x.adPodSequenceNumber == o then [x] else [])
    ensures WithOrder(Insert(t, x), o) == WithOrder(t, o) + (if x.adPodSequenceNumber == o then [x] else [])
  {
    var u := t[..|t| - 1];
    var last := t[|t| - 1];
    assert Insert(t, x) == Insert(u, x) + [last];
    WithOrderAppend(Insert(u, x), [last], o);
    WithOrderSingle(last, o);
    assert t[..|t| - 1] == u;
    assert WithOrder(t, o) == WithOrder(u, o) + (if last.adPodSequenceNumber == o then [last] else []);
    assert x.adPodSequenceNumber == o ==> last.adPodSequenceNumber != o;
  }

  /** The sort is stable: entries with the same pod sequence number keep
      their relative order. */
  lemma {:induction false} SortByPodStable(s: seq<AdSelectionEntry>, o: PodOrder)
    ensures WithOrder(SortByPod(s), o) == WithOrder(s, o)
    decreases |s|
  {
    if |s| > 0 {
      SortByPodStable(s[..|s| - 1], o);
      InsertWithOrder(SortByPod(s[..|s| - 1]), s[|s| - 1], o);
    }
  }

  /** Sorting the selection in place: each entry in turn is moved left past
      the entries that sort strictly after it. */
  method SortInPlace(a: array<AdSelectionEntry>)
    modifies a
    ensures a[..] == SortByPod(old(a[..]))
  {
    ghost var s := a[..];
    var i := 0;
    while i < a.Length
      invariant 0 <= i <= a.Length
      invariant a[..i] == SortByPod(s[..i])
      invariant a[i..] == s[i..]
    {
      assert s[..i + 1][..i] == s[..i];
      assert a[i] == s[i];
      ghost var rest := a[i + 1..];
      assert rest == s[i + 1..];
      InsertInPlace(a, i);
      i := i + 1;
    }
    assert a[..] == a[..a.Length];
    assert s[..a.Length] == s;
  }

  /** The inner loop of the sort: `a[i]` joins the sorted prefix `a[..i]`. */
  method InsertInPlace(a: array<AdSelectionEntry>, i: nat)
    requires i < a.Length
    modifies a
    ensures a[..i + 1] == Insert(old(a[..i]), old(a[i]))
    ensures a[i + 1..] == old(a[i + 1..])
  {
    ghost var t := a[..i];
    var x := a[i];
    var j := i;
    while j > 0 && x.adPodSequenceNumber.Before(a[j - 1].adPodSequenceNumber)
      invariant 0 <= j <= i
      invariant forall k :: 0 <= k < j ==> a[k] == t[k]
      invariant a[j] == x
      invariant forall k :: j < k <= i ==> a[k] == t[k - 1]
      invariant forall k :: i < k < a.Length ==> a[k] == old(a[k])
      invariant forall k :: j <= k < i ==> x.adPodSequenceNumber.Before(t[k].adPodSequenceNumber)
    {
      a[j] := a[j - 1];
      a[j - 1] := x;
      j := j - 1;
    }
    assert a[..i + 1] == t[..j] + [x] + t[j..];
    InsertAt(t, j, x);
    assert a[i + 1..] == old(a[i + 1..]);
  }

  /** Where the inner loop leaves `x`: after every entry it does not come
      before and before the suffix of entries it does come before. */
  lemma {:induction false} InsertAt(t: seq<AdSelectionEntry>, j: nat, x: AdSelectionEntry)
    requires j <= |t|
    requires j == 0 || !x.adPodSequenceNumber.Before(t[j - 1].adPodSequenceNumber)
    requires forall k :: j <= k < |t| ==> x.adPodSequenceNumber.Before(t[k].adPodSequenceNumber)
    ensures Insert(t, x) == t[..j] + [x] + t[j..]
    decreases |t|
  {
    if j < |t| {
      var u := t[..|t| - 1];
      assert u[..j] == t[..j];
      assert forall k :: j <= k < |u| ==> u[k] == t[k];
      InsertAt(u, j, x);
      assert t[j..] == u[j..] + [t[|t| - 1]];
    } else {
      assert t[..j] == t;
    }
  }

  // ---------------------------------------------------------------------------
  // The buffet cut-off
  // ---------------------------------------------------------------------------

  /** The number of leading sequenced entries. */
  function LeadingSequenced(s: seq<AdSelectionEntry>): (n: nat)
    ensures n <= |s|
    ensures forall k :: 0 <= k < n ==> s[k].adPodSequenceNumber.Sequenced?
    ensures n < |s| ==> s[n].adPodSequenceNumber.Buffet?
  {
    if |s| == 0 || s[0].adPodSequenceNumber.Buffet? then 0 else 1 + LeadingSequenced(s[1..])
  }

  /** How many entries of the sorted selection are scheduled: the first one,
      and every later one up to the first buffet entry. */
  function ScheduledCount(s: seq<AdSelectionEntry>): (n: nat)
    ensures n <= |s|
    ensures |s| > 0 ==> n >= 1
    ensures forall k :: 0 < k < n ==> s[k].adPodSequenceNumber.Sequenced?
    ensures n < |s| ==> n > 0 && s[n].adPodSequenceNumber.Buffet?
  {
    if |s| == 0 then 0 else 1 + LeadingSequenced(s[1..])
  }

  /** The number of sequenced (non-buffet) entries. */
  function CountSequenced(s: seq<AdSelectionEntry>): nat
  {
    if |s| == 0 then 0 else (if s[0].adPodSequenceNumber.Sequenced? then 1 else 0) + CountSequenced(s[1..])
  }

  lemma CountSequencedSnoc(p: seq<AdSelectionEntry>, y: AdSelectionEntry)
    ensures CountSequenced(p + [y]) == CountSequenced(p) + (if y.adPodSequenceNumber.Sequenced? then 1 else 0)
  {
    CountSequencedSplit(p, y, []);
    assert p + [y] + [] == p + [y];
    assert p + [] == p;
  }

  lemma {:induction false} CountSequencedInsert(t: seq<AdSelectionEntry>, x: AdSelectionEntry)
    ensures CountSequenced(Insert(t, x)) == CountSequenced(t) + (if x.adPodSequenceNumber.Sequenced? then 1 else 0)
    decreases |t|
  {
    if |t| == 0 {
      assert [x][1..] == [];
    } else if x.adPodSequenceNumber.Before(t[|t| - 1].adPodSequenceNumber) {
      var u := t[..|t| - 1];
      var last := t[|t| - 1];
      CountSequencedInsert(u, x);
      CountSequencedSnoc(Insert(u, x), last);
      CountSequencedSnoc(u, last);
      assert t == u + [last];
    } else {
      CountSequencedSnoc(t, x);
    }
  }

  /** Sorting keeps the number of sequenced entries. */
  lemma {:induction false} CountSequencedSort(s: seq<AdSelectionEntry>)
    ensures CountSequenced(SortByPod(s)) == CountSequenced(s)
    decreases |s|
  {
    if |s| > 0 {
      var u := s[..|s| - 1];
      var last := s[|s| - 1];
      CountSequencedSort(u);
      CountSequencedInsert(SortByPod(u), last);
      CountSequencedSnoc(u, last);
      assert s == u + [last];
    }
  }

  lemma {:induction false} CountSequencedSplit(u: seq<AdSelectionEntry>, x: AdSelectionEntry, v: seq<AdSelectionEntry>)
    ensures CountSequenced(u + [x] + v) == CountSequenced(u + v) + (if x.adPodSequenceNumber.Sequenced? then 1 else 0)
    decreases |u|
  {
    if |u| == 0 {
      assert u + [x] + v == [x] + v;
      assert ([x] + v)[1..] == v;
      assert u + v == v;
    } else {
      assert (u + [x] + v)[1..] == u[1..] + [x] + v;
      assert (u + v)[1..] == u[1..] + v;
      CountSequencedSplit(u[1..], x, v);
    }
  }

  /** A sorted selection starting with a buffet entry holds only buffet entries. */
  lemma {:induction false} SortedBuffetFirst(s: seq<AdSelectionEntry>)
    requires Sorted(s) && |s| > 0 && s[0].adPodSequenceNumber.Buffet?
    ensures CountSequenced(s) == 0
    decreases |s|
  {
    if |s| > 1 {
      assert NotAfter(s[0], s[1]);
      SortedBuffetFirst(s[1..]);
    }
  }

  /** In a sorted selection the sequenced entries all come first. */
  lemma {:induction false} SortedLeading(s: seq<AdSelectionEntry>)
    requires Sorted(s)
    ensures LeadingSequenced(s) == CountSequenced(s)
    decreases |s|
  {
    if |s| > 0 {
      if s[0].adPodSequenceNumber.Buffet? {
        SortedBuffetFirst(s);
      } else {
        SortedLeading(s[1..]);
      }
    }
  }

  /** A non-empty selection schedules every sequenced entry, or exactly one
      entry when there are none. */
  lemma ScheduledCountIsMax(s: seq<AdSelectionEntry>)
    requires |s| > 0
    ensures ScheduledCount(SortByPod(s)) == if CountSequenced(s) == 0 then 1 else CountSequenced(s)
  {
    var t := SortByPod(s);
    SortByPodSorted(s);
    CountSequencedSort(s);
    SortedLeading(t);
    if t[0].adPodSequenceNumber.Buffet? {
      SortedBuffetFirst(t);
      assert LeadingSequenced(t[1..]) == 0;
    } else {
      SortedLeading(t[1..]);
    }
  }

  // ---------------------------------------------------------------------------
  // The pod chain
  // ---------------------------------------------------------------------------

  /** The `scheduleAd` argument for a selection entry: the first entry of a
      chain without an anchor gets the planned roll type, every other one is
      a pod member appended to `prevId`. */
  function PodAdParams(e: AdSelectionEntry, plan: OffsetPlan, prevId: JsNumber, deleteAfterPlayed: bool): (r: AdParams)
    ensures r.uri == e.uri && r.minMediaTime == e.minMediaTime && r.maxMediaTime == e.maxMediaTime
    ensures r.eClipType == "" && r.startTime == plan.startTime
    ensures r.appendTo == prevId && r.deleteAfterPlayed == deleteAfterPlayed
    ensures prevId.IsNegative() ==> r.eRollType == plan.rollType
    ensures prevId.NaN? || (prevId.Finite? && prevId.value >= 0) ==> r.eRollType == "Pod"
  {
    AdParams(e.uri, "", if prevId.IsNegative() then plan.rollType else "Pod",
             e.minMediaTime, e.maxMediaTime, plan.startTime, prevId, deleteAfterPlayed)
  }

  /** The calls scheduling `es` as a chain after the calls `history`: each
      entry is appended to the id the previous `scheduleAd` returned. */
  function ChainCalls(es: seq<AdSelectionEntry>, plan: OffsetPlan, prevId: JsNumber, deleteAfterPlayed: bool,
                      entryId: seq<SchedulerCall> -> int, history: seq<SchedulerCall>): (r: seq<SchedulerCall>)
    ensures |r| == |es|
    decreases |es|
  {
    if |es| == 0 then []
    else
      var call := ScheduleClipCall(AdClipParams(PodAdParams(es[0], plan, prevId, deleteAfterPlayed)));
      [call] + ChainCalls(es[1..], plan, Finite(entryId(history)), deleteAfterPlayed, entryId, history + [call])
  }

  /** What `scheduleAdSelectionArray` asks of the scheduler for a selection. */
  function PlanCalls(selection: seq<AdSelectionEntry>, timeOffset: string, deleteAfterPlayed: bool,
                     entryId: seq<SchedulerCall> -> int, history: seq<SchedulerCall>): seq<SchedulerCall>
  {
    if |selection| == 0 then []
    else
      var sorted := SortByPod(selection);
      var plan := ClassifyOffset(timeOffset);
      ChainCalls(sorted[..ScheduledCount(sorted)], plan, plan.prevId, deleteAfterPlayed, entryId, history)
  }

  /** Every call of a chain schedules its entry's media range with the
      given flag. */
  lemma {:induction false} ChainEntries(es: seq<AdSelectionEntry>, plan: OffsetPlan, prevId: JsNumber, del: bool,
                                        entryId: seq<SchedulerCall> -> int, history: seq<SchedulerCall>, k: nat)
    requires k < |es|
    ensures var c := ChainCalls(es, plan, prevId, del, entryId, history)[k];
      && c.ScheduleClipCall?
      && c.clip.clipURI == es[k].uri && c.clip.eClipType == "Media"
      && c.clip.clipBeginMediaTime == es[k].minMediaTime && c.clip.clipEndMediaTime == es[k].maxMediaTime
      && c.clip.deleteAfterPlayed == del
    decreases k
  {
    if k > 0 {
      var call := ScheduleClipCall(AdClipParams(PodAdParams(es[0], plan, prevId, del)));
      ChainEntries(es[1..], plan, Finite(entryId(history)), del, entryId, history + [call], k - 1);
    }
  }

  /** The first call of a chain has the planned roll type, or is a pod
      member appended to the anchor. */
  lemma ChainFirst(es: seq<AdSelectionEntry>, plan: OffsetPlan, prevId: JsNumber, del: bool,
                   entryId: seq<SchedulerCall> -> int, history: seq<SchedulerCall>)
    requires |es| > 0 && plan.rollType != ""
    ensures var c := ChainCalls(es, plan, prevId, del, entryId, history)[0];
      && (prevId.IsNegative() ==> c.clip.eRollType == plan.rollType && c.clip.appendTo == (if plan.rollType == "Pod" then Some(prevId) else None))
      && (!prevId.IsNegative() ==> c.clip.eRollType == "Pod" && c.clip.appendTo == Some(prevId))
  {
  }

  /** When the scheduler hands out non-negative ids, every call of a chain
      after the first is a pod member appended to the id returned for the
      call before it. */
  lemma {:induction false} ChainLinks(es: seq<AdSelectionEntry>, plan: OffsetPlan, prevId: JsNumber, del: bool,
                                      entryId: seq<SchedulerCall> -> int, history: seq<SchedulerCall>, k: nat)
    requires forall h :: entryId(h) >= 0
    requires 0 < k < |es|
    ensures var r := ChainCalls(es, plan, prevId, del, entryId, history);
      && r[k].ScheduleClipCall?
      && r[k].clip.eRollType == "Pod"
      && r[k].clip.appendTo == Some(Finite(entryId(history + r[..k - 1])))
      && r[k].clip.startTime.None?
    decreases k
  {
    var r := ChainCalls(es, plan, prevId, del, entryId, history);
    var call := ScheduleClipCall(AdClipParams(PodAdParams(es[0], plan, prevId, del)));
    var rest := ChainCalls(es[1..], plan, Finite(entryId(history)), del, entryId, history + [call]);
    assert r == [call] + rest;
    if k == 1 {
      ChainSecond(es, plan, prevId, del, entryId, history);
    } else {
      ChainLinks(es[1..], plan, Finite(entryId(history)), del, entryId, history + [call], k - 1);
      assert r[..k - 1] == [call] + rest[..k - 2];
      AppendAssoc(history, [call], rest[..k - 2]);
    }
  }

  /** The second call of a chain is appended to the id the first returned. */
  lemma ChainSecond(es: seq<AdSelectionEntry>, plan: OffsetPlan, prevId: JsNumber, del: bool,
                    entryId: seq<SchedulerCall> -> int, history: seq<SchedulerCall>)
    requires entryId(history) >= 0
    requires 1 < |es|
    ensures var r := ChainCalls(es, plan, prevId, del, entryId, history);
      && r[1].ScheduleClipCall?
      && r[1].clip.eRollType == "Pod"
      && r[1].clip.appendTo == Some(Finite(entryId(history + r[..0])))
      && r[1].clip.startTime.None?
  {
    var r := ChainCalls(es, plan, prevId, del, entryId, history);
    var call := ScheduleClipCall(AdClipParams(PodAdParams(es[0], plan, prevId, del)));
    var rest := ChainCalls(es[1..], plan, Finite(entryId(history)), del, entryId, history + [call]);
    assert r == [call] + rest;
    assert r[1] == rest[0];
    assert history + r[..0] == history;
    var p := PodAdParams(es[1], plan, Finite(entryId(history)), del);
    assert es[1..][0] == es[1];
    assert rest[0] == ScheduleClipCall(AdClipParams(p));
    assert p.eRollType == "Pod";
  }

  /** `scheduleAdSelectionArray` makes one call per scheduled entry: none for
      an empty selection, otherwise the number of sequenced entries, or one
      if there are none. */
  lemma PlanCallsCount(selection: seq<AdSelectionEntry>, timeOffset: string, del: bool,
                       entryId: seq<SchedulerCall> -> int, history: seq<SchedulerCall>)
    ensures |PlanCalls(selection, timeOffset, del, entryId, history)| ==
      if |selection| == 0 then 0 else if CountSequenced(selection) == 0 then 1 else CountSequenced(selection)
  {
    if |selection| > 0 {
      ScheduledCountIsMax(selection);
    }
  }

  /** `scheduleAdSelectionArray`: sorts the selection in place and schedules
      the chain. */
  method ScheduleAdSelectionArray(sch: Scheduler, adSelectionArray: array<AdSelectionEntry>, timeOffset: string, optDeleteAfterPlay: bool)
    modifies sch, adSelectionArray
    ensures adSelectionArray[..] == SortByPod(old(adSelectionArray[..]))
    ensures sch.calls == old(sch.calls) + PlanCalls(old(adSelectionArray[..]), timeOffset, optDeleteAfterPlay, sch.entryId, old(sch.calls))
  {
    if adSelectionArray.Length > 0 {
      SortInPlace(adSelectionArray);
      var adSelectionPrevId := Finite(-1);
      var adSelectionRollType := "Post";
      var adSelectionStartTime := Finite(0);
      if timeOffset == "start" {
        adSelectionRollType := "Pre";
      } else if timeOffset == "end" {
        adSelectionRollType := "Post";
      } else if IndexOf(timeOffset, '#') == 0 {
        adSelectionPrevId := NumberOf(timeOffset[1..]);
      } else if IndexOf(timeOffset, '%') > 0 {
        // a percentage is only logged
      } else if IndexOf(timeOffset, ':') > 0 {
        adSelectionRollType := "Mid";
        adSelectionStartTime := ConvertHMSToSeconds(timeOffset);
      }
      // anything else is only logged
      var plan := OffsetPlan(adSelectionRollType, adSelectionStartTime, adSelectionPrevId);
      assert plan == ClassifyOffset(timeOffset);
      ScheduleChain(sch, adSelectionArray, plan, optDeleteAfterPlay);
    }
  }

  /** The loop of `scheduleAdSelectionArray` over the sorted selection. */
  method ScheduleChain(sch: Scheduler, adSelectionArray: array<AdSelectionEntry>, plan: OffsetPlan, optDeleteAfterPlay: bool)
    modifies sch
    ensures var s := adSelectionArray[..];
      sch.calls == old(sch.calls) + ChainCalls(s[..ScheduledCount(s)], plan, plan.prevId, optDeleteAfterPlay, sch.entryId, old(sch.calls))
  {
    ghost var s := adSelectionArray[..];
    ghost var es := s[..ScheduledCount(s)];
    ghost var goal := old(sch.calls) + ChainCalls(es, plan, plan.prevId, optDeleteAfterPlay, sch.entryId, old(sch.calls));
    var adSelectionPrevId := plan.prevId;
    var adSelectionArrayIndex := 0;
    while adSelectionArrayIndex < adSelectionArray.Length
      invariant adSelectionArrayIndex <= |es|
      invariant sch.calls + ChainCalls(es[adSelectionArrayIndex..], plan, adSelectionPrevId, optDeleteAfterPlay, sch.entryId, sch.calls) == goal
    {
      if adSelectionArrayIndex > 0 && adSelectionArray[adSelectionArrayIndex].adPodSequenceNumber.Buffet? {
        // only a buffet: the first entry alone is scheduled
        break;
      }
      var entry := adSelectionArray[adSelectionArrayIndex];
      ghost var before := sch.calls;
      ChainStep(es, adSelectionArrayIndex, plan, adSelectionPrevId, optDeleteAfterPlay, sch.entryId, before);
      var adSelectionNewId := ScheduleAd(sch, PodAdParams(entry, plan, adSelectionPrevId, optDeleteAfterPlay));
      adSelectionPrevId := Finite(adSelectionNewId);
      adSelectionArrayIndex := adSelectionArrayIndex + 1;
    }
    assert adSelectionArrayIndex == |es|;
    assert es[adSelectionArrayIndex..] == [];
  }

  /** One step of the chain loop. */
  lemma ChainStep(es: seq<AdSelectionEntry>, i: nat, plan: OffsetPlan, prevId: JsNumber, del: bool,
                  entryId: seq<SchedulerCall> -> int, history: seq<SchedulerCall>)
    requires i < |es|
    ensures var call := ScheduleClipCall(AdClipParams(PodAdParams(es[i], plan, prevId, del)));
      history + ChainCalls(es[i..], plan, prevId, del, entryId, history)
        == (history + [call]) + ChainCalls(es[i + 1..], plan, Finite(entryId(history)), del, entryId, history + [call])
  {
    assert es[i..][0] == es[i];
    assert es[i..][1..] == es[i + 1..];
  }

  /** The calls `scheduleContentSelectionArray` makes for the scheduled
      entries. */
  function ContentChainCalls(es: seq<AdSelectionEntry>): (r: seq<SchedulerCall>)
    ensures |r| == 2 * |es|
  {
    if |es| == 0 then [] else ContentCalls(es[0]) + ContentChainCalls(es[1..])
  }

  /** What `scheduleContentSelectionArray` asks of the scheduler. */
  function ContentPlanCalls(selection: seq<AdSelectionEntry>): seq<SchedulerCall>
  {
    var sorted := SortByPod(selection);
    ContentChainCalls(sorted[..ScheduledCount(sorted)])
  }

  /** Each scheduled content entry is appended with its own media range and
      followed by a seek to its start. */
  lemma {:induction false} ContentChainEntries(es: seq<AdSelectionEntry>, k: nat)
    requires k < |es|
    ensures ContentChainCalls(es)[2 * k] == AppendContentClipCall(ContentClipParams(es[k].uri, es[k].minMediaTime, es[k].maxMediaTime))
    ensures ContentChainCalls(es)[2 * k + 1] == SetSeekToStartCall
    decreases k
  {
    if k > 0 {
      ContentChainEntries(es[1..], k - 1);
    }
  }

  /** `scheduleContentSelectionArray`. */
  method ScheduleContentSelectionArray(sch: Scheduler, contentSelectionArray: array<AdSelectionEntry>)
    modifies sch, contentSelectionArray
    ensures contentSelectionArray[..] == SortByPod(old(contentSelectionArray[..]))
    ensures sch.calls == old(sch.calls) + ContentPlanCalls(old(contentSelectionArray[..]))
  {
    if contentSelectionArray.Length > 0 {
      SortInPlace(contentSelectionArray);
      ScheduleContentChain(sch, contentSelectionArray);
    } else {
      assert ContentPlanCalls([]) == [];
    }
  }

  /** The loop of `scheduleContentSelectionArray` over the sorted selection. */
  method ScheduleContentChain(sch: Scheduler, contentSelectionArray: array<AdSelectionEntry>)
    modifies sch
    ensures var s := contentSelectionArray[..];
      sch.calls == old(sch.calls) + ContentChainCalls(s[..ScheduledCount(s)])
  {
    ghost var s := contentSelectionArray[..];
    ghost var es := s[..ScheduledCount(s)];
    var contentSelectionArrayIndex := 0;
    while contentSelectionArrayIndex < contentSelectionArray.Length
      invariant contentSelectionArrayIndex <= |es|
      invariant sch.calls + ContentChainCalls(es[contentSelectionArrayIndex..]) == old(sch.calls) + ContentChainCalls(es)
    {
      if contentSelectionArrayIndex > 0 && contentSelectionArray[contentSelectionArrayIndex].adPodSequenceNumber.Buffet? {
        // only a buffet: the first entry alone is scheduled
        break;
      }
      var entry := contentSelectionArray[contentSelectionArrayIndex];
      ContentChainStep(es, contentSelectionArrayIndex);
      ScheduleContent(sch, entry);
      contentSelectionArrayIndex := contentSelectionArrayIndex + 1;
    }
    assert contentSelectionArrayIndex == |es|;
    assert es[contentSelectionArrayIndex..] == [];
  }

  lemma ContentChainStep(es: seq<AdSelectionEntry>, i: nat)
    requires i < |es|
    ensures ContentChainCalls(es[i..]) == ContentCalls(es[i]) + ContentChainCalls(es[i + 1..])
  {
    assert es[i..][0] == es[i];
    assert es[i..][1..] == es[i + 1..];
  }

  // ---------------------------------------------------------------------------
  // VAST and VMAP documents
  // ---------------------------------------------------------------------------

  /** `scheduleVAST`, on the ad list of the parsed document. */
  method ScheduleVAST(sch: Scheduler, ads: seq<VastAd>, canPlay: string -> bool, vmapTimeOffset: string)
    modifies sch
    ensures sch.calls == old(sch.calls) + PlanCalls(Selection(ads, canPlay), vmapTimeOffset, false, sch.entryId, old(sch.calls))
  {
    var selection := GetAdSelectionArray(ads, canPlay);
    var adSelectionArray := new AdSelectionEntry[|selection|](i requires 0 <= i < |selection| => selection[i]);
    assert adSelectionArray[..] == selection;
    ScheduleAdSelectionArray(sch, adSelectionArray, vmapTimeOffset, false);
  }

  /** `scheduleContentFromVAST`, on the ad list of the parsed document. */
  method ScheduleContentFromVAST(sch: Scheduler, ads: seq<VastAd>, canPlay: string -> bool)
    modifies sch
    ensures sch.calls == old(sch.calls) + ContentPlanCalls(Selection(ads, canPlay))
  {
    var selection := GetAdSelectionArray(ads, canPlay);
    var contentSelectionArray := new AdSelectionEntry[|selection|](i requires 0 <= i < |selection| => selection[i]);
    assert contentSelectionArray[..] == selection;
    ScheduleContentSelectionArray(sch, contentSelectionArray);
  }

  /** A child of a VMAP `AdSource` element. */
  datatype AdSourceItem =
    | VASTData(ads: seq<VastAd>)
    | CustomAdData
    | AdTagURI(uri: string)
    | OtherAdSource(typeName: string)

  /** An ad break of a VMAP document: its `timeOffset` attribute, the names
      of its child elements, and the children of its `AdSource`. */
  datatype AdBreak = AdBreak(timeOffset: string, elements: seq<string>, adSource: seq<AdSourceItem>)

  /** The ad list an `AdSource` handler schedules, if any: only a single
      `VASTData` child or a single `AdTagURI` child, whose document is
      fetched by `onGetURI`. */
  function AdSourceAds(adSource: seq<AdSourceItem>, onGetURI: string -> seq<VastAd>): (r: Option<seq<VastAd>>)
    ensures r.Some? ==> |adSource| == 1 && (adSource[0].VASTData? || adSource[0].AdTagURI?)
    ensures |adSource| == 1 && adSource[0].VASTData? ==> r == Some(adSource[0].ads)
    ensures |adSource| == 1 && adSource[0].AdTagURI? ==> r == Some(onGetURI(adSource[0].uri))
  {
    if |adSource| != 1 then None
    else match adSource[0]
      case VASTData(ads) => Some(ads)
      case AdTagURI(uri) => Some(onGetURI(uri))
      case _ => None
  }

  /** One scheduling of an ad list at a time offset. */
  datatype Job = Job(ads: seq<VastAd>, timeOffset: string)

  /** The jobs of the child elements of one ad break: one per `AdSource`
      element whose handler schedules something. */
  function ElementJobs(elements: seq<string>, b: AdBreak, onGetURI: string -> seq<VastAd>): seq<Job>
  {
    if |elements| == 0 then []
    else
      var here := AdSourceAds(b.adSource, onGetURI);
      (if elements[0] == "AdSource" && here.Some? then [Job(here.value, b.timeOffset)] else [])
      + ElementJobs(elements[1..], b, onGetURI)
  }

  /** The jobs of the ad breaks, in document order. */
  function VmapJobs(breaks: seq<AdBreak>, onGetURI: string -> seq<VastAd>): seq<Job>
  {
    if |breaks| == 0 then [] else ElementJobs(breaks[0].elements, breaks[0], onGetURI) + VmapJobs(breaks[1..], onGetURI)
  }

  /** The calls made by running the jobs one after the other. */
  function JobsCalls(jobs: seq<Job>, canPlay: string -> bool, entryId: seq<SchedulerCall> -> int, history: seq<SchedulerCall>): seq<SchedulerCall>
  {
    if |jobs| == 0 then []
    else
      var calls := PlanCalls(Selection(jobs[0].ads, canPlay), jobs[0].timeOffset, false, entryId, history);
      calls + JobsCalls(jobs[1..], canPlay, entryId, history + calls)
  }

  lemma JobsCallsCons(j: Job, rest: seq<Job>, canPlay: string -> bool, entryId: seq<SchedulerCall> -> int, history: seq<SchedulerCall>)
    ensures var calls := PlanCalls(Selection(j.ads, canPlay), j.timeOffset, false, entryId, history);
      JobsCalls([j] + rest, canPlay, entryId, history) == calls + JobsCalls(rest, canPlay, entryId, history + calls)
  {
    assert ([j] + rest)[1..] == rest;
  }

  /** Only the `AdSource` children of an ad break schedule anything: a break
      without one adds no job. */
  lemma {:induction false} NoAdSourceNoJobs(elements: seq<string>, b: AdBreak, onGetURI: string -> seq<VastAd>)
    requires "AdSource" !in elements
    ensures ElementJobs(elements, b, onGetURI) == []
    decreases |elements|
  {
    if |elements| > 0 {
      assert elements[0] != "AdSource";
      assert forall k :: 0 <= k < |elements| - 1 ==> elements[1..][k] == elements[k + 1];
      NoAdSourceNoJobs(elements[1..], b, onGetURI);
    }
  }

  /** The `AdSource` handler. */
  method AdSourceHandler(sch: Scheduler, b: AdBreak, canPlay: string -> bool, onGetURI: string -> seq<VastAd>)
    modifies sch
    ensures var ads := AdSourceAds(b.adSource, onGetURI);
      sch.calls == old(sch.calls) + (if ads.Some? then PlanCalls(Selection(ads.value, canPlay), b.timeOffset, false, sch.entryId, old(sch.calls)) else [])
  {
    var itemList := b.adSource;
    if |itemList| != 1 {
      // logged: other than a single child element
    } else {
      match itemList[0]
      case VASTData(ads) =>
        var selection := GetAdSelectionArray(ads, canPlay);
        var adSelectionArray := new AdSelectionEntry[|selection|](i requires 0 <= i < |selection| => selection[i]);
        assert adSelectionArray[..] == selection;
        ScheduleAdSelectionArray(sch, adSelectionArray, b.timeOffset, false);
      case CustomAdData =>
        // logged: ignored
      case AdTagURI(uri) =>
        ScheduleVAST(sch, onGetURI(uri), canPlay, b.timeOffset);
      case OtherAdSource(_) =>
        // logged: unexpected type
    }
  }

  lemma {:induction false} JobsCallsAppend(a: seq<Job>, b: seq<Job>, canPlay: string -> bool, entryId: seq<SchedulerCall> -> int, history: seq<SchedulerCall>)
    ensures var first := JobsCalls(a, canPlay, entryId, history);
      JobsCalls(a + b, canPlay, entryId, history) == first + JobsCalls(b, canPlay, entryId, history + first)
    decreases |a|
  {
    if |a| == 0 {
      assert a + b == b;
      assert history + [] == history;
    } else {
      var calls := PlanCalls(Selection(a[0].ads, canPlay), a[0].timeOffset, false, entryId, history);
      assert (a + b)[0] == a[0];
      assert (a + b)[1..] == a[1..] + b;
      JobsCallsAppend(a[1..], b, canPlay, entryId, history + calls);
      var rest := JobsCalls(a[1..], canPlay, entryId, history + calls);
      AppendAssoc(history, calls, rest);
    }
  }

  /** `scheduleVMAP`, on the ad breaks of the parsed document; `onGetURI`
      stands for the callback that fetches the VAST document of an ad tag. */
  method ScheduleVMAP(sch: Scheduler, adBreakList: seq<AdBreak>, canPlay: string -> bool, onGetURI: string -> seq<VastAd>)
    modifies sch
    ensures sch.calls == old(sch.calls) + JobsCalls(VmapJobs(adBreakList, onGetURI), canPlay, sch.entryId, old(sch.calls))
  {
    ghost var goal := old(sch.calls) + JobsCalls(VmapJobs(adBreakList, onGetURI), canPlay, sch.entryId, old(sch.calls));
    var adBreakListIndex := 0;
    while adBreakListIndex < |adBreakList|
      invariant 0 <= adBreakListIndex <= |adBreakList|
      invariant sch.calls + JobsCalls(VmapJobs(adBreakList[adBreakListIndex..], onGetURI), canPlay, sch.entryId, sch.calls) == goal
    {
      var b := adBreakList[adBreakListIndex];
      BreakStep(adBreakList, adBreakListIndex, canPlay, onGetURI, sch.entryId, sch.calls);
      ScheduleAdBreak(sch, b, canPlay, onGetURI);
      adBreakListIndex := adBreakListIndex + 1;
    }
    assert adBreakList[adBreakListIndex..] == [];
  }

  /** One step of the loop over the ad breaks. */
  lemma BreakStep(breaks: seq<AdBreak>, i: nat, canPlay: string -> bool, onGetURI: string -> seq<VastAd>,
                  entryId: seq<SchedulerCall> -> int, history: seq<SchedulerCall>)
    requires i < |breaks|
    ensures var calls := JobsCalls(ElementJobs(breaks[i].elements, breaks[i], onGetURI), canPlay, entryId, history);
      history + JobsCalls(VmapJobs(breaks[i..], onGetURI), canPlay, entryId, history)
        == (history + calls) + JobsCalls(VmapJobs(breaks[i + 1..], onGetURI), canPlay, entryId, history + calls)
  {
    var here := ElementJobs(breaks[i].elements, breaks[i], onGetURI);
    var later := VmapJobs(breaks[i + 1..], onGetURI);
    assert breaks[i..][0] == breaks[i];
    assert breaks[i..][1..] == breaks[i + 1..];
    assert VmapJobs(breaks[i..], onGetURI) == here + later;
    JobsCallsAppend(here, later, canPlay, entryId, history);
    var calls := JobsCalls(here, canPlay, entryId, history);
    AppendAssoc(history, calls, JobsCalls(later, canPlay, entryId, history + calls));
  }

  /** The loop of `scheduleVMAP` over the child elements of one ad break. */
  method ScheduleAdBreak(sch: Scheduler, b: AdBreak, canPlay: string -> bool, onGetURI: string -> seq<VastAd>)
    modifies sch
    ensures sch.calls == old(sch.calls) + JobsCalls(ElementJobs(b.elements, b, onGetURI), canPlay, sch.entryId, old(sch.calls))
  {
    ghost var goal := old(sch.calls) + JobsCalls(ElementJobs(b.elements, b, onGetURI), canPlay, sch.entryId, old(sch.calls));
    var eltList := b.elements;
    var eltListIndex := 0;
    while eltListIndex < |eltList|
      invariant 0 <= eltListIndex <= |eltList|
      invariant sch.calls + JobsCalls(ElementJobs(eltList[eltListIndex..], b, onGetURI), canPlay, sch.entryId, sch.calls) == goal
    {
      ghost var before := sch.calls;
      ghost var made := ElementCalls(eltList[eltListIndex], b, canPlay, onGetURI, sch.entryId, before);
      ElementStep(eltList, eltListIndex, b, canPlay, onGetURI, sch.entryId, before);
      if eltList[eltListIndex] == "AdSource" {
        AdSourceHandler(sch, b, canPlay, onGetURI);
      } else {
        // TrackingEvents, Extensions and unexpected children are only logged
        AppendEmpty(before);
      }
      assert sch.calls == before + made;
      eltListIndex := eltListIndex + 1;
    }
    assert eltList[eltListIndex..] == [];
  }

  /** The calls the child element `name` of ad break `b` makes. */
  function ElementCalls(name: string, b: AdBreak, canPlay: string -> bool, onGetURI: string -> seq<VastAd>,
                        entryId: seq<SchedulerCall> -> int, history: seq<SchedulerCall>): seq<SchedulerCall>
  {
    var ads := AdSourceAds(b.adSource, onGetURI);
    if name == "AdSource" && ads.Some? then PlanCalls(Selection(ads.value, canPlay), b.timeOffset, false, entryId, history) else []
  }

  /** One step of the loop over the child elements of an ad break. */
  lemma ElementStep(elements: seq<string>, i: nat, b: AdBreak, canPlay: string -> bool, onGetURI: string -> seq<VastAd>,
                    entryId: seq<SchedulerCall> -> int, history: seq<SchedulerCall>)
    requires i < |elements|
    ensures var calls := ElementCalls(elements[i], b, canPlay, onGetURI, entryId, history);
      history + JobsCalls(ElementJobs(elements[i..], b, onGetURI), canPlay, entryId, history)
        == (history + calls) + JobsCalls(ElementJobs(elements[i + 1..], b, onGetURI), canPlay, entryId, history + calls)
  {
    assert elements[i..][0] == elements[i];
    assert elements[i..][1..] == elements[i + 1..];
    var ads := AdSourceAds(b.adSource, onGetURI);
    var rest := ElementJobs(elements[i + 1..], b, onGetURI);
    var calls := ElementCalls(elements[i], b, canPlay, onGetURI, entryId, history);
    if elements[i] == "AdSource" && ads.Some? {
      assert ElementJobs(elements[i..], b, onGetURI) == [Job(ads.value, b.timeOffset)] + rest;
      JobsCallsCons(Job(ads.value, b.timeOffset), rest, canPlay, entryId, history);
      AppendAssoc(history, calls, JobsCalls(rest, canPlay, entryId, history + calls));
    } else {
      assert ElementJobs(elements[i..], b, onGetURI) == [] + rest;
      EmptyAppend(rest);
      assert calls == [];
      AppendEmpty(history);
    }
  }

  lemma AppendAssoc<T>(a: seq<T>, b: seq<T>, c: seq<T>)
    ensures a + b + c == a + (b + c)
  {
  }

  lemma EmptyAppend<T>(a: seq<T>)
    ensures [] + a == a
  {
  }

  lemma AppendEmpty<T>(a: seq<T>)
    ensures a + [] == a
  {
  }

  // ---------------------------------------------------------------------------
  // An end-to-end example
  // ---------------------------------------------------------------------------

  /** A VAST document with one 15-second in-line ad scheduled at "start"
      becomes a single pre-roll playing media time 0 to 15. */
  lemma PreRollExample(uri: string, mime: string, canPlay: string -> bool, entryId: seq<SchedulerCall> -> int, history: seq<SchedulerCall>)
    requires canPlay(mime)
    ensures
      var ad := VastAd(InLine, None, [Creative("Linear", [Element("Duration", "00:00:15")], [MediaFile(mime, None, uri)])]);
      PlanCalls(Selection([ad], canPlay), "start", false, entryId, history)
        == [ScheduleClipCall(ClipParams(uri, "Media", "Pre", 0, Finite(15), None, None, false))]
  {
    SingleCreativeExample(uri, mime, canPlay);
    var e := AdSelectionEntry(uri, 0, Finite(15), Buffet);
    assert [e][..0] == [];
    assert SortByPod([e]) == [e];
    assert ScheduledCount([e]) == 1;
    assert [e][..1] == [e];
    ClassifyStart();
    assert [e][1..] == [];
  }
}
