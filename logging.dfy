/** The log book of the test library: a list of messages with a maximum
    length that, depending on the logging type, is shown in an alert box
    whenever it fills up, is written to the console instead, or keeps the
    latest lines for a dump as HTML or JSON.

    `alert` and `console.log` are modelled by the texts they are given, in
    order; the time stamps `Date` would provide are parameters. */
module Logging {
  import opened Wrappers
  import opened JsText

  // ---------------------------------------------------------------------------
  // Enumerations
  // ---------------------------------------------------------------------------

  /** `eType`. */
  const TypeNone := 0
  const TypeAlert := 1
  const TypeConsole := 2
  const TypeDump := 3

  /** `eLevel`. */
  const LevelNone := 0
  const LevelError := 1
  const LevelWarning := 2
  const LevelInfo := 3
  const LevelVerbose := 4

  // ---------------------------------------------------------------------------
  // The state and its transitions
  // ---------------------------------------------------------------------------

  /** The closure state of the log book, with the texts shown by `alert`
      and written by `console.log`. The maximum length is `None` when it
      was set to `undefined`, which no length reaches. */
  datatype Book = Book(
    logList: seq<string>,
    logListMaxLength: Option<int>,
    logType: int,
    logLevel: int,
    logLineNumber: int,
    alerts: seq<string>,
    consoleLines: seq<string>)
  {
    /** Only the alert and dump types keep entries, and they keep fewer
        than the maximum length (none at all when it is below 1). */
    predicate Valid() {
      && (logType != TypeAlert && logType != TypeDump ==> logList == [])
      && (logListMaxLength.Some? ==> |logList| < Max(1, logListMaxLength.value))
    }
  }

  /** The state the log book starts in. */
  const InitialBook := Book([], Some(20), TypeNone, LevelError, 1, [], [])

  /** `logList.length >= logListMaxLength`. */
  predicate Full(length: int, maxLength: Option<int>) {
    maxLength.Some? && length >= maxLength.value
  }

  /** The entry a dump-type log book keeps for message number `lineNumber`. */
  function DumpLine(lineNumber: int, timeStamp: int, message: string): string {
    "<b>" + IntToString(lineNumber) + "</b>[" + IntToString(timeStamp) + "] " + message
  }

  /** `s` is what remains of `t` once some of its first elements are dropped. */
  predicate IsSuffix<T(==)>(s: seq<T>, t: seq<T>) {
    |s| <= |t| && s == t[|t| - |s|..]
  }

  /** `dumpAlert()`: a non-empty list is shown in one alert box, one entry
      per line, and emptied. */
  function DumpAlerted(b: Book): (r: Book)
    ensures r.logList == []
    ensures b.logList == [] ==> r == b
    ensures b.logList != [] ==> r.alerts == b.alerts + [Join(b.logList, "\n")]
    ensures r == b.(logList := [], alerts := r.alerts)
  {
    if |b.logList| > 0 then b.(alerts := b.alerts + [Join(b.logList, "\n")], logList := []) else b
  }

  /** `log(message, level)` with `timeStamp` milliseconds since the log book
      was created. */
  function Logged(b: Book, message: string, level: Option<int>, timeStamp: int): (r: Book)
    // the invariant is kept
    ensures b.Valid() ==> r.Valid()
    // a message below the level, or any message with logging off, changes nothing
    ensures b.logType == TypeNone || level.GetOr(LevelError) > b.logLevel ==> r == b
    // a type the switch does not know (such as `eType.etop`) logs nothing either
    ensures b.logType != TypeAlert && b.logType != TypeConsole && b.logType != TypeDump ==> r == b
    // the settings never change
    ensures r.logListMaxLength == b.logListMaxLength && r.logType == b.logType && r.logLevel == b.logLevel
    // the console type writes the message and keeps no entry
    ensures b.logType == TypeConsole && level.GetOr(LevelError) <= b.logLevel ==>
      r == b.(consoleLines := b.consoleLines + [message])
    // the dump type numbers the message and drops at most the oldest entry
    ensures b.logType == TypeDump && level.GetOr(LevelError) <= b.logLevel ==>
      var kept := b.logList + [DumpLine(b.logLineNumber, timeStamp, message)];
      && r.logLineNumber == b.logLineNumber + 1
      && IsSuffix(r.logList, kept) && |kept| - 1 <= |r.logList|
      && (r.logList == kept <==> !Full(|kept|, b.logListMaxLength))
      && r.alerts == b.alerts && r.consoleLines == b.consoleLines
    // the alert type shows the list, the message last, exactly when it fills up
    ensures b.logType == TypeAlert && level.GetOr(LevelError) <= b.logLevel ==>
      var kept := b.logList + [message];
      && r.logLineNumber == b.logLineNumber && r.consoleLines == b.consoleLines
      && (Full(|kept|, b.logListMaxLength) ==> r.logList == [] && r.alerts == b.alerts + [Join(kept, "\n")])
      && (!Full(|kept|, b.logListMaxLength) ==> r.logList == kept && r.alerts == b.alerts)
  {
    var lvl := level.GetOr(LevelError);
    if b.logType == TypeNone || lvl > b.logLevel then b
    else if b.logType == TypeAlert then
      var b1 := b.(logList := b.logList + [message]);
      if Full(|b1.logList|, b1.logListMaxLength) then DumpAlerted(b1) else b1
    else if b.logType == TypeConsole then
      b.(consoleLines := b.consoleLines + [message])
    else if b.logType == TypeDump then
      var b1 := b.(logList := b.logList + [DumpLine(b.logLineNumber, timeStamp, message)], logLineNumber := b.logLineNumber + 1);
      if Full(|b1.logList|, b1.logListMaxLength) then b1.(logList := b1.logList[1..]) else b1
    else b
  }

  /** `setLoggingType(aType, maxListLength)`. */
  function TypeSet(b: Book, aType: int, maxListLength: Option<int>): (r: Book)
    // the list is emptied, and the type and maximum length always replaced
    ensures r.logList == [] && r.logType == aType && r.logListMaxLength == maxListLength
    ensures r.Valid()
    ensures r.logLevel == b.logLevel && r.logLineNumber == b.logLineNumber && r.consoleLines == b.consoleLines
    // the alert box is shown only on leaving the alert type with entries pending
    ensures r.alerts == (if b.logType == TypeAlert && aType != TypeAlert && b.logList != [] then b.alerts + [Join(b.logList, "\n")] else b.alerts)
  {
    var b1 := if b.logType == TypeAlert && b.logType != aType && |b.logList| > 0 then DumpAlerted(b) else b;
    b1.(logList := [], logType := aType, logListMaxLength := maxListLength)
  }

  /** `onFinished()`: the pending entries are shown in the alert type and
      discarded in every other. */
  function Finished(b: Book): (r: Book)
    ensures r.logList == []
    ensures b.Valid() ==> r.Valid()
    ensures r.alerts == (if b.logType == TypeAlert && b.logList != [] then b.alerts + [Join(b.logList, "\n")] else b.alerts)
    ensures r == b.(logList := [], alerts := r.alerts)
  {
    if b.logType == TypeAlert then DumpAlerted(b) else b.(logList := [])
  }

  /** The text `dumpHTML` returns for the entries `list`. */
  function Html(list: seq<string>): string {
    "<p>" + Join(list, "<br>") + "</p>"
  }

  /** What `dumpHTML` has written after the first `i` entries of `list`:
      them joined by `<br>`, and one more `<br>` when entries follow. */
  function HtmlBody(list: seq<string>, i: nat): string
    requires i <= |list|
  {
    if i == 0 then "" else Join(list[..i], "<br>") + (if i < |list| then "<br>" else "")
  }

  /** One more entry of the `dumpHTML` loop. */
  lemma HtmlStep(list: seq<string>, i: nat)
    requires i < |list|
    ensures HtmlBody(list, i) + (list[i] + if i + 1 != |list| then "<br>" else "") == HtmlBody(list, i + 1)
  {
    var tail := if i + 1 != |list| then "<br>" else "";
    assert list[..i + 1] == list[..i] + [list[i]];
    JoinSnoc(list[..i], list[i], "<br>");
    if i == 0 {
      assert Join(list[..1], "<br>") == list[0];
    } else {
      var j := Join(list[..i], "<br>");
      assert HtmlBody(list, i) == j + "<br>";
      assert Join(list[..i + 1], "<br>") == j + "<br>" + list[i];
      assert (j + "<br>") + (list[i] + tail) == (j + "<br>" + list[i]) + tail;
    }
  }

  /** After the last entry the body is the entries joined by `<br>`. */
  lemma HtmlEnd(list: seq<string>)
    ensures "<p>" + HtmlBody(list, |list|) + "</p>" == Html(list)
  {
    assert list[..|list|] == list;
  }

  lemma HtmlExamples(x: string, y: string)
    ensures Html([]) == "<p></p>"
    ensures Html([x, y]) == "<p>" + x + "<br>" + y + "</p>"
  {
    assert [x, y][1..] == [y];
    assert Join([x, y], "<br>") == x + "<br>" + y;
  }

  // ---------------------------------------------------------------------------
  // Exceptions
  // ---------------------------------------------------------------------------

  /** The fields of an exception `logException` reads; an empty `stack` is
      one that is absent. */
  datatype ExceptionInfo = ExceptionInfo(name: string, message: string, stack: string)

  /** The stack trace lines each prefixed with "->". */
  function StackLines(lines: seq<string>): (r: seq<string>)
    ensures |r| == |lines|
    ensures forall k :: 0 <= k < |r| ==> r[k] == "->" + lines[k]
  {
    if |lines| == 0 then [] else ["->" + lines[0]] + StackLines(lines[1..])
  }

  /** The messages `logException` logs: a summary line, and the stack trace
      one line at a time when there is one. */
  function ExceptionLines(ex: ExceptionInfo): (r: seq<string>)
    ensures |r| >= 1
    ensures r[0] == "name: " + ex.name + "; msg: " + ex.message +
      (if ex.stack != "" then "; stack follows:" else "; no stack trace available")
    ensures ex.stack == "" ==> |r| == 1
    ensures ex.stack != "" ==> r[1..] == StackLines(Split(ex.stack, '\n'))
  {
    var summary := "name: " + ex.name + "; msg: " + ex.message +
      (if ex.stack != "" then "; stack follows:" else "; no stack trace available");
    [summary] + (if ex.stack != "" then StackLines(Split(ex.stack, '\n')) else [])
  }

  /** Logs `messages` one after the other at `level`, the `k`-th of them at
      time `clock(start + k)`. */
  function LoggedAll(b: Book, messages: seq<string>, level: int, clock: nat -> int, start: nat): (r: Book)
    decreases |messages|
  {
    if |messages| == 0 then b
    else LoggedAll(Logged(b, messages[0], Some(level), clock(start)), messages[1..], level, clock, start + 1)
  }

  /** Logging several messages keeps the invariant and the settings. */
  lemma {:induction false} LoggedAllValid(b: Book, messages: seq<string>, level: int, clock: nat -> int, start: nat)
    ensures var r := LoggedAll(b, messages, level, clock, start);
      (b.Valid() ==> r.Valid()) && r.logType == b.logType && r.logLevel == b.logLevel && r.logListMaxLength == b.logListMaxLength
    decreases |messages|
  {
    if |messages| > 0 {
      LoggedAllValid(Logged(b, messages[0], Some(level), clock(start)), messages[1..], level, clock, start + 1);
    }
  }

  /** In the dump type every message logged takes the next line number. */
  lemma {:induction false} LoggedAllNumbers(b: Book, messages: seq<string>, level: int, clock: nat -> int, start: nat)
    ensures b.logType == TypeDump && level <= b.logLevel ==>
      LoggedAll(b, messages, level, clock, start).logLineNumber == b.logLineNumber + |messages|
    decreases |messages|
  {
    if |messages| > 0 {
      LoggedAllNumbers(Logged(b, messages[0], Some(level), clock(start)), messages[1..], level, clock, start + 1);
    }
  }

  /** Logging several messages in the console type writes them all, in
      order, and keeps no entry. */
  lemma {:induction false} LoggedAllConsole(b: Book, messages: seq<string>, level: int, clock: nat -> int, start: nat)
    requires b.logType == TypeConsole && level <= b.logLevel
    ensures LoggedAll(b, messages, level, clock, start) == b.(consoleLines := b.consoleLines + messages)
    decreases |messages|
  {
    if |messages| == 0 {
      assert b.consoleLines + messages == b.consoleLines;
    } else {
      var b1 := b.(consoleLines := b.consoleLines + [messages[0]]);
      assert Logged(b, messages[0], Some(level), clock(start)) == b1;
      LoggedAllConsole(b1, messages[1..], level, clock, start + 1);
      assert b1.consoleLines + messages[1..] == b.consoleLines + messages;
    }
  }

  /** Any type but the alert, console and dump types ignores every message. */
  lemma {:induction false} LoggedAllIgnored(b: Book, messages: seq<string>, level: int, clock: nat -> int, start: nat)
    requires b.logType != TypeAlert && b.logType != TypeConsole && b.logType != TypeDump
    ensures LoggedAll(b, messages, level, clock, start) == b
    decreases |messages|
  {
    if |messages| > 0 {
      assert Logged(b, messages[0], Some(level), clock(start)) == b;
      LoggedAllIgnored(b, messages[1..], level, clock, start + 1);
    }
  }

  /** The entries `messages` become in a dump-type log book, numbered from
      `lineNumber` and stamped by `clock` from `start` on. */
  function DumpLines(lineNumber: int, messages: seq<string>, clock: nat -> int, start: nat): (r: seq<string>)
    ensures |r| == |messages|
    decreases |messages|
  {
    if |messages| == 0 then [] else [DumpLine(lineNumber, clock(start), messages[0])] + DumpLines(lineNumber + 1, messages[1..], clock, start + 1)
  }

  /** The most recent entries of `list` that stay in a dump-type log book of
      maximum length `maxLength`: all of them without a maximum, and
      otherwise the last ones, fewer than the maximum. */
  function Recent(list: seq<string>, maxLength: Option<int>): seq<string> {
    if maxLength.None? then list else list[|list| - Min(|list|, Max(0, maxLength.value - 1))..]
  }

  /** The entries a dump-type log book keeps when `line` is logged: it is
      appended, and the oldest entry dropped once the list is full. */
  function DumpKept(list: seq<string>, line: string, maxLength: Option<int>): seq<string> {
    var kept := list + [line];
    if Full(|kept|, maxLength) then kept[1..] else kept
  }

  /** The entries kept after logging `lines` one at a time. */
  function KeptAll(list: seq<string>, lines: seq<string>, maxLength: Option<int>): seq<string>
    decreases |lines|
  {
    if |lines| == 0 then list else KeptAll(DumpKept(list, lines[0], maxLength), lines[1..], maxLength)
  }

  /** Keeping the recent entries before appending more keeps the same recent
      entries as keeping them once at the end. */
  lemma RecentAppend(x: seq<string>, y: seq<string>, maxLength: Option<int>)
    ensures Recent(Recent(x, maxLength) + y, maxLength) == Recent(x + y, maxLength)
  {
    if maxLength.Some? {
      var c := Max(0, maxLength.value - 1);
      var u := Recent(x, maxLength);
      var n := Min(|u + y|, c);
      assert n == Min(|x + y|, c) || |u| == |x|;
      assert (u + y)[|u + y| - n..] == (x + y)[|x + y| - n..] by {
        forall i | |u + y| - n <= i < |u + y|
          ensures (u + y)[i] == (x + y)[i + |x| - |u|]
        {
          if i < |u| {
            assert u[i] == x[|x| - |u| + i];
          }
        }
      }
    }
  }

  /** One entry: a list below the maximum keeps its recent entries, and stays
      below the maximum. */
  lemma DumpKeptRecent(list: seq<string>, line: string, maxLength: Option<int>)
    requires maxLength.Some? ==> |list| < Max(1, maxLength.value)
    ensures DumpKept(list, line, maxLength) == Recent(list + [line], maxLength)
    ensures maxLength.Some? ==> |DumpKept(list, line, maxLength)| < Max(1, maxLength.value)
  {
  }

  /** Logging entry after entry into a list below the maximum keeps exactly
      the most recent ones. */
  lemma {:induction false} KeptAllRecent(list: seq<string>, lines: seq<string>, maxLength: Option<int>)
    requires maxLength.Some? ==> |list| < Max(1, maxLength.value)
    ensures KeptAll(list, lines, maxLength) == Recent(list + lines, maxLength)
    decreases |lines|
  {
    if |lines| == 0 {
      assert list + lines == list;
      if maxLength.Some? {
        assert Min(|list|, Max(0, maxLength.value - 1)) == |list|;
      }
    } else {
      var kept := list + [lines[0]];
      DumpKeptRecent(list, lines[0], maxLength);
      KeptAllRecent(DumpKept(list, lines[0], maxLength), lines[1..], maxLength);
      RecentAppend(kept, lines[1..], maxLength);
      assert kept + lines[1..] == list + lines;
    }
  }

  /** Logging several messages in the dump type numbers each of them and
      keeps the entries as the list fills, and shows and writes nothing. */
  lemma {:induction false} LoggedAllDump(b: Book, messages: seq<string>, level: int, clock: nat -> int, start: nat)
    requires b.logType == TypeDump && level <= b.logLevel
    ensures var r := LoggedAll(b, messages, level, clock, start);
      && r.logList == KeptAll(b.logList, DumpLines(b.logLineNumber, messages, clock, start), b.logListMaxLength)
      && r.alerts == b.alerts && r.consoleLines == b.consoleLines
    decreases |messages|
  {
    if |messages| > 0 {
      var b1 := Logged(b, messages[0], Some(level), clock(start));
      assert b1.logList == DumpKept(b.logList, DumpLine(b.logLineNumber, clock(start), messages[0]), b.logListMaxLength);
      LoggedAllDump(b1, messages[1..], level, clock, start + 1);
    }
  }

  /** `logException(ex, level)`, the `k`-th message logged at time
      `clock(k)`. */
  function ExceptionLogged(b: Book, ex: ExceptionInfo, level: Option<int>, clock: nat -> int): (r: Book)
    // an exception below the level is not logged at all
    ensures level.GetOr(LevelError) > b.logLevel ==> r == b
    // nor in a type that keeps no entries and writes none
    ensures b.logType != TypeAlert && b.logType != TypeConsole && b.logType != TypeDump ==> r == b
    ensures b.Valid() ==> r.Valid()
    ensures r.logType == b.logType && r.logLevel == b.logLevel && r.logListMaxLength == b.logListMaxLength
    // the console type writes the summary, then the stack lines
    ensures b.logType == TypeConsole && level.GetOr(LevelError) <= b.logLevel ==>
      r == b.(consoleLines := b.consoleLines + ExceptionLines(ex))
    // the dump type numbers them, and keeps the most recent entries
    ensures b.Valid() && b.logType == TypeDump && level.GetOr(LevelError) <= b.logLevel ==>
      && r.logLineNumber == b.logLineNumber + |ExceptionLines(ex)|
      && r.logList == Recent(b.logList + DumpLines(b.logLineNumber, ExceptionLines(ex), clock, 0), b.logListMaxLength)
      && r.alerts == b.alerts && r.consoleLines == b.consoleLines
  {
    var lvl := level.GetOr(LevelError);
    if lvl <= b.logLevel then
      var r := LoggedAll(b, ExceptionLines(ex), lvl, clock, 0);
      LoggedAllValid(b, ExceptionLines(ex), lvl, clock, 0);
      LoggedAllNumbers(b, ExceptionLines(ex), lvl, clock, 0);
      if b.logType == TypeConsole then
        LoggedAllConsole(b, ExceptionLines(ex), lvl, clock, 0);
        r
      else if b.logType != TypeAlert && b.logType != TypeDump then
        LoggedAllIgnored(b, ExceptionLines(ex), lvl, clock, 0);
        r
      else if b.Valid() && b.logType == TypeDump then
        LoggedAllDump(b, ExceptionLines(ex), lvl, clock, 0);
        KeptAllRecent(b.logList, DumpLines(b.logLineNumber, ExceptionLines(ex), clock, 0), b.logListMaxLength);
        r
      else r
    else b
  }

  // ---------------------------------------------------------------------------
  // The log book
  // ---------------------------------------------------------------------------

  class LogBook {
    var logList: seq<string>
    var logListMaxLength: Option<int>
    var logType: int
    var logLevel: int
    var logLineNumber: int
    /** The texts shown by `alert`, in order. */
    var alerts: seq<string>
    /** The texts written by `console.log`, in order. */
    var consoleLines: seq<string>

    function Snapshot(): Book
      reads this
    {
      Book(logList, logListMaxLength, logType, logLevel, logLineNumber, alerts, consoleLines)
    }

    constructor ()
      ensures Snapshot() == InitialBook
      ensures Snapshot().Valid()
    {
      logList := [];
      logListMaxLength := Some(20);
      logType := TypeNone;
      logLevel := LevelError;
      logLineNumber := 1;
      alerts := [];
      consoleLines := [];
    }

    /** `setLoggingType(aType, maxListLength)`. */
    method SetLoggingType(aType: int, maxListLength: Option<int>)
      modifies this
      ensures Snapshot() == TypeSet(old(Snapshot()), aType, maxListLength)
    {
      if logType == TypeAlert && logType != aType && |logList| > 0 {
        DumpAlert();
      }
      logList := [];
      logType := aType;
      // the source compares with the string 'undefined', so this always happens
      logListMaxLength := maxListLength;
    }

    /** `setLoggingLevel(aLevel)`. */
    method SetLoggingLevel(aLevel: int)
      modifies this
      ensures Snapshot() == old(Snapshot()).(logLevel := aLevel)
    {
      logLevel := aLevel;
    }

    /** `log(message, level)`. */
    method Log(message: string, level: Option<int>, timeStamp: int)
      modifies this
      ensures Snapshot() == Logged(old(Snapshot()), message, level, timeStamp)
    {
      var lvl := level.GetOr(LevelError);
      if logType != TypeNone && lvl <= logLevel {
        if logType == TypeAlert {
          logList := logList + [message];
          if Full(|logList|, logListMaxLength) {
            // max lines per alert
            DumpAlert();
          }
        } else if logType == TypeConsole {
          consoleLines := consoleLines + [message];
        } else if logType == TypeDump {
          logList := logList + [DumpLine(logLineNumber, timeStamp, message)];
          logLineNumber := logLineNumber + 1;
          if Full(|logList|, logListMaxLength) {
            // discard the oldest entry
            logList := logList[1..];
          }
        }
      }
    }

    /** `logException(ex, level)`. */
    method LogException(ex: ExceptionInfo, level: Option<int>, clock: nat -> int)
      modifies this
      ensures Snapshot() == ExceptionLogged(old(Snapshot()), ex, level, clock)
    {
      var lvl := level.GetOr(LevelError);
      if lvl <= logLevel {
        ghost var messages := ExceptionLines(ex);
        ghost var goal := LoggedAll(Snapshot(), messages, lvl, clock, 0);
        Log("name: " + ex.name + "; msg: " + ex.message + (if ex.stack != "" then "; stack follows:" else "; no stack trace available"), Some(lvl), clock(0));
        assert goal == LoggedAll(Snapshot(), messages[1..], lvl, clock, 1);
        if ex.stack != "" {
          var stackArray := Split(ex.stack, '\n');
          var i := 0;
          while i < |stackArray|
            invariant 0 <= i <= |stackArray|
            invariant goal == LoggedAll(Snapshot(), messages[i + 1..], lvl, clock, i + 1)
          {
            assert messages[i + 1..][0] == "->" + stackArray[i];
            assert messages[i + 1..][1..] == messages[i + 2..];
            Log("->" + stackArray[i], Some(lvl), clock(i + 1));
            i := i + 1;
          }
        }
      }
    }

    /** `onFinished()`. */
    method OnFinished()
      modifies this
      ensures Snapshot() == Finished(old(Snapshot()))
    {
      if logType == TypeAlert {
        DumpAlert();
      } else {
        logList := [];
      }
    }

    /** `dumpAlert()`. */
    method DumpAlert()
      modifies this
      ensures Snapshot() == DumpAlerted(old(Snapshot()))
    {
      if |logList| > 0 {
        var alertMsg := "";
        var i := 0;
        while i < |logList|
          invariant 0 <= i <= |logList|
          invariant alertMsg == Join(logList[..i], "\n")
          invariant Snapshot() == old(Snapshot())
        {
          JoinSnoc(logList[..i], logList[i], "\n");
          assert logList[..i + 1] == logList[..i] + [logList[i]];
          if i > 0 {
            alertMsg := alertMsg + "\n";
          }
          alertMsg := alertMsg + logList[i];
          i := i + 1;
        }
        assert logList[..i] == logList;
        alerts := alerts + [alertMsg];
        logList := [];
      }
    }

    /** `dumpJSON()`: the entries, which the source returns as JSON text,
        and an empty list. */
    method DumpJSON() returns (entries: seq<string>)
      modifies this
      ensures entries == old(logList)
      ensures Snapshot() == old(Snapshot()).(logList := [])
    {
      entries := logList;
      logList := [];
    }

    /** `dumpHTML()`: the entries as one HTML paragraph, one per line, and an
        empty list. */
    method DumpHTML() returns (retVal: string)
      modifies this
      ensures retVal == Html(old(logList))
      ensures Snapshot() == old(Snapshot()).(logList := [])
    {
      retVal := "<p>";
      var i := 0;
      while i < |logList|
        invariant 0 <= i <= |logList|
        invariant Snapshot() == old(Snapshot())
        invariant retVal == "<p>" + HtmlBody(logList, i)
      {
        HtmlStep(logList, i);
        ghost var before := retVal;
        retVal := retVal + logList[i];
        if i + 1 != |logList| {
          retVal := retVal + "<br>";
        }
        assert retVal == before + (logList[i] + if i + 1 != |logList| then "<br>" else "");
        i := i + 1;
      }
      HtmlEnd(logList);
      retVal := retVal + "</p>";
      logList := [];
    }
  }
}
