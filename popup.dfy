/**
 * The popup page of the study-timer extension: its own countdown, its own
 * capture pipeline feeding the shared `logs` key, the `MM:SS` formatter, and
 * the HTML study report with its export and clear actions.
 *
 * Date formatting (`toLocaleString`) is the parameter `localeTime`; the
 * report is modelled as its block structure, not as markup.
 */
module Popup {
  import opened Common

  const StudyMinutes: nat := 25
  const TotalSeconds: nat := StudyMinutes * 60

  // ---------------------------------------------------------------------
  // secondsToMMSS

  predicate IsDigit(c: char)
  {
    '0' <= c <= '9'
  }

  predicate IsDigits(s: string)
  {
    s == [] || (IsDigits(s[..|s| - 1]) && IsDigit(s[|s| - 1]))
  }

  /** The character of a decimal digit. */
  function DigitChar(d: nat): (c: char)
    requires d < 10
    ensures IsDigit(c) && c as int - '0' as int == d
  {
    (d + '0' as int) as char
  }

  /** The number a string of decimal digits denotes (leading zeros allowed). */
  function DigitsValue(s: string): int
  {
    if s == [] then 0 else 10 * DigitsValue(s[..|s| - 1]) + (s[|s| - 1] as int - '0' as int)
  }

  /** `String(n)` for a non-negative integer: its shortest decimal spelling. */
  function DecimalString(n: nat): (r: string)
    ensures 1 <= |r| && IsDigits(r) && DigitsValue(r) == n
    ensures |r| == 1 <==> n < 10
    ensures n < 100 ==> |r| <= 2
    ensures |r| > 1 ==> r[0] != '0'
  {
    if n < 10 then [DigitChar(n)]
    else
      var prefix := DecimalString(n / 10);
      var r := prefix + [DigitChar(n % 10)];
      assert r[..|r| - 1] == prefix;
      r
  }

  /** `s.padStart(width, fill)` for a one-character fill. */
  function PadStart(s: string, width: nat, fill: char): (r: string)
    ensures |r| == if |s| >= width then |s| else width
    ensures r[|r| - |s|..] == s
    ensures forall k :: 0 <= k < |r| - |s| ==> r[k] == fill
    decreases width - |s|
  {
    if |s| >= width then s else PadStart([fill] + s, width, fill)
  }

  /** A leading zero does not change the value of a digit string. */
  lemma {:induction false} LeadingZero(s: string)
    ensures DigitsValue(['0'] + s) == DigitsValue(s)
    ensures IsDigits(['0'] + s) == IsDigits(s)
    decreases |s|
  {
    if s != [] {
      var t := ['0'] + s;
      assert t[..|t| - 1] == ['0'] + s[..|s| - 1];
      LeadingZero(s[..|s| - 1]);
    }
  }

  /** Leading zeros added by padding keep the digits and their value. */
  lemma {:induction false} ZeroPadValue(s: string, width: nat)
    requires IsDigits(s)
    ensures IsDigits(PadStart(s, width, '0')) && DigitsValue(PadStart(s, width, '0')) == DigitsValue(s)
    decreases width - |s|
  {
    if |s| < width {
      LeadingZero(s);
      ZeroPadValue(['0'] + s, width);
    }
  }

  /** `String(n).padStart(2, "0")`. */
  function TwoDigitField(n: nat): (r: string)
    ensures |r| >= 2 && IsDigits(r) && DigitsValue(r) == n
    ensures n < 100 ==> |r| == 2
  {
    var digits := DecimalString(n);
    ZeroPadValue(digits, 2);
    PadStart(digits, 2, '0')
  }

  /** The minutes field of an `M…M:SS` clock: everything before the colon. */
  function MinutesField(t: string): string
    requires |t| >= 3
  {
    t[..|t| - 3]
  }

  /** The seconds field of an `M…M:SS` clock: its last two characters. */
  function SecondsField(t: string): string
    requires |t| >= 3
  {
    t[|t| - 2..]
  }

  /** `secondsToMMSS`: zero-padded minutes, a colon, zero-padded seconds. */
  function SecondsToMMSS(sec: nat): (r: string)
    ensures |r| >= 5
    ensures sec < 6000 ==> |r| == 5
  {
    TwoDigitField(sec / 60) + ":" + TwoDigitField(sec % 60)
  }

  /**
   * The shape of every clock the popup shows: minutes (at least two digits,
   * never cut), a colon, then exactly two digits of seconds in 00..59; five
   * characters below 100 minutes.
   */
  lemma ClockFormat(sec: nat)
    ensures var r := SecondsToMMSS(sec);
      && |r| >= 5 && r[|r| - 3] == ':'
      && IsDigits(MinutesField(r)) && DigitsValue(MinutesField(r)) == sec / 60
      && IsDigits(SecondsField(r)) && |SecondsField(r)| == 2 && DigitsValue(SecondsField(r)) == sec % 60 < 60
      && (sec < 6000 ==> |r| == 5 && r[2] == ':')
  {
    ClockFields(TwoDigitField(sec / 60), TwoDigitField(sec % 60));
  }

  /** The two fields of `minutes:seconds` when the seconds field has two characters. */
  lemma ClockFields(minutes: string, seconds: string)
    requires |seconds| == 2
    ensures var r := minutes + ":" + seconds;
      && |r| == |minutes| + 3 && r[|r| - 3] == ':' && MinutesField(r) == minutes && SecondsField(r) == seconds
  {
    var r := minutes + ":" + seconds;
    assert r[..|r| - 3] == minutes;
    assert r[|r| - 2..] == seconds;
  }

  /** Read an `M…M:SS` clock back into seconds; None for anything else. */
  function ParseClock(t: string): Option<int>
  {
    if |t| >= 4 && t[|t| - 3] == ':' && IsDigits(MinutesField(t)) && IsDigits(SecondsField(t))
    then Some(60 * DigitsValue(MinutesField(t)) + DigitsValue(SecondsField(t)))
    else None
  }

  /** Every clock the popup shows reads back as the seconds it was made from. */
  lemma ClockRoundTrip(sec: nat)
    ensures ParseClock(SecondsToMMSS(sec)) == Some(sec)
  {
    var r := SecondsToMMSS(sec);
    var minutes, seconds := sec / 60, sec % 60;
    assert ParseClock(r) == Some(60 * minutes + seconds) by {
      ClockFormat(sec);
      ReadClock(r, minutes, seconds);
    }
    assert 60 * minutes + seconds == sec;
  }

  /** A clock whose fields are digits denoting `minutes` and `seconds` reads back as 60 * minutes + seconds. */
  lemma ReadClock(t: string, minutes: int, seconds: int)
    requires |t| >= 5 && t[|t| - 3] == ':'
    requires IsDigits(MinutesField(t)) && DigitsValue(MinutesField(t)) == minutes
    requires IsDigits(SecondsField(t)) && DigitsValue(SecondsField(t)) == seconds
    ensures ParseClock(t) == Some(60 * minutes + seconds)
  {
  }

  // ---------------------------------------------------------------------
  // captureAndLog

  /** An entry without a screenshot for the tab a second query found, if any. */
  function RecoveryEntry(probe: Probe): (r: Option<LogEntry>)
    ensures r.Some? <==> probe.requery.Active?
    ensures r.Some? ==> r.value.time == probe.stamp && r.value.screenshot.None?
    ensures r.Some? ==> r.value.title == probe.requery.tab.title && r.value.url == probe.requery.tab.url
  {
    match probe.requery
    case Active(t) => Some(LogEntry(probe.stamp, t.title, t.url, None))
    case NoActiveTab => None
    case QueryError => None
  }

  /**
   * The entry the popup's `captureAndLog` saves, or None. The title is kept
   * as the tab reports it. A failed tab query, a tab without a URL (its
   * `startsWith` throws) or a failed screenshot lands in the catch block,
   * which queries again and saves an entry without a screenshot.
   */
  function PopupEntry(probe: Probe): (r: Option<LogEntry>)
    ensures probe.query.NoActiveTab? ==> r.None?
    ensures probe.query.Active? && probe.query.tab.url.Some? && IsProtectedUrl(probe.query.tab.url.value) ==>
              r == Some(LogEntry(probe.stamp, probe.query.tab.title, probe.query.tab.url, None))
    ensures probe.query.Active? && probe.query.tab.url.Some? && !IsProtectedUrl(probe.query.tab.url.value) && probe.capture.Shot? ==>
              r == Some(LogEntry(probe.stamp, probe.query.tab.title, probe.query.tab.url, Some(probe.capture.data)))
    ensures probe.query.QueryError? || (probe.query.Active? && probe.query.tab.url.None?) ||
            (probe.query.Active? && probe.query.tab.url.Some? && !IsProtectedUrl(probe.query.tab.url.value) && probe.capture.CaptureError?) ==>
              r == RecoveryEntry(probe)
  {
    match probe.query
    case NoActiveTab => None
    case QueryError => RecoveryEntry(probe)
    case Active(tab) =>
      match tab.url
      case None => RecoveryEntry(probe)
      case Some(url) =>
        if IsProtectedUrl(url) then Some(LogEntry(probe.stamp, tab.title, tab.url, None))
        else match probe.capture
             case Shot(data) => Some(LogEntry(probe.stamp, tab.title, tab.url, Some(data)))
             case CaptureError => RecoveryEntry(probe)
  }

  /** On a protected page the screenshot answer is never consulted. */
  lemma ProtectedPageIgnoresCapture(probe: Probe, other: Capture)
    requires probe.query.Active? && probe.query.tab.url.Some? && IsProtectedUrl(probe.query.tab.url.value)
    ensures PopupEntry(probe) == PopupEntry(probe.(capture := other))
    ensures PopupEntry(probe).Some? && PopupEntry(probe).value.screenshot.None?
  {
  }

  // ---------------------------------------------------------------------
  // buildHtmlReport

  /** The bottom of a report block: the screenshot, or the placeholder paragraph. */
  datatype Figure = Image(src: string) | NoScreenshotPlaceholder

  /** One `<div class="entry">` of the report. */
  datatype Block = Block(number: nat, time: string, title: string, url: Option<string>, figure: Figure)

  /** The report: its total-time line, its entry-count line, and its blocks in order. */
  datatype Report = Report(totalMinutes: int, entryCount: nat, blocks: seq<Block>)

  /** The popup page with its countdown closure and its two interval handles. */
  class PopupController {
    const store: LogStore
    /** whether the one-second countdown interval is armed */
    var countdownArmed: bool
    /** whether the five-minute capture interval is armed */
    var captureArmed: bool
    var startTimestamp: Option<nat>
    /** the countdown closure's `secondsLeft` */
    var secondsLeft: int
    /** the value last passed to `updateCountdown`: the countdown element reads `SecondsToMMSS(shownSeconds)` */
    var shownSeconds: int

    /** Both intervals run together, and a running countdown has 1..1500 seconds left. */
    predicate Valid()
      reads this
    {
      && countdownArmed == captureArmed
      && (countdownArmed ==> 1 <= secondsLeft <= TotalSeconds)
    }

    constructor (store: LogStore)
      ensures Valid() && this.store == store
      ensures !countdownArmed && !captureArmed && startTimestamp.None?
    {
      this.store := store;
      countdownArmed := false;
      captureArmed := false;
      startTimestamp := None;
      secondsLeft := 0;
      shownSeconds := 0;
    }

    /** `captureAndLog` followed by `saveLog`. */
    method CaptureAndLog(probe: Probe)
      modifies store
      ensures store.logs == Appended(old(store.logs), PopupEntry(probe))
    {
      var entry := PopupEntry(probe);
      if entry.Some? {
        store.Append(entry.value);
      }
    }

    /** `startSession`, reachable only while the start button is enabled, that is while no countdown runs. */
    method StartSession(now: nat, probe: Probe)
      requires Valid() && !countdownArmed
      modifies this, store
      ensures Valid() && countdownArmed && captureArmed
      ensures startTimestamp == Some(now) && secondsLeft == TotalSeconds && shownSeconds == secondsLeft
      ensures store.logs == Appended(old(store.logs), PopupEntry(probe))
    {
      startTimestamp := Some(now);
      secondsLeft := TotalSeconds;
      shownSeconds := secondsLeft;
      countdownArmed := true;
      CaptureAndLog(probe);
      captureArmed := true;
    }

    /** `endSession`: disarm both intervals and log the tab a last time. */
    method EndSession(probe: Probe)
      modifies this, store
      ensures !countdownArmed && !captureArmed && Valid()
      ensures startTimestamp == old(startTimestamp) && secondsLeft == old(secondsLeft) && shownSeconds == old(shownSeconds)
      ensures store.logs == Appended(old(store.logs), PopupEntry(probe))
    {
      countdownArmed := false;
      captureArmed := false;
      CaptureAndLog(probe);
    }

    /** One firing of the countdown interval: one second less, shown, and the session ends at zero. */
    method Tick(probe: Probe)
      requires Valid() && countdownArmed
      modifies this, store
      ensures Valid()
      ensures secondsLeft == old(secondsLeft) - 1 && 0 <= secondsLeft
      ensures shownSeconds == secondsLeft
      ensures startTimestamp == old(startTimestamp)
      ensures countdownArmed == captureArmed == (secondsLeft > 0)
      ensures store.logs == if secondsLeft > 0 then old(store.logs) else Appended(old(store.logs), PopupEntry(probe))
    {
      secondsLeft := secondsLeft - 1;
      shownSeconds := secondsLeft;
      if secondsLeft <= 0 {
        EndSession(probe);
      }
    }

    /** One firing of the five-minute capture interval. */
    method CaptureTick(probe: Probe)
      requires captureArmed
      modifies store
      ensures store.logs == Appended(old(store.logs), PopupEntry(probe))
    {
      CaptureAndLog(probe);
    }

    /** `buildHtmlReport`: the summary lines, then one numbered block per entry, in order. */
    method BuildHtmlReport(logs: seq<LogEntry>, now: nat, localeTime: string -> string) returns (report: Report)
      ensures Stamped(startTimestamp) ==>
                60000 * report.totalMinutes - 30000 <= now - startTimestamp.value < 60000 * report.totalMinutes + 30000
      ensures !Stamped(startTimestamp) ==> report.totalMinutes == 0
      ensures report.entryCount == |logs| && |report.blocks| == |logs|
      ensures forall i :: 0 <= i < |logs| ==>
                && report.blocks[i].number == i + 1
                && report.blocks[i].time == localeTime(logs[i].time)
                && report.blocks[i].title == TitleOrUnknown(logs[i].title)
                && report.blocks[i].url == logs[i].url
                && (report.blocks[i].figure.Image? <==> Truthy(logs[i].screenshot))
                && (report.blocks[i].figure.Image? ==> report.blocks[i].figure.src == logs[i].screenshot.value)
    {
      var totalMinutes := if Stamped(startTimestamp) then RoundedMinutes(now - startTimestamp.value) else 0;
      var blocks: seq<Block> := [];
      for idx := 0 to |logs|
        invariant |blocks| == idx
        invariant forall i :: 0 <= i < idx ==>
                    && blocks[i].number == i + 1
                    && blocks[i].time == localeTime(logs[i].time)
                    && blocks[i].title == TitleOrUnknown(logs[i].title)
                    && blocks[i].url == logs[i].url
                    && (blocks[i].figure.Image? <==> Truthy(logs[i].screenshot))
                    && (blocks[i].figure.Image? ==> blocks[i].figure.src == logs[i].screenshot.value)
      {
        var e := logs[idx];
        var figure := if Truthy(e.screenshot) then Image(e.screenshot.value) else NoScreenshotPlaceholder;
        blocks := blocks + [Block(idx + 1, localeTime(e.time), TitleOrUnknown(e.title), e.url, figure)];
      }
      report := Report(totalMinutes, |logs|, blocks);
    }

    /** `exportReport`: no report for an empty log; otherwise the report of the whole log. */
    method ExportReport(now: nat, localeTime: string -> string) returns (report: Option<Report>)
      ensures report.None? <==> store.logs == []
      ensures report.Some? ==> report.value.entryCount == |store.logs| && |report.value.blocks| == |store.logs|
      ensures report.Some? ==> forall i :: 0 <= i < |store.logs| ==>
                report.value.blocks[i].number == i + 1 && report.value.blocks[i].url == store.logs[i].url
    {
      var logs := store.logs;
      if |logs| == 0 {
        return None;
      }
      var html := BuildHtmlReport(logs, now, localeTime);
      report := Some(html);
    }

    /** `clearLogs`. */
    method ClearLogs()
      modifies store
      ensures store.logs == []
    {
      store.Clear();
    }
  }

  /**
   * The countdown on a fresh popup after `k` firings of its interval: it
   * shows `1500 - k`, is still armed until the 1500th firing, and that
   * firing ends the session with a second capture.
   */
  method CountdownAfter(k: nat, now: nat, opening: Probe, closing: Probe) returns (shown: string, armed: bool, entries: seq<LogEntry>)
    requires 1 <= k <= TotalSeconds
    ensures shown == SecondsToMMSS(TotalSeconds - k)
    ensures armed <==> k < TotalSeconds
    ensures entries == if k < TotalSeconds then Appended([], PopupEntry(opening))
                       else Appended(Appended([], PopupEntry(opening)), PopupEntry(closing))
  {
    var store := new LogStore();
    var popup := new PopupController(store);
    popup.StartSession(now, opening);
    var i := 0;
    while i < k
      invariant 0 <= i <= k
      invariant popup.Valid() && popup.store == store
      invariant popup.secondsLeft == TotalSeconds - i && popup.countdownArmed == (i < TotalSeconds)
      invariant popup.shownSeconds == TotalSeconds - i
      invariant store.logs == if i < TotalSeconds then Appended([], PopupEntry(opening))
                              else Appended(Appended([], PopupEntry(opening)), PopupEntry(closing))
    {
      popup.Tick(closing);
      i := i + 1;
    }
    var left: nat := popup.shownSeconds;
    assert left == TotalSeconds - k;
    shown := SecondsToMMSS(left);
    armed := popup.countdownArmed;
    entries := store.logs;
  }
}

/** How the two pages' capture pipelines compare on the same browser answers. */
module CapturePipelines {
  import opened Common
  import Background
  import Popup

  /**
   * On a tab with a URL, when a second tab query would answer like the
   * first, the popup saves the entry the background worker logs except
   * that it keeps the tab's own title instead of falling back to 'Unknown'.
   */
  lemma PagesAgreeUpToTitle(probe: Probe)
    requires probe.query.Active? && probe.query.tab.url.Some? && probe.requery == probe.query
    ensures Background.CaptureEntry(probe).Some? && Popup.PopupEntry(probe).Some?
    ensures Popup.PopupEntry(probe).value == Background.CaptureEntry(probe).value.(title := probe.query.tab.title)
  {
  }

  /** On a tab without a URL the worker logs nothing, while the popup's recovery path still saves an entry. */
  lemma MissingUrlOnlyPopupLogs(probe: Probe)
    requires probe.query.Active? && probe.query.tab.url.None? && probe.requery == probe.query
    ensures Background.CaptureEntry(probe).None?
    ensures Popup.PopupEntry(probe) == Some(LogEntry(probe.stamp, probe.query.tab.title, None, None))
  {
  }
}
