/**
 * The background worker of the study-timer extension: it owns the single
 * session record, answers the popup's start/stop/query messages, ticks once
 * a second while a session runs, and logs the active tab at the start of a
 * session, every five minutes, and once more at its end.
 *
 * The clock (`Date.now()`, integer milliseconds since the epoch) is a `nat`
 * parameter of every operation that reads it; the browser's answers to a
 * capture are a `Probe`; messages sent to other pages are appended to
 * `outbox` in the order the code sends them.
 */
module Background {
  import opened Common

  const StudyMinutes: nat := 25
  const TotalSeconds: nat := StudyMinutes * 60
  const SessionMs: nat := StudyMinutes * 60 * 1000

  /** What `getTimerState` reports. */
  datatype Snapshot = Snapshot(
    isRunning: bool,
    startTime: Option<nat>,
    endTime: Option<nat>,
    secondsLeft: int,
    totalSeconds: int,
    elapsedSeconds: int,
    totalMinutes: int)

  /** Messages the worker sends to other extension pages. */
  datatype Message = TimerUpdate(state: Snapshot) | TimerStopped(state: Snapshot) | PlayCompletionSound

  /** Replies to the popup: `{success: true, state}`, `{state}` or `{error}`. */
  datatype Response = Acknowledged(state: Snapshot) | StateReply(state: Snapshot) | Failure(error: string)

  /** `Math.max(0, Math.floor(ms / 1000))`: whole seconds left, never negative. */
  function WholeSecondsLeft(ms: int): (r: nat)
    ensures ms < 1000 ==> r == 0
    ensures ms >= 1000 ==> 1000 * r <= ms < 1000 * r + 1000
  {
    if ms / 1000 < 0 then 0 else ms / 1000
  }

  /** `getTimerState`: the snapshot derived from the stored record at clock `now`. */
  function ComputeSnapshot(isRunning: bool, startTime: Option<nat>, endTime: Option<nat>, now: nat): (r: Snapshot)
    ensures r.isRunning == isRunning && r.startTime == startTime && r.endTime == endTime
    ensures r.totalSeconds == TotalSeconds
    ensures 0 <= r.secondsLeft
    ensures !(isRunning && Stamped(endTime)) ==> r.secondsLeft == 0 && r.elapsedSeconds == 0
    ensures isRunning && Stamped(endTime) ==> r.elapsedSeconds + r.secondsLeft == r.totalSeconds
    ensures isRunning && Stamped(endTime) ==> (r.secondsLeft == 0 <==> endTime.value - now < 1000)
    ensures isRunning && Stamped(endTime) && r.secondsLeft > 0 ==>
              1000 * r.secondsLeft <= endTime.value - now < 1000 * r.secondsLeft + 1000
    ensures Stamped(startTime) ==> 60000 * r.totalMinutes - 30000 <= now - startTime.value < 60000 * r.totalMinutes + 30000
    ensures !Stamped(startTime) ==> r.totalMinutes == 0
  {
    var secondsLeft := if isRunning && Stamped(endTime) then WholeSecondsLeft(endTime.value - now) else 0;
    var elapsedSeconds := if isRunning && Stamped(endTime) then TotalSeconds - secondsLeft else 0;
    var totalMinutes := if Stamped(startTime) then RoundedMinutes(now - startTime.value) else 0;
    Snapshot(isRunning, startTime, endTime, secondsLeft, TotalSeconds, elapsedSeconds, totalMinutes)
  }

  /** While a session runs and the clock has not gone back past its start, the countdown stays within the session. */
  lemma SnapshotWithinSession(start: nat, now: nat)
    requires start <= now
    ensures var r := ComputeSnapshot(true, Some(start), Some(start + SessionMs), now);
      && 0 <= r.secondsLeft <= r.totalSeconds
      && 0 <= r.elapsedSeconds <= r.totalSeconds
      && r.elapsedSeconds + r.secondsLeft == r.totalSeconds
      && (now >= start + SessionMs ==> r.secondsLeft == 0)
  {
    var r := ComputeSnapshot(true, Some(start), Some(start + SessionMs), now);
    if r.secondsLeft > 0 {
      assert 1000 * r.secondsLeft <= SessionMs;
    }
  }

  /** As the clock advances, `secondsLeft` never grows. */
  lemma SecondsLeftNonIncreasing(isRunning: bool, startTime: Option<nat>, endTime: Option<nat>, now1: nat, now2: nat)
    requires now1 <= now2
    ensures ComputeSnapshot(isRunning, startTime, endTime, now2).secondsLeft
         <= ComputeSnapshot(isRunning, startTime, endTime, now1).secondsLeft
  {
    var a := ComputeSnapshot(isRunning, startTime, endTime, now1).secondsLeft;
    var b := ComputeSnapshot(isRunning, startTime, endTime, now2).secondsLeft;
    if b > 0 {
      assert 1000 * b <= endTime.value - now2 <= endTime.value - now1 < 1000 * a + 1000;
    }
  }

  /**
   * The entry `captureAndLog` builds, or None when it writes nothing: no tab,
   * a failed tab query, or a tab without a URL (whose `startsWith` throws
   * into the outer catch). Protected pages and failed screenshots give an
   * entry without a screenshot.
   */
  function CaptureEntry(probe: Probe): (r: Option<LogEntry>)
    ensures r.Some? <==> probe.query.Active? && probe.query.tab.url.Some?
    ensures r.Some? ==> r.value.time == probe.stamp && r.value.url == probe.query.tab.url
    ensures r.Some? ==> r.value.title == Some(TitleOrUnknown(probe.query.tab.title))
    ensures r.Some? ==> (r.value.screenshot.Some? <==> !IsProtectedUrl(probe.query.tab.url.value) && probe.capture.Shot?)
    ensures r.Some? && r.value.screenshot.Some? ==> r.value.screenshot == Some(probe.capture.data)
  {
    match probe.query
    case Active(tab) =>
      (match tab.url
       case Some(url) =>
         var screenshot :=
           if IsProtectedUrl(url) then None
           else match probe.capture
                case Shot(data) => Some(data)
                case CaptureError => None;
         Some(LogEntry(probe.stamp, Some(TitleOrUnknown(tab.title)), tab.url, screenshot))
       case None => None)
    case NoActiveTab => None
    case QueryError => None
  }

  /** The single session coordinator with its `timerState` record. */
  class Coordinator {
    const store: LogStore
    var isRunning: bool
    var startTime: Option<nat>
    var endTime: Option<nat>
    /** whether the one-second interval is armed */
    var countdownTimer: bool
    /** whether the five-minute capture interval is armed */
    var captureInterval: bool
    var outbox: seq<Message>

    /** A running session has both intervals armed and ends 25 minutes after it started; an idle one has neither and no end. */
    predicate Valid()
      reads this
    {
      && countdownTimer == isRunning
      && captureInterval == isRunning
      && (isRunning ==> startTime.Some? && endTime == Some(startTime.value + SessionMs))
      && (!isRunning ==> endTime.None?)
    }

    constructor (store: LogStore)
      ensures Valid() && this.store == store
      ensures !isRunning && startTime.None? && endTime.None?
      ensures !countdownTimer && !captureInterval && outbox == []
    {
      this.store := store;
      isRunning := false;
      startTime := None;
      endTime := None;
      countdownTimer := false;
      captureInterval := false;
      outbox := [];
    }

    /** `getTimerState` read at clock `now`. */
    function GetTimerState(now: nat): (r: Snapshot)
      reads this
      ensures r.isRunning == isRunning && r.startTime == startTime && r.endTime == endTime
      ensures Valid() && !isRunning ==> r.secondsLeft == 0 && r.elapsedSeconds == 0 && r.totalSeconds == TotalSeconds
      ensures Valid() && isRunning ==> r.secondsLeft == WholeSecondsLeft(endTime.value - now)
      ensures Valid() && isRunning && startTime.value <= now ==>
                0 <= r.secondsLeft <= r.totalSeconds && r.elapsedSeconds + r.secondsLeft == r.totalSeconds
    {
      var r := ComputeSnapshot(isRunning, startTime, endTime, now);
      if Valid() && isRunning && startTime.value <= now then SnapshotWithinSession(startTime.value, now); r else r
    }

    /** `startStudySession` as a change of state. */
    twostate predicate Started(now: nat, probe: Probe)
      reads this, store
    {
      if old(isRunning) then
        unchanged(this) && store.logs == old(store.logs)
      else
        && isRunning && startTime == Some(now) && endTime == Some(now + SessionMs)
        && countdownTimer && captureInterval
        && outbox == old(outbox)
        && store.logs == Appended(old(store.logs), CaptureEntry(probe))
    }

    /** `stopStudySession` as a change of state. */
    twostate predicate Stopped(now: nat, probe: Probe)
      reads this, store
    {
      if !old(isRunning) then
        unchanged(this) && store.logs == old(store.logs)
      else
        && !isRunning && endTime.None? && startTime == old(startTime)
        && !countdownTimer && !captureInterval
        && store.logs == Appended(old(store.logs), CaptureEntry(probe))
        && outbox == old(outbox) + [TimerStopped(ComputeSnapshot(false, startTime, None, now)), PlayCompletionSound]
    }

    /** `captureAndLog`: log the active tab, if there is one. */
    method CaptureAndLog(probe: Probe)
      modifies store
      ensures store.logs == Appended(old(store.logs), CaptureEntry(probe))
    {
      var entry := CaptureEntry(probe);
      if entry.Some? {
        store.Append(entry.value);
      }
    }

    /** Start a session unless one is running; log the tab at once. */
    method StartStudySession(now: nat, probe: Probe)
      requires Valid()
      modifies this, store
      ensures Valid() && Started(now, probe)
    {
      if isRunning {
        return;
      }
      isRunning := true;
      startTime := Some(now);
      endTime := Some(now + SessionMs);
      countdownTimer := true;
      CaptureAndLog(probe);
      captureInterval := true;
    }

    /**
     * Stop a running session: disarm both intervals, log the tab a last time,
     * reset, notify. `playCompletionSound` is called before the reset, but it
     * sends its request only after awaiting `createOffscreenDocument`, so the
     * request leaves after the synchronous `timerStopped` push.
     */
    method StopStudySession(now: nat, probe: Probe)
      requires Valid()
      modifies this, store
      ensures Valid() && Stopped(now, probe)
    {
      if !isRunning {
        return;
      }
      if countdownTimer {
        countdownTimer := false;
      }
      if captureInterval {
        captureInterval := false;
      }
      CaptureAndLog(probe);
      isRunning := false;
      endTime := None;
      outbox := outbox + [TimerStopped(GetTimerState(now))];
      outbox := outbox + [PlayCompletionSound];
    }

    /** One firing of the one-second interval: push the state, and stop once no whole second is left. */
    method Tick(now: nat, probe: Probe)
      requires Valid() && countdownTimer
      modifies this, store
      ensures Valid()
      ensures var s := ComputeSnapshot(true, old(startTime), old(endTime), now);
        if s.secondsLeft <= 0 then
          && !isRunning && endTime.None? && startTime == old(startTime)
          && !countdownTimer && !captureInterval
          && store.logs == Appended(old(store.logs), CaptureEntry(probe))
          && outbox == old(outbox) + [TimerUpdate(s), TimerStopped(ComputeSnapshot(false, startTime, None, now)), PlayCompletionSound]
        else
          && isRunning && startTime == old(startTime) && endTime == old(endTime)
          && countdownTimer && captureInterval
          && store.logs == old(store.logs)
          && outbox == old(outbox) + [TimerUpdate(s)]
    {
      var state := GetTimerState(now);
      outbox := outbox + [TimerUpdate(state)];
      if state.secondsLeft <= 0 {
        StopStudySession(now, probe);
      }
    }

    /** One firing of the five-minute capture interval. */
    method CaptureTick(probe: Probe)
      requires Valid() && captureInterval
      modifies store
      ensures store.logs == Appended(old(store.logs), CaptureEntry(probe))
    {
      CaptureAndLog(probe);
    }

    /** The `onMessage` listener: dispatch on `action` and reply. */
    method HandleMessage(action: string, now: nat, probe: Probe) returns (response: Response)
      requires Valid()
      modifies this, store
      ensures Valid()
      ensures action == "startTimer" ==> Started(now, probe) && response == Acknowledged(GetTimerState(now))
      ensures action == "stopTimer" ==> Stopped(now, probe) && response == Acknowledged(GetTimerState(now))
      ensures action == "getTimerState" ==>
                unchanged(this) && store.logs == old(store.logs) && response == StateReply(GetTimerState(now))
      ensures action !in {"startTimer", "stopTimer", "getTimerState"} ==>
                unchanged(this) && store.logs == old(store.logs) && response == Failure("Unknown action")
    {
      if action == "startTimer" {
        StartStudySession(now, probe);
        response := Acknowledged(GetTimerState(now));
      } else if action == "stopTimer" {
        StopStudySession(now, probe);
        response := Acknowledged(GetTimerState(now));
      } else if action == "getTimerState" {
        response := StateReply(GetTimerState(now));
      } else {
        response := Failure("Unknown action");
      }
    }
  }

  /**
   * A whole session on a fresh worker: start at `t0`, then the first tick
   * at which less than a second is left. It stops on its own, rings once,
   * and leaves exactly the opening and the closing entry in the log.
   */
  method CompletedSession(t0: nat, t1: nat, opening: Probe, closing: Probe)
    returns (entries: seq<LogEntry>, running: bool, messages: seq<Message>)
    requires t0 + SessionMs - 1000 < t1
    requires CaptureEntry(opening).Some? && CaptureEntry(closing).Some?
    ensures !running
    ensures entries == [CaptureEntry(opening).value, CaptureEntry(closing).value]
    ensures |messages| == 3 && messages[0].TimerUpdate? && messages[0].state.secondsLeft == 0
    ensures messages[1].TimerStopped? && !messages[1].state.isRunning && messages[1].state.startTime == Some(t0)
    ensures messages[2] == PlayCompletionSound
  {
    var store := new LogStore();
    var worker := new Coordinator(store);
    worker.StartStudySession(t0, opening);
    worker.Tick(t1, closing);
    entries := store.logs;
    running := worker.isRunning;
    messages := worker.outbox;
  }

  /** A tick while a whole second is still left changes nothing but the pushed update. */
  method EarlyTick(t0: nat, t1: nat, opening: Probe, other: Probe)
    returns (entries: seq<LogEntry>, running: bool, secondsLeft: int)
    requires t0 <= t1 <= t0 + SessionMs - 1000
    requires CaptureEntry(opening).Some?
    ensures running && entries == [CaptureEntry(opening).value]
    ensures 1 <= secondsLeft <= TotalSeconds && secondsLeft == (t0 + SessionMs - t1) / 1000
  {
    var store := new LogStore();
    var worker := new Coordinator(store);
    worker.StartStudySession(t0, opening);
    worker.Tick(t1, other);
    entries := store.logs;
    running := worker.isRunning;
    secondsLeft := worker.outbox[0].state.secondsLeft;
  }
}
