/**
 * The offscreen document of the study-timer extension, which rings the
 * completion sound a given number of times with a pause between rings.
 *
 * The audio element is either present or absent (`hasAudio`); starting it is
 * counted in `plays`. Every `playNextSound` that starts the sound attaches a
 * fresh `ended` listener, and `setTimeout` hands out increasing positive ids
 * whose pending callbacks are the set `pending`. The pure step functions on
 * `Player` state what each handler does; the class `SoundLoop` holds the
 * module's variables and is proved against them.
 */
module Offscreen {
  import opened Common

  const DefaultLoops: int := 3

  /** `message.loops || 3`: a missing or zero count means three rings. */
  function LoopsRequested(loops: Option<int>): (n: int)
    ensures loops.None? || loops == Some(0) ==> n == DefaultLoops
    ensures loops.Some? && loops.value != 0 ==> n == loops.value
    ensures n != 0
  {
    match loops
    case Some(k) => if k != 0 then k else DefaultLoops
    case None => DefaultLoops
  }

  /** The document's state between two events. */
  datatype Player = Player(
    hasAudio: bool,
    count: int,            // soundLoopCount
    max: int,              // maxSoundLoops
    timeout: Option<nat>,  // soundLoopTimeout
    pending: set<nat>,     // timeouts scheduled and not yet fired or cleared
    nextTimer: nat,        // the id the next setTimeout returns
    listeners: nat,        // `ended` listeners attached to the audio element
    playing: bool,         // the audio element is playing
    plays: nat)            // how many times the sound was started

  /** The document as loaded: three rings by default, nothing scheduled. */
  function Initial(hasAudio: bool): (p: Player)
    ensures p.count == 0 && p.max == DefaultLoops && p.pending == {} && p.listeners == 0 && !p.playing && p.plays == 0
  {
    Player(hasAudio, 0, DefaultLoops, None, {}, 1, 0, false, 0)
  }

  /** `playNextSound`: ring once more unless the count is reached or there is no audio element. */
  function PlayNext(p: Player): (q: Player)
    ensures p.count >= p.max ==> q == p
    ensures !p.hasAudio ==> q == p
    ensures q.count == p.count && q.max == p.max && q.pending == p.pending && q.timeout == p.timeout
    ensures p.hasAudio && p.count < p.max ==> q.playing && q.plays == p.plays + 1 && q.listeners == p.listeners + 1
  {
    if p.count >= p.max then p
    else if !p.hasAudio then p
    else p.(listeners := p.listeners + 1, playing := true, plays := p.plays + 1)
  }

  /** `playCompletionSoundLoop(n)`: set the target, reset the count, then try to ring. */
  function StartLoop(p: Player, n: int): (q: Player)
    ensures q.max == n && q.count == 0
    ensures n > 0 && p.hasAudio ==> q.playing && q.plays == p.plays + 1 && q.listeners == p.listeners + 1
    ensures n <= 0 || !p.hasAudio ==> q.plays == p.plays && q.listeners == p.listeners
  {
    PlayNext(p.(max := n, count := 0))
  }

  /** The timer ids from `first` up to, not including, `last`. */
  function TimerIds(first: nat, last: nat): (ids: set<nat>)
    ensures forall t :: t in ids <==> first <= t < last
    decreases last - first
  {
    if first >= last then {} else {first} + TimerIds(first + 1, last)
  }

  /**
   * The audio element's `ended` event: every attached listener detaches
   * itself, adds one to the count and schedules its own `playNextSound`;
   * `soundLoopTimeout` keeps the last of those timeouts.
   */
  function Ended(p: Player): (q: Player)
    requires p.playing
    ensures !q.playing && q.listeners == 0
    ensures q.count == p.count + p.listeners
    ensures q.pending == p.pending + TimerIds(p.nextTimer, p.nextTimer + p.listeners)
    ensures q.nextTimer == p.nextTimer + p.listeners && q.max == p.max && q.plays == p.plays && q.hasAudio == p.hasAudio
    ensures p.listeners > 0 ==> q.timeout == Some(p.nextTimer + p.listeners - 1)
    ensures p.listeners == 0 ==> q.timeout == p.timeout
  {
    p.(playing := false,
       listeners := 0,
       count := p.count + p.listeners,
       pending := p.pending + TimerIds(p.nextTimer, p.nextTimer + p.listeners),
       nextTimer := p.nextTimer + p.listeners,
       timeout := if p.listeners > 0 then Some(p.nextTimer + p.listeners - 1) else p.timeout)
  }

  /** A scheduled timeout fires: it is no longer pending, and `playNextSound` runs. */
  function Fire(p: Player, t: nat): (q: Player)
    requires t in p.pending
    ensures t !in q.pending && q.count == p.count
    ensures p.hasAudio && p.count < p.max ==> q.playing && q.plays == p.plays + 1 && q.listeners == p.listeners + 1
    ensures !(p.hasAudio && p.count < p.max) ==> q == p.(pending := p.pending - {t})
  {
    PlayNext(p.(pending := p.pending - {t}))
  }

  /** `stopCompletionSound`: clear the remembered timeout, pause the sound, and mark the loop complete. */
  function Stop(p: Player): (q: Player)
    ensures q.count == q.max == p.max && q.timeout.None?
    ensures p.hasAudio ==> !q.playing
    ensures q.listeners == p.listeners
    ensures q.pending == if p.timeout.Some? then p.pending - {p.timeout.value} else p.pending
  {
    var pending := match p.timeout
      case Some(t) => p.pending - {t}
      case None => p.pending;
    p.(pending := pending, timeout := None, playing := if p.hasAudio then false else p.playing, count := p.max)
  }

  /** The message listener: the two known actions change the state; any other leaves it alone. */
  function Receive(p: Player, action: string, loops: Option<int>): (q: Player)
    ensures action == "playCompletionSound" ==> q.max == LoopsRequested(loops) && q.count == 0
    ensures action == "playCompletionSound" && q.max > 0 && p.hasAudio ==> q.playing && q.plays == p.plays + 1
    ensures action == "stopCompletionSound" ==> q.count == q.max == p.max && q.timeout.None?
    ensures action != "playCompletionSound" && action != "stopCompletionSound" ==> q == p
  {
    if action == "playCompletionSound" then StartLoop(p, LoopsRequested(loops))
    else if action == "stopCompletionSound" then Stop(p)
    else p
  }

  /** Once stopped, no later attempt to ring does anything. */
  lemma StoppedStaysSilent(p: Player, t: nat)
    ensures PlayNext(Stop(p)) == Stop(p)
    ensures t in Stop(p).pending ==> Fire(Stop(p), t) == Stop(p).(pending := Stop(p).pending - {t})
  {
  }

  /**
   * A single ringing sequence: the sound plays with exactly one listener
   * attached, or is silent with none, nothing is scheduled between rounds,
   * and the count stays within the target.
   */
  predicate Solo(p: Player)
  {
    && p.hasAudio
    && 0 <= p.count <= p.max
    && p.pending == {}
    && (p.playing ==> p.listeners == 1 && p.count < p.max)
    && (!p.playing ==> p.listeners == 0)
  }

  /** One round of a sequence: the ring ends, then its timeout fires. */
  function Round(p: Player): Player
    requires Solo(p) && p.playing
  {
    var q := Ended(p);
    assert p.nextTimer in q.pending;
    Fire(q, p.nextTimer)
  }

  /** In a single sequence each `ended` adds exactly one to the count, and the sequence stays single. */
  lemma RoundStep(p: Player)
    requires Solo(p) && p.playing
    ensures Ended(p).count == p.count + 1
    ensures Solo(Round(p)) && Round(p).count == p.count + 1
    ensures Round(p).plays == if p.count + 1 < p.max then p.plays + 1 else p.plays
    ensures Round(p).playing <==> p.count + 1 < p.max
  {
    assert TimerIds(p.nextTimer, p.nextTimer + 1) == {p.nextTimer};
  }

  /** Let a single sequence ring until it stops by itself. */
  function RunOut(p: Player): (q: Player)
    requires Solo(p)
    decreases p.max - p.count
  {
    if !p.playing then p
    else
      RoundStep(p);
      RunOut(Round(p))
  }

  /** A sequence rings the rest of its target and ends silent at the target. */
  lemma {:induction false} RunOutRings(p: Player)
    requires Solo(p)
    ensures var q := RunOut(p);
      && Solo(q) && !q.playing
      && q.plays == p.plays + (if p.playing then p.max - p.count - 1 else 0)
      && (p.playing ==> q.count == q.max == p.max)
    decreases p.max - p.count
  {
    if p.playing {
      RoundStep(p);
      RunOutRings(Round(p));
    }
  }

  /** Started on a quiet document with an audio element, a loop of `n` rings starts the sound exactly `n` times. */
  lemma LoopRingsExactly(p: Player, n: int)
    requires p.hasAudio && !p.playing && p.listeners == 0 && p.pending == {}
    requires n >= 0
    ensures Solo(StartLoop(p, n))
    ensures RunOut(StartLoop(p, n)).plays == p.plays + n
    ensures RunOut(StartLoop(p, n)).count == n
  {
    RunOutRings(StartLoop(p, n));
  }

  /** Stopping between a ring and its scheduled retry cancels the retry. */
  lemma StopCancelsRetry(p: Player)
    requires Solo(p) && p.playing
    ensures Stop(Ended(p)).pending == {}
    ensures !Stop(Ended(p)).playing && Stop(Ended(p)).count == p.max
  {
    assert TimerIds(p.nextTimer, p.nextTimer + 1) == {p.nextTimer};
  }

  /**
   * Stopping while the sound plays leaves its listener attached, so the next
   * loop starts with two: its first `ended` adds two to the count.
   */
  lemma StaleListenerCountsTwice(p: Player, n: int)
    requires Solo(p) && p.playing && n > 0
    ensures StartLoop(Stop(p), n).listeners == 2
    ensures Ended(StartLoop(Stop(p), n)).count == 2
  {
  }

  /** The module variables of the offscreen document. */
  class SoundLoop {
    const hasAudio: bool
    var soundLoopCount: int
    var maxSoundLoops: int
    var soundLoopTimeout: Option<nat>
    var pending: set<nat>
    var nextTimer: nat
    var listeners: nat
    var playing: bool
    var plays: nat

    function State(): Player
      reads this
    {
      Player(hasAudio, soundLoopCount, maxSoundLoops, soundLoopTimeout, pending, nextTimer, listeners, playing, plays)
    }

    constructor (hasAudio: bool)
      ensures State() == Initial(hasAudio)
    {
      this.hasAudio := hasAudio;
      soundLoopCount := 0;
      maxSoundLoops := DefaultLoops;
      soundLoopTimeout := None;
      pending := {};
      nextTimer := 1;
      listeners := 0;
      playing := false;
      plays := 0;
    }

    method PlayNextSound()
      modifies this
      ensures State() == PlayNext(old(State()))
    {
      if soundLoopCount >= maxSoundLoops {
        return;
      }
      if hasAudio {
        listeners := listeners + 1;
        playing := true;
        plays := plays + 1;
      }
    }

    method PlayCompletionSoundLoop(totalLoops: int)
      modifies this
      ensures State() == StartLoop(old(State()), totalLoops)
    {
      maxSoundLoops := totalLoops;
      soundLoopCount := 0;
      PlayNextSound();
    }

    /** The `ended` event: the attached listeners run one after another. */
    method OnEnded()
      requires playing
      modifies this
      ensures State() == Ended(old(State()))
    {
      playing := false;
      var fired := 0;
      while listeners > 0
        invariant fired + listeners == old(listeners)
        invariant soundLoopCount == old(soundLoopCount) + fired
        invariant nextTimer == old(nextTimer) + fired
        invariant pending == old(pending) + TimerIds(old(nextTimer), nextTimer)
        invariant soundLoopTimeout == if fired > 0 then Some(nextTimer - 1) else old(soundLoopTimeout)
        invariant maxSoundLoops == old(maxSoundLoops) && plays == old(plays) && !playing
      {
        listeners := listeners - 1;
        soundLoopCount := soundLoopCount + 1;
        soundLoopTimeout := Some(nextTimer);
        pending := pending + {nextTimer};
        nextTimer := nextTimer + 1;
        fired := fired + 1;
      }
    }

    /** A scheduled retry fires. */
    method FireTimeout(t: nat)
      requires t in pending
      modifies this
      ensures State() == Fire(old(State()), t)
    {
      pending := pending - {t};
      PlayNextSound();
    }

    method StopCompletionSound()
      modifies this
      ensures State() == Stop(old(State()))
    {
      if soundLoopTimeout.Some? {
        pending := pending - {soundLoopTimeout.value};
        soundLoopTimeout := None;
      }
      if hasAudio {
        playing := false;
      }
      soundLoopCount := maxSoundLoops;
    }

    /** The message listener; it replies `{success: true}` to the two actions it knows. */
    method OnMessage(action: string, loops: Option<int>) returns (replied: bool)
      modifies this
      ensures State() == Receive(old(State()), action, loops)
      ensures replied <==> action == "playCompletionSound" || action == "stopCompletionSound"
    {
      if action == "playCompletionSound" {
        var n := LoopsRequested(loops);
        PlayCompletionSoundLoop(n);
        replied := true;
      } else if action == "stopCompletionSound" {
        StopCompletionSound();
        replied := true;
      } else {
        replied := false;
      }
    }
  }
}
