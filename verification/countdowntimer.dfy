/** A countdown of coarse ticks, and how late it can be. */
module Countdown {

  /** In milliseconds. */
  const INTERVAL: real := 200.0

  /** `tick`: when the system timer fires next, and whether it goes on after that. */
  datatype Tick = Never | Once(at: real) | Every(at: real)

  /** `started` and `fired` are times; `fired` are the calls of the callback. */
  datatype Timer = Timer(remaining: real, tick: Tick, fired: seq<real>)

  const CLEARED: Timer := Timer(0.0, Never, [])

  // ----- the effect of each method

  function Expired(t: Timer): bool { t.remaining <= 0.0 }

  /** Only a timer that is not running can be set, and only to a positive time. */
  function SetTimeout(t: Timer, now: real, millis: real): Timer {
    if t.tick != Never || millis <= 0.0 then t
    else t.(remaining := millis, tick := if millis > INTERVAL then Every(now + INTERVAL) else Once(now + millis))
  }

  function ClearTimeout(t: Timer): Timer {
    t.(tick := Never, remaining := 0.0)
  }

  /** `new CountdownTimer` */
  function Start(now: real, millis: real): Timer {
    SetTimeout(CLEARED, now, millis)
  }

  function Clone(t: Timer, now: real): Timer {
    Start(now, t.remaining)
  }

  /** The system timer fires, at the time it was set for. */
  function TimerTick(t: Timer): Timer
    requires t.tick != Never
  {
    var left := t.remaining - INTERVAL;
    if left <= 0.0 then t.(remaining := left, tick := Never, fired := t.fired + [t.tick.at])
    else if t.tick.Every? then t.(remaining := left, tick := Every(t.tick.at + INTERVAL))
    else t.(remaining := left, tick := Never)
  }

  /** After `n` ticks, or fewer if the timer comes to rest. */
  function Ticks(t: Timer, n: nat): Timer
    decreases n
  {
    if n == 0 || t.tick == Never then t else Ticks(TimerTick(t), n - 1)
  }

  // ----- lateness

  /** A timer set to `millis` at `start`; its remaining time is that of its last tick. */
  ghost predicate Running(t: Timer, start: real, millis: real) {
    && t.fired == [] && 0.0 < t.remaining <= millis
    && match t.tick
       case Never => false
       case Once(at) => at == start + millis && t.remaining == millis <= INTERVAL
       case Every(at) => at == start + millis - t.remaining + INTERVAL
  }

  ghost predicate FiredOnce(t: Timer, from: real, to: real) {
    t.tick == Never && Expired(t) && |t.fired| == 1 && from <= t.fired[0] < to
  }

  lemma TickKeepsTime(t: Timer, start: real, millis: real)
    requires Running(t, start, millis)
    ensures var r := TimerTick(t);
            if t.remaining > INTERVAL then Running(r, start, millis) && r.remaining == t.remaining - INTERVAL
            else FiredOnce(r, start + millis, start + millis + INTERVAL)
  {
  }

  /** A running timer fires once, never early and less than one interval late, and rests after that. */
  lemma {:induction false} FiresInTime(t: Timer, start: real, millis: real, n: nat)
    requires Running(t, start, millis) && t.remaining <= INTERVAL * n as real
    ensures FiredOnce(Ticks(t, n), start + millis, start + millis + INTERVAL)
    decreases n
  {
    TickKeepsTime(t, start, millis);
    if t.remaining > INTERVAL {
      FiresInTime(TimerTick(t), start, millis, n - 1);
    }
  }

  /** A countdown of `millis` that is not cleared calls back exactly once, between `millis` and `millis + 200` later. */
  lemma CountdownFires(now: real, millis: real, n: nat)
    requires 0.0 < millis <= INTERVAL * n as real
    ensures FiredOnce(Ticks(Start(now, millis), n), now + millis, now + millis + INTERVAL)
  {
    FiresInTime(Start(now, millis), now, millis, n);
  }

  /** A timer that is cleared is expired, never fires, and can be set again. */
  lemma ClearedNeverFires(t: Timer, n: nat, now: real, millis: real)
    ensures var c := ClearTimeout(t);
            && Expired(c) && Ticks(c, n) == c && c.fired == t.fired
            && (millis > 0.0 && t.fired == [] ==> Running(SetTimeout(c, now, millis), now, millis))
  {
  }

  /** A timer that runs, or is to be set to no time at all, is left as it is. */
  lemma SetRefused(t: Timer, now: real, millis: real)
    ensures SetTimeout(t, now, millis) == t <==> t.tick != Never || millis <= 0.0
  {
  }

  // ----- clones

  /** The time is between the last tick and the next one. */
  ghost predicate Meanwhile(t: Timer, now: real)
    requires t.tick != Never
  {
    t.tick.at - (if t.tick.Every? then INTERVAL else t.remaining) <= now <= t.tick.at
  }

  /** A clone is due no earlier than the timer it was taken from, and at most an interval later. */
  lemma CloneIsLater(t: Timer, start: real, millis: real, now: real)
    requires Running(t, start, millis) && Meanwhile(t, now)
    ensures Running(Clone(t, now), now, t.remaining)
    ensures start + millis <= now + t.remaining <= start + millis + INTERVAL
  {
  }

  /** A clone taken after `ticks` more ticks of the timer before it. */
  datatype Cloning = Cloning(ticks: nat, now: real)

  function Chain(t: Timer, cs: seq<Cloning>): Timer
    decreases |cs|
  {
    if cs == [] then t else Chain(Clone(Ticks(t, cs[0].ticks), cs[0].now), cs[1..])
  }

  /** Each clone is taken before the timer it is taken from expires. */
  ghost predicate BeforeExpiry(t: Timer, cs: seq<Cloning>)
    decreases |cs|
  {
    cs == [] ||
    (var u := Ticks(t, cs[0].ticks);
     u.tick != Never && u.remaining > 0.0 && Meanwhile(u, cs[0].now) && BeforeExpiry(Clone(u, cs[0].now), cs[1..]))
  }

  lemma {:induction false} StillRunning(t: Timer, start: real, millis: real, n: nat)
    requires Running(t, start, millis) && Ticks(t, n).tick != Never
    ensures Running(Ticks(t, n), start, millis)
    decreases n
  {
    TickKeepsTime(t, start, millis);
    if n > 0 {
      StillRunning(TimerTick(t), start, millis, n - 1);
    }
  }

  /** Through any chain of clones, the last one is due no earlier than the first timer, and at most an interval per
      clone later. */
  lemma {:induction false} ChainIsDue(t: Timer, start: real, millis: real, cs: seq<Cloning>) returns (start': real, millis': real)
    requires Running(t, start, millis) && BeforeExpiry(t, cs)
    ensures Running(Chain(t, cs), start', millis')
    ensures start + millis <= start' + millis' <= start + millis + INTERVAL * |cs| as real
    decreases |cs|
  {
    start', millis' := start, millis;
    if cs != [] {
      hide Ticks, Clone, Meanwhile;
      var u := Ticks(t, cs[0].ticks);
      StillRunning(t, start, millis, cs[0].ticks);
      CloneIsLater(u, start, millis, cs[0].now);
      start', millis' := ChainIsDue(Clone(u, cs[0].now), cs[0].now, u.remaining, cs[1..]);
    }
  }

  /** The last of `k` clones fires between `millis` and `millis + 200 * (k + 1)` after the first timer was set. */
  lemma ChainFires(now: real, millis: real, cs: seq<Cloning>, n: nat)
    requires millis > 0.0 && BeforeExpiry(Start(now, millis), cs)
    requires Chain(Start(now, millis), cs).remaining <= INTERVAL * n as real
    ensures FiredOnce(Ticks(Chain(Start(now, millis), cs), n), now + millis, now + millis + INTERVAL * (|cs| + 1) as real)
  {
    hide Ticks;
    var t := Start(now, millis);
    var start, total := ChainIsDue(t, now, millis, cs);
    FiresInTime(Chain(t, cs), start, total, n);
  }
}

/** The timer as an object. */
module CountdownObject {
  import opened Countdown

  class CountdownTimer {
    var remainingMillis: real
    var timeoutId: Tick
    ghost var fired: seq<real>

    ghost function State(): Timer
      reads this
    {
      Timer(remainingMillis, timeoutId, fired)
    }

    constructor (now: real, millis: real)
      ensures State() == Start(now, millis)
    {
      remainingMillis, timeoutId, fired := 0.0, Never, [];
      new;
      var ok := SetTimeout(now, millis);
    }

    method SetTimeout(now: real, millis: real) returns (ok: bool)
      modifies this
      ensures State() == Countdown.SetTimeout(old(State()), now, millis)
      ensures ok <==> old(timeoutId) == Never && millis > 0.0
    {
      if timeoutId != Never {
        return false;
      }
      if millis <= 0.0 {
        return false;
      }
      remainingMillis := millis;
      if remainingMillis > INTERVAL {
        timeoutId := Every(now + INTERVAL);
      } else {
        timeoutId := Once(now + remainingMillis);
      }
      ok := true;
    }

    method ClearTimeout()
      modifies this
      ensures State() == Countdown.ClearTimeout(old(State()))
    {
      if timeoutId != Never {
        timeoutId := Never;
      }
      remainingMillis := 0.0;
    }

    method Clone(now: real) returns (t: CountdownTimer)
      ensures fresh(t) && t.State() == Countdown.Clone(State(), now)
    {
      t := new CountdownTimer(now, remainingMillis);
    }

    /** The system timer fires. */
    method TimerTick()
      requires timeoutId != Never
      modifies this
      ensures State() == Countdown.TimerTick(old(State()))
    {
      remainingMillis := remainingMillis - INTERVAL;
      if remainingMillis <= 0.0 {
        fired := fired + [timeoutId.at];
        timeoutId := Never;
      } else {
        timeoutId := if timeoutId.Every? then Every(timeoutId.at + INTERVAL) else Never;
      }
    }
  }
}
