/**
 * The alert rule of `checkAlert`/`triggerAlert` (AudioManager.swift) as a
 * pure transition on the three fields it touches, and what follows for a
 * whole run of ticks: edge triggering, the 2-second cooldown, and a counter
 * that rises by one per fired alert.
 */
module Alerts {

  import opened Wrappers

  /** `alertCooldown: TimeInterval = 2.0`. */
  const Cooldown: real := 2.0

  /** `isAlertTriggered`, `lastAlertTime` and `alertCount`. */
  datatype AlertState = AlertState(triggered: bool, lastAlert: Option<real>, count: nat)

  /** The state `startMonitoring` and `resetSession` leave (the flag is not touched there). */
  function Cleared(triggered: bool): AlertState
  {
    AlertState(triggered, None, 0)
  }

  /**
   * When a tick fires an alert: alerts enabled, the level at or above the
   * threshold, the previous tick below it, and either no earlier alert or
   * at least `Cooldown` seconds since it.
   */
  predicate Fires(s: AlertState, level: real, threshold: real, enabled: bool, now: real)
  {
    enabled && level >= threshold && !s.triggered &&
    (s.lastAlert == None || now - s.lastAlert.value >= Cooldown)
  }

  /** One call of `checkAlert(level:)` at time `now`. */
  function Step(s: AlertState, level: real, threshold: real, enabled: bool, now: real): (t: AlertState)
    ensures t.triggered == (level >= threshold)
    ensures Fires(s, level, threshold, enabled, now) ==> t.count == s.count + 1 && t.lastAlert == Some(now)
    ensures !Fires(s, level, threshold, enabled, now) ==> t.count == s.count && t.lastAlert == s.lastAlert
  {
    var wasTriggered := s.triggered;
    var triggered := level >= threshold;
    if enabled && triggered && !wasTriggered then
      match s.lastAlert
      case Some(last) =>
        if now - last >= Cooldown then AlertState(triggered, Some(now), s.count + 1)
        else AlertState(triggered, s.lastAlert, s.count)
      case None => AlertState(triggered, Some(now), s.count + 1)
    else AlertState(triggered, s.lastAlert, s.count)
  }

  /** A new level sample and the instant it is checked. */
  datatype Tick = Tick(level: real, time: real)

  /** The state after checking every tick in order. */
  function Run(s: AlertState, ticks: seq<Tick>, threshold: real, enabled: bool): AlertState
    decreases |ticks|
  {
    if ticks == [] then s
    else Run(Step(s, ticks[0].level, threshold, enabled, ticks[0].time), ticks[1..], threshold, enabled)
  }

  /** The instants at which alerts fire during the run (the haptic events). */
  function FireTimes(s: AlertState, ticks: seq<Tick>, threshold: real, enabled: bool): seq<real>
    decreases |ticks|
  {
    if ticks == [] then []
    else
      var next := Step(s, ticks[0].level, threshold, enabled, ticks[0].time);
      (if Fires(s, ticks[0].level, threshold, enabled, ticks[0].time) then [ticks[0].time] else [])
      + FireTimes(next, ticks[1..], threshold, enabled)
  }

  /**
   * Fired instants are at least `Cooldown` apart, and the first is at least
   * `Cooldown` after `last` when there was an earlier alert.
   */
  ghost predicate SpacedAfter(last: Option<real>, times: seq<real>)
  {
    (last.Some? && times != [] ==> times[0] - last.value >= Cooldown) &&
    forall i :: 0 <= i < |times| - 1 ==> times[i + 1] - times[i] >= Cooldown
  }

  /** The counter rises by exactly one per fired alert and never falls. */
  lemma {:induction false} RunCount(s: AlertState, ticks: seq<Tick>, threshold: real, enabled: bool)
    ensures Run(s, ticks, threshold, enabled).count == s.count + |FireTimes(s, ticks, threshold, enabled)|
    ensures Run(s, ticks, threshold, enabled).count >= s.count
    decreases |ticks|
  {
    if ticks != [] {
      var next := Step(s, ticks[0].level, threshold, enabled, ticks[0].time);
      RunCount(next, ticks[1..], threshold, enabled);
    }
  }

  /**
   * `lastAlertTime` after a run is the last fired instant, or unchanged when
   * nothing fired; and the fired instants are spaced by the cooldown.
   */
  lemma {:induction false} RunSpacing(s: AlertState, ticks: seq<Tick>, threshold: real, enabled: bool)
    ensures var times := FireTimes(s, ticks, threshold, enabled);
            Run(s, ticks, threshold, enabled).lastAlert ==
              (if times == [] then s.lastAlert else Some(times[|times| - 1]))
    ensures SpacedAfter(s.lastAlert, FireTimes(s, ticks, threshold, enabled))
    decreases |ticks|
  {
    if ticks != [] {
      var t0 := ticks[0];
      var next := Step(s, t0.level, threshold, enabled, t0.time);
      RunSpacing(next, ticks[1..], threshold, enabled);
      var rest := FireTimes(next, ticks[1..], threshold, enabled);
      if Fires(s, t0.level, threshold, enabled, t0.time) {
        var times := [t0.time] + rest;
        assert FireTimes(s, ticks, threshold, enabled) == times;
        assert forall i :: 1 <= i < |times| - 1 ==> times[i] == rest[i - 1] && times[i + 1] == rest[i];
      }
    }
  }

  /** With alerts disabled nothing ever fires, however the level moves. */
  lemma {:induction false} DisabledNeverFires(s: AlertState, ticks: seq<Tick>, threshold: real)
    ensures FireTimes(s, ticks, threshold, false) == []
    ensures Run(s, ticks, threshold, false).count == s.count
    decreases |ticks|
  {
    if ticks != [] {
      DisabledNeverFires(Step(s, ticks[0].level, threshold, false, ticks[0].time), ticks[1..], threshold);
    }
  }

  /**
   * Edge triggering: once triggered, ticks that stay at or above the
   * threshold never fire, even a crossing the cooldown suppressed.
   */
  lemma {:induction false} SustainedNeverRefires(s: AlertState, ticks: seq<Tick>, threshold: real, enabled: bool)
    requires s.triggered
    requires forall i :: 0 <= i < |ticks| ==> ticks[i].level >= threshold
    ensures FireTimes(s, ticks, threshold, enabled) == []
    ensures Run(s, ticks, threshold, enabled) == AlertState(true, s.lastAlert, s.count)
    decreases |ticks|
  {
    if ticks != [] {
      var next := Step(s, ticks[0].level, threshold, enabled, ticks[0].time);
      assert next == s;
      SustainedNeverRefires(next, ticks[1..], threshold, enabled);
    }
  }

  /** After a non-empty run the flag says whether the last level reached the threshold. */
  lemma {:induction false} RunTracksLastLevel(s: AlertState, ticks: seq<Tick>, threshold: real, enabled: bool)
    requires ticks != []
    ensures Run(s, ticks, threshold, enabled).triggered == (ticks[|ticks| - 1].level >= threshold)
    decreases |ticks|
  {
    if |ticks| > 1 {
      var next := Step(s, ticks[0].level, threshold, enabled, ticks[0].time);
      RunTracksLastLevel(next, ticks[1..], threshold, enabled);
    }
  }

  /**
   * Threshold 80, levels 60, 85, 85, 85, 40, 85 three seconds apart (so the
   * cooldown never interferes): exactly two alerts, at the two rising edges.
   */
  lemma EdgeScenario()
    ensures var ticks := [Tick(60.0, 0.0), Tick(85.0, 3.0), Tick(85.0, 6.0), Tick(85.0, 9.0),
                          Tick(40.0, 12.0), Tick(85.0, 15.0)];
            FireTimes(Cleared(false), ticks, 80.0, true) == [3.0, 15.0] &&
            Run(Cleared(false), ticks, 80.0, true).count == 2
  {
  }

  /**
   * Crossings at 0 s, 1 s and 3 s: the one a second after the first alert
   * is suppressed by the cooldown, the one three seconds after fires.
   */
  lemma CooldownScenario()
    ensures var ticks := [Tick(85.0, 0.0), Tick(40.0, 0.5), Tick(85.0, 1.0), Tick(40.0, 2.0), Tick(85.0, 3.0)];
            FireTimes(Cleared(false), ticks, 80.0, true) == [0.0, 3.0] &&
            Run(Cleared(false), ticks, 80.0, true).count == 2
  {
  }
}
