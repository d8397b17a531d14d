/**
 * The `AudioManager` object (AudioManager.swift): the fast tick that reads a
 * raw power sample, tracks the peak and drives the alert rule; the slow tick
 * that appends a reading and saves the session; and the start, stop and
 * reset paths. Each tick is one sequential method call; the raw sample and
 * the clock are parameters.
 */
module Monitor {

  import opened Wrappers
  import Statistics
  import opened Levels
  import Alerts
  import Store

  class AudioManager {
    /** Raw meter power; `-160` while stopped. */
    var decibelLevel: real
    var isMonitoring: bool
    var permissionGranted: bool
    var readings: seq<NoiseReading>
    var peakLevel: real

    var alertEnabled: bool
    var alertThreshold: real
    var isAlertTriggered: bool
    var alertCount: nat

    /** `audioRecorder != nil`. */
    var hasRecorder: bool
    var sessionStartTime: Option<Instant>
    var currentSessionId: Option<Uuid>
    var lastAlertTime: Option<Instant>

    /** `DataManager.shared`, passed in. */
    const dataManager: Store.DataManager

    /** The normalized levels the fast tick has seen since the last start or reset. */
    ghost var seen: seq<real>
    /** The instants of the alerts fired (the haptic events) since the last start or reset. */
    ghost var alertTimes: seq<Instant>

    ghost predicate Valid()
      reads this
    {
      hasRecorder == isMonitoring && PeakValid() && AlertsValid()
    }

    /** `peakLevel` is the running peak of the levels seen, all on the display scale. */
    ghost predicate PeakValid()
      reads this`seen, this`peakLevel
    {
      (forall x :: x in seen ==> 0.0 <= x <= Scale) &&
      peakLevel == RunningPeak(seen)
    }

    /**
     * `alertCount` counts the fired alerts, `lastAlertTime` is the last of
     * them, and they are at least the cooldown apart.
     */
    ghost predicate AlertsValid()
      reads this`alertCount, this`alertTimes, this`lastAlertTime
    {
      alertCount == |alertTimes| &&
      lastAlertTime == (if alertTimes == [] then None else Some(alertTimes[|alertTimes| - 1])) &&
      Alerts.SpacedAfter(None, alertTimes)
    }

    /** The alert fields as one value. */
    function Alert(): Alerts.AlertState
      reads this
    {
      Alerts.AlertState(isAlertTriggered, lastAlertTime, alertCount)
    }

    /**
     * `init()`: the published defaults. The outcome of `checkPermission` is
     * the parameter `granted`.
     */
    constructor (store: Store.DataManager, granted: bool)
      ensures Valid()
      ensures dataManager == store && permissionGranted == granted
      ensures decibelLevel == Silence && !isMonitoring && readings == [] && peakLevel == 0.0
      ensures alertEnabled && alertThreshold == 80.0 && !isAlertTriggered && alertCount == 0
      ensures !hasRecorder && sessionStartTime == None && currentSessionId == None && lastAlertTime == None
    {
      dataManager := store;
      permissionGranted := granted;
      decibelLevel := Silence;
      isMonitoring := false;
      readings := [];
      peakLevel := 0.0;
      alertEnabled := true;
      alertThreshold := 80.0;
      isAlertTriggered := false;
      alertCount := 0;
      hasRecorder := false;
      sessionStartTime := None;
      currentSessionId := None;
      lastAlertTime := None;
      seen := [];
      alertTimes := [];
    }

    /** The settings screen's toggle bound to `alertEnabled`. */
    method SetAlertEnabled(enabled: bool)
      requires Valid()
      modifies this`alertEnabled
      ensures Valid() && alertEnabled == enabled
    {
      alertEnabled := enabled;
    }

    /** The settings screen's slider bound to `alertThreshold`. */
    method SetAlertThreshold(threshold: real)
      requires Valid()
      modifies this`alertThreshold
      ensures Valid() && alertThreshold == threshold
    {
      alertThreshold := threshold;
    }

    /**
     * `startMonitoring`. Without permission nothing starts (the permission
     * request is left out). `setupSucceeds` is whether the audio session
     * and recorder could be set up; if not, the `catch` leaves everything as
     * it was. There is no guard against a second start: it opens another
     * session and leaves the first one open.
     */
    method StartMonitoring(setupSucceeds: bool, now: Instant, freshId: Uuid)
      requires Valid()
      requires !dataManager.Contains(freshId)
      modifies this`hasRecorder, this`isMonitoring, this`sessionStartTime, this`readings,
               this`peakLevel, this`alertCount, this`lastAlertTime, this`currentSessionId,
               this`seen, this`alertTimes, dataManager
      ensures Valid()
      ensures !(permissionGranted && setupSucceeds) ==> unchanged(this) && unchanged(dataManager)
      ensures permissionGranted && setupSucceeds ==> Started(now, freshId)
      ensures permissionGranted && setupSucceeds ==>
        dataManager.sessions == [Store.NoiseSession(freshId, now, None, [], 0, alertThreshold)] + old(dataManager.sessions) &&
        dataManager.persisted == Some(dataManager.sessions)
    {
      if !permissionGranted {
        return;
      }
      if !setupSucceeds {
        return;
      }
      BeginSession(now, freshId);
    }

    /** The state right after a successful start at `now` with session `id`. */
    ghost predicate Started(now: Instant, id: Uuid)
      reads this
    {
      isMonitoring && hasRecorder && sessionStartTime == Some(now) &&
      readings == [] && peakLevel == 0.0 && alertCount == 0 && lastAlertTime == None &&
      seen == [] && alertTimes == [] && currentSessionId == Some(id)
    }

    /** The body of the `do` block once the recorder is running. */
    method BeginSession(now: Instant, freshId: Uuid)
      requires Valid()
      requires !dataManager.Contains(freshId)
      modifies this`hasRecorder, this`isMonitoring, this`sessionStartTime, this`readings,
               this`peakLevel, this`alertCount, this`lastAlertTime, this`currentSessionId,
               this`seen, this`alertTimes, dataManager
      ensures Valid() && Started(now, freshId)
      ensures dataManager.sessions == [Store.NoiseSession(freshId, now, None, [], 0, alertThreshold)] + old(dataManager.sessions)
      ensures dataManager.persisted == Some(dataManager.sessions)
    {
      hasRecorder := true;
      isMonitoring := true;
      // The same five assignments as `resetSession`.
      ResetSession(now);
      var session := dataManager.CreateSession(alertThreshold, now, freshId);
      currentSessionId := Some(session.id);
    }

    /**
     * `stopMonitoring`: stop the recorder, show silence, clear the alert
     * flag, and end the current session with the readings and the count.
     */
    method StopMonitoring(now: Instant)
      requires Valid()
      modifies this`hasRecorder, this`isMonitoring, this`decibelLevel, this`isAlertTriggered,
               this`currentSessionId, dataManager
      ensures Valid()
      ensures !isMonitoring && !hasRecorder && decibelLevel == Silence && !isAlertTriggered
      ensures currentSessionId == None
      ensures old(currentSessionId).Some? ==>
        dataManager.sessions == Store.Ended(old(dataManager.sessions), old(currentSessionId).value, readings, alertCount, now)
      ensures old(currentSessionId).Some? && old(dataManager.Contains(currentSessionId.value)) ==>
        dataManager.persisted == Some(dataManager.sessions)
      ensures old(currentSessionId).Some? && !old(dataManager.Contains(currentSessionId.value)) ==>
        dataManager.persisted == old(dataManager.persisted)
      ensures old(currentSessionId).None? ==> unchanged(dataManager)
    {
      hasRecorder := false;
      isMonitoring := false;
      decibelLevel := Silence;
      isAlertTriggered := false;
      EndCurrentSession(now);
    }

    /** The `if let sessionId = currentSessionId` block of `stopMonitoring`. */
    method EndCurrentSession(now: Instant)
      modifies this`currentSessionId, dataManager
      ensures currentSessionId == None
      ensures old(currentSessionId).Some? ==>
        dataManager.sessions == Store.Ended(old(dataManager.sessions), old(currentSessionId).value, readings, alertCount, now)
      ensures old(currentSessionId).Some? && old(dataManager.Contains(currentSessionId.value)) ==>
        dataManager.persisted == Some(dataManager.sessions)
      ensures old(currentSessionId).Some? && !old(dataManager.Contains(currentSessionId.value)) ==>
        dataManager.persisted == old(dataManager.persisted)
      ensures old(currentSessionId).None? ==> unchanged(dataManager)
    {
      if currentSessionId.Some? {
        dataManager.EndSession(currentSessionId.value, readings, alertCount, now);
        currentSessionId := None;
      }
    }

    /** `resetSession`: a fresh start for readings, peak, count and cooldown. */
    method ResetSession(now: Instant)
      requires Valid()
      modifies this`readings, this`peakLevel, this`alertCount, this`sessionStartTime,
               this`lastAlertTime, this`seen, this`alertTimes
      ensures Valid()
      ensures readings == [] && peakLevel == 0.0 && alertCount == 0
      ensures sessionStartTime == Some(now) && lastAlertTime == None
      ensures seen == [] && alertTimes == []
    {
      readings := [];
      peakLevel := 0.0;
      alertCount := 0;
      sessionStartTime := Some(now);
      lastAlertTime := None;
      seen := [];
      alertTimes := [];
    }

    /**
     * `updateMeters`, the 50 ms tick: with no recorder it does nothing;
     * otherwise the sample becomes the level, the peak grows to the new
     * normalized level if that is higher, and the alert rule runs.
     */
    method UpdateMeters(averagePower: real, now: Instant)
      requires Valid()
      modifies this`decibelLevel, this`seen, this`peakLevel,
               this`isAlertTriggered, this`lastAlertTime, this`alertCount, this`alertTimes
      ensures Valid()
      ensures !hasRecorder ==> unchanged(this)
      ensures hasRecorder ==>
        var level := Normalized(averagePower);
        decibelLevel == averagePower &&
        seen == old(seen) + [level] &&
        peakLevel == (if level > old(peakLevel) then level else old(peakLevel)) &&
        peakLevel == Statistics.Maximum(seen) &&
        Alert() == Alerts.Step(old(Alert()), level, alertThreshold, alertEnabled, now) &&
        alertTimes == old(alertTimes) + (if Alerts.Fires(old(Alert()), level, alertThreshold, alertEnabled, now) then [now] else [])
    {
      if !hasRecorder {
        return;
      }
      decibelLevel := averagePower;
      var normalized := Normalized(decibelLevel);
      TrackPeak(normalized);
      CheckAlert(normalized, now);
    }

    /** The peak part of `updateMeters`: `if normalized > peakLevel { peakLevel = normalized }`. */
    method TrackPeak(normalized: real)
      requires PeakValid() && 0.0 <= normalized <= Scale
      modifies this`seen, this`peakLevel
      ensures PeakValid()
      ensures seen == old(seen) + [normalized]
      ensures peakLevel == (if normalized > old(peakLevel) then normalized else old(peakLevel))
      ensures peakLevel == Statistics.Maximum(seen)
    {
      seen := seen + [normalized];
      if normalized > peakLevel {
        peakLevel := normalized;
      }
      PeakIsMaximum(seen);
    }

    /**
     * `checkAlert(level:)`: the flag follows the level; on a rising edge
     * with alerts enabled, an alert fires unless the last one was less than
     * two seconds ago, and only a fired alert moves `lastAlertTime`.
     */
    method CheckAlert(level: real, now: Instant)
      requires AlertsValid()
      modifies this`isAlertTriggered, this`lastAlertTime, this`alertCount, this`alertTimes
      ensures AlertsValid()
      ensures isAlertTriggered == (level >= alertThreshold)
      ensures Alert() == Alerts.Step(old(Alert()), level, alertThreshold, alertEnabled, now)
      ensures alertTimes == old(alertTimes) + (if Alerts.Fires(old(Alert()), level, alertThreshold, alertEnabled, now) then [now] else [])
    {
      var wasTriggered := isAlertTriggered;
      isAlertTriggered := level >= alertThreshold;
      if alertEnabled && isAlertTriggered && !wasTriggered {
        if lastAlertTime.Some? {
          var lastAlert := lastAlertTime.value;
          if now - lastAlert >= Alerts.Cooldown {
            TriggerAlert(now);
            lastAlertTime := Some(now);
          }
        } else {
          TriggerAlert(now);
          lastAlertTime := Some(now);
        }
      }
    }

    /** `triggerAlert`: count the alert; the haptics become the ghost event at `now`. */
    method TriggerAlert(ghost now: Instant)
      modifies this`alertCount, this`alertTimes
      ensures alertCount == old(alertCount) + 1
      ensures alertTimes == old(alertTimes) + [now]
    {
      alertCount := alertCount + 1;
      alertTimes := alertTimes + [now];
    }

    /**
     * `recordAndSaveReading`, the 500 ms tick: append a reading of the
     * current normalized level (new id `freshId`, standing for `UUID()`) and,
     * while a session is open, save the readings and the count into it.
     */
    method RecordAndSaveReading(now: Instant, freshId: Uuid)
      requires Valid()
      modifies this`readings, dataManager
      ensures Valid()
      ensures readings == old(readings) + [NoiseReading(freshId, now, Normalized(decibelLevel))]
      ensures currentSessionId.Some? ==>
        dataManager.sessions == Store.Updated(old(dataManager.sessions), currentSessionId.value, readings, alertCount)
      ensures currentSessionId.Some? && old(dataManager.Contains(currentSessionId.value)) ==>
        dataManager.persisted == Some(dataManager.sessions)
      ensures currentSessionId.Some? && !old(dataManager.Contains(currentSessionId.value)) ==>
        dataManager.persisted == old(dataManager.persisted)
      ensures currentSessionId.None? ==> unchanged(dataManager)
    {
      var reading := NoiseReading(freshId, now, Normalized(decibelLevel));
      readings := readings + [reading];
      if currentSessionId.Some? {
        dataManager.UpdateSession(currentSessionId.value, readings, alertCount);
      }
    }

    // -------------------------------------------------------------------------
    // Computed properties
    // -------------------------------------------------------------------------

    function NormalizedDecibels(): (level: real)
      reads this
      ensures 0.0 <= level <= Scale
    {
      Normalized(decibelLevel)
    }

    function NoiseDescription(): string
      reads this
    {
      Label(Describe(NormalizedDecibels()))
    }

    /** `displayableReadings`: the newest `min(count, 120)` readings. */
    function DisplayableReadings(): (w: seq<NoiseReading>)
      reads this
      ensures |w| == if |readings| <= DisplayCount then |readings| else DisplayCount
      ensures readings == readings[..|readings| - |w|] + w
    {
      Window(readings)
    }

    function AverageDecibels(): real
      reads this
    {
      Statistics.Mean(Decibels(readings))
    }

    function MinDecibels(): real
      reads this
    {
      Statistics.Minimum(Decibels(readings))
    }

    function MaxDecibels(): real
      reads this
    {
      Statistics.Maximum(Decibels(readings))
    }

    /** `sessionDuration`: 0 before the first start, otherwise time since the start. */
    function SessionDuration(now: Instant): (d: real)
      reads this
      ensures sessionStartTime.None? ==> d == 0.0
      ensures sessionStartTime.Some? ==> d == now - sessionStartTime.value
    {
      match sessionStartTime
      case None => 0.0
      case Some(start) => now - start
    }

    function FormattedDuration(now: Instant): Statistics.DurationText
      reads this
    {
      Statistics.Format(Statistics.Truncate(SessionDuration(now)))
    }
  }

  /**
   * The live statistics: all 0 with no readings, otherwise
   * min <= average <= max.
   */
  lemma LiveStatistics(readings: seq<NoiseReading>)
    ensures readings == [] ==>
      Statistics.Mean(Decibels(readings)) == 0.0 && Statistics.Minimum(Decibels(readings)) == 0.0 &&
      Statistics.Maximum(Decibels(readings)) == 0.0
    ensures readings != [] ==>
      Statistics.Minimum(Decibels(readings)) <= Statistics.Mean(Decibels(readings)) <= Statistics.Maximum(Decibels(readings))
  {
    if readings != [] {
      Statistics.MeanBetweenExtremes(Decibels(readings));
    }
  }

  /**
   * After the slow tick saves into a present session, that stored session
   * shows the same average, minimum and maximum as the live readings.
   */
  lemma SavedSessionMatchesLive(sessions: seq<Store.NoiseSession>, id: Uuid, readings: seq<NoiseReading>, alertCount: int)
    requires id in Store.Ids(sessions)
    ensures var saved := Store.Updated(sessions, id, readings, alertCount)[Store.FirstIndex(sessions, id).value];
            Store.AverageDecibels(saved) == Statistics.Mean(Decibels(readings)) &&
            Store.MinDecibels(saved) == Statistics.Minimum(Decibels(readings)) &&
            Store.MaxDecibels(saved) == Statistics.Maximum(Decibels(readings)) &&
            saved.alertCount == alertCount && |saved.readings| == |readings|
  {
    Store.SavedDecibelsOfSaveAll(readings);
  }

  /**
   * When the stored session started at the meter's `sessionStartTime`,
   * stopping at `now` stores a closed session whose duration, at any later
   * clock reading `t`, is the meter's live duration at `now`.
   */
  lemma StoppedSessionKeepsLiveDuration(m: AudioManager, sessions: seq<Store.NoiseSession>, id: Uuid, now: Instant, t: Instant)
    requires id in Store.Ids(sessions)
    requires m.sessionStartTime == Some(sessions[Store.FirstIndex(sessions, id).value].startDate)
    ensures var ended := Store.Ended(sessions, id, m.readings, m.alertCount, now);
            Store.Duration(ended[Store.FirstIndex(sessions, id).value], t) == m.SessionDuration(now)
  {
    Store.EndFreezesDuration(sessions, id, m.readings, m.alertCount, now, t);
  }
}
