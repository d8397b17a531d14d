# NoiseMeter noise monitoring engine, in Dafny

This project models the engine behind the NoiseMeter app, which lives in two
Swift files:

* `AudioManager`: the live meter.
  * A fast tick (every 50 ms) reads the raw microphone power and normalizes it
    from [-80, 0] dB onto a 0–120 display scale. It tracks the session peak and
    runs an edge-triggered alert rule with a 2-second cooldown.
  * A slow tick (every 500 ms) appends a reading and saves the running
    session.
  * Start and reset clear the readings, the peak, the alert count and the
    cooldown, and restart the session clock; start also opens a new stored
    session. Stop ends the stored session and shows silence, keeping the
    readings and statistics.
  * Computed properties give the description label, a 120-reading display
    window, the average, minimum and maximum, and an h/m/s breakdown of the
    session duration.
* `DataManager`: the session store. It keeps an in-memory list of sessions,
  most recent first. It creates, updates, ends and deletes sessions by id, and
  rewrites the whole list to disk after every change. Each stored
  `NoiseSession` derives its duration and level statistics.

Modules:

* `Wrappers`: `Option`.
* `Statistics`: sum, mean, minimum and maximum of a list of levels, the
  truncating `Int` conversion and division used for durations, and the
  h/m/s breakdown.
* `Levels`: the pure level policy of `AudioManager`. It holds the reading
  record, normalization, the six labels, the display window and the running
  peak.
* `Alerts`: the `checkAlert`/`triggerAlert` rule as one transition on
  (`isAlertTriggered`, `lastAlertTime`, `alertCount`), and facts about whole
  runs of ticks.
* `Store`: `NoiseSession`, `SavedReading` and their derived values, the list
  transformations, and the `DataManager` class.
* `Monitor`: the `AudioManager` class.
  * Its fields are the published properties and the private state.
  * Its ghost fields are `seen` (the normalized levels since the last start or reset)
    and `alertTimes` (the instants of the fired alerts).
  * Its invariant `Valid` says that the peak is the running peak of `seen`,
    that the counter is the number of fired alerts, that `lastAlertTime` is
    the last of them, and that those alerts are at least 2 s apart.
* `Scenario`: one monitoring run driven through both objects.

Levels are `real`. Time is an injected `real` number of seconds. UUIDs are
injected `nat` values. A new session id carries a precondition that no stored
session has it yet. A new reading id carries none: two readings may share an
id, and no property of the model depends on reading ids being distinct.

The model follows the code as written; four behaviours worth knowing:

* `startMonitoring` has no guard against a second start. A second start
  opens another session, leaves the first one open in the store and loses
  its id. It also replaces both timers without invalidating the old ones,
  which is outside the model (see the timers line under "Left out").
* `noiseDescription` sends a level below 0 to the `default` branch, so it
  reads "Extreme". The normalizer never produces such a level.
* `updateSession`/`endSession` with a missing id return before
  `saveSessions`, so the persisted snapshot is untouched as well.
* With threshold 70 and levels 20, 75, 82, 82, 30 the single alert fires at
  75, because 75 >= 70.

## Model

| member | source | states |
|---|---|---|
| Levels.Normalized | NoiseMeter/Sources/Managers/AudioManager.swift:231-239 | every raw power maps into [0, 120]; raw <= -80 gives 0, raw >= 0 gives 120 (clamped, never extrapolated); in between the map is the linear rescale of [-80, 0] onto [0, 120] |
| Levels.NormalizedMonotone | NoiseMeter/Sources/Managers/AudioManager.swift:231-239 | normalization is monotone non-decreasing |
| Levels.SilenceIsZero | NoiseMeter/Sources/Managers/AudioManager.swift:12 | the stopped meter's -160 reads as 0 on the display scale |
| Levels.LabelInjective | NoiseMeter/Sources/Managers/AudioManager.swift:245-256 | the six labels are pairwise distinct, so each label names one category |
| Levels.DescribeInBand | NoiseMeter/Sources/Managers/AudioManager.swift:244-257 | every level in [0, 120) lies in the half-open band of the label it gets; 120 is Extreme |
| Levels.BandDeterminesCategory | NoiseMeter/Sources/Managers/AudioManager.swift:244-257 | a level in a band gets that band's label: the bands partition [0, 120), so each level has exactly one label |
| Levels.DescribeMonotone | NoiseMeter/Sources/Managers/AudioManager.swift:244-257 | a louder level never gets a quieter label |
| Levels.DescribeBoundaries | NoiseMeter/Sources/Managers/AudioManager.swift:245-256 | each lower bound belongs to the upper band (30 is Moderate, not Quiet); 119.5 is Dangerous; exactly 120 is Extreme |
| Levels.NegativeIsExtreme | NoiseMeter/Sources/Managers/AudioManager.swift:255-256 | a negative level matches no range and falls to the default, Extreme |
| Levels.Window | NoiseMeter/Sources/Managers/AudioManager.swift:219-224 | the display window is the suffix of the readings of length min(count, 120) |
| Levels.WindowKeepsNewest | NoiseMeter/Sources/Managers/AudioManager.swift:219-224 | the k-th newest entry of the window is the k-th newest reading |
| Levels.RunningPeak | NoiseMeter/Sources/Managers/AudioManager.swift:159-162 | the peak after a run of levels is >= 0, is at least each level, and is 0 or one of the levels |
| Levels.PeakIsMaximum | NoiseMeter/Sources/Managers/AudioManager.swift:159-162 | the running peak from 0 equals max(0, maximum level seen); for levels on the display scale it equals their maximum |
| Alerts.Step | NoiseMeter/Sources/Managers/AudioManager.swift:169-189 | after a check the flag is `level >= threshold`, whether or not alerts are enabled. When the tick fires (enabled, at or above the threshold, not triggered before, and no earlier alert or one at least 2 s ago), the count rises by 1 and `lastAlertTime` becomes now. Otherwise count and `lastAlertTime` are unchanged |
| Alerts.RunCount | NoiseMeter/Sources/Managers/AudioManager.swift:174-189 | over any run of ticks the counter rises by exactly the number of fired alerts and never falls |
| Alerts.RunSpacing | NoiseMeter/Sources/Managers/AudioManager.swift:175-184 | after a run, `lastAlertTime` is the last fired instant (or unchanged if none fired); any two consecutive fired alerts, and the first after an earlier one, are at least 2 s apart |
| Alerts.DisabledNeverFires | NoiseMeter/Sources/Managers/AudioManager.swift:174 | with alerts disabled nothing fires and the count stays put |
| Alerts.SustainedNeverRefires | NoiseMeter/Sources/Managers/AudioManager.swift:170-174 | once triggered, ticks that stay at or above the threshold never fire, even when the crossing itself was suppressed by the cooldown |
| Alerts.RunTracksLastLevel | NoiseMeter/Sources/Managers/AudioManager.swift:170-171 | after a non-empty run the flag says whether the last level reached the threshold |
| Alerts.EdgeScenario | NoiseMeter/Sources/Managers/AudioManager.swift:169-186 | levels 60, 85, 85, 85, 40, 85 three seconds apart at threshold 80 fire exactly at the two rising edges |
| Alerts.CooldownScenario | NoiseMeter/Sources/Managers/AudioManager.swift:175-184 | crossings at 0 s, 1 s and 3 s fire at 0 s and 3 s only |
| Statistics.Mean | NoiseMeter/Sources/Managers/AudioManager.swift:262-266 | the average of no levels is 0 |
| Statistics.Minimum | NoiseMeter/Sources/Managers/AudioManager.swift:268-270 | for a non-empty list the minimum is one of the levels and below all of them; 0 for the empty list |
| Statistics.Maximum | NoiseMeter/Sources/Managers/AudioManager.swift:272-274 | for a non-empty list the maximum is one of the levels and above all of them; 0 for the empty list |
| Statistics.SumBounds | NoiseMeter/Sources/Managers/AudioManager.swift:264 | levels between lo and hi sum to between n·lo and n·hi |
| Statistics.MeanBetweenExtremes | NoiseMeter/Sources/Managers/AudioManager.swift:262-274 | for non-empty levels, min <= average <= max |
| Statistics.ConstantLevels | NoiseMeter/Sources/Managers/AudioManager.swift:262-274 | a constant run of levels has that level as average, minimum and maximum |
| Statistics.Truncate | NoiseMeter/Sources/Managers/AudioManager.swift:282 | `Int(x)` truncates toward zero: the result is within 1 of x, on the same side of 0 |
| Statistics.QuotRem | NoiseMeter/Sources/Managers/AudioManager.swift:283-285 | truncating `/` and `%` satisfy a = q·b + r with \|r\| < b and r having the sign of a |
| Statistics.Breakdown | NoiseMeter/Sources/Managers/AudioManager.swift:282-285 | hours·3600 + minutes·60 + seconds equals the duration; \|minutes\| < 60 and \|seconds\| < 60; for a non-negative duration all three are non-negative |
| Statistics.Format | NoiseMeter/Sources/Managers/AudioManager.swift:287-290 | the h:mm:ss form is chosen exactly when the duration is at least one hour, otherwise mm:ss |
| Statistics.FormatRoundTrip | NoiseMeter/Sources/Managers/AudioManager.swift:281-291 | the displayed fields read back to the duration for every duration above -3600; at or below -3600 (hours < 0, so mm:ss is shown) they do not |
| Monitor.AudioManager.NormalizedDecibels | NoiseMeter/Sources/Managers/AudioManager.swift:231-239 | the current level is on the display scale |
| Monitor.AudioManager.DisplayableReadings | NoiseMeter/Sources/Managers/AudioManager.swift:219-224 | the window is the newest min(count, 120) readings |
| Monitor.AudioManager.constructor | NoiseMeter/Sources/Managers/AudioManager.swift:12-35 | the published defaults (-160, not monitoring, no readings, peak 0, alerts on at 80, count 0) and the invariant |
| Monitor.AudioManager.SetAlertEnabled | NoiseMeter/Sources/Managers/AudioManager.swift:19 | sets the alert switch and nothing else; keeps the invariant |
| Monitor.AudioManager.SetAlertThreshold | NoiseMeter/Sources/Managers/AudioManager.swift:20 | sets the threshold and nothing else; keeps the invariant |
| Monitor.AudioManager.StartMonitoring | NoiseMeter/Sources/Managers/AudioManager.swift:72-121 | without permission, or when setup fails, nothing changes. Otherwise: monitoring on, start time now, readings empty, peak 0, count 0, no last alert, and a new open session at the front of the store with the current threshold, persisted, whose id becomes the current session |
| Monitor.AudioManager.BeginSession | NoiseMeter/Sources/Managers/AudioManager.swift:97-106 | the successful part of the start: the resets, the new session and its id |
| Monitor.AudioManager.StopMonitoring | NoiseMeter/Sources/Managers/AudioManager.swift:123-139 | monitoring off, level -160, flag cleared, no current session. An open session is ended in the store with the live readings and count, and the ended list is persisted when the store still has that id (otherwise the snapshot is untouched). Without an open session the store is untouched |
| Monitor.AudioManager.EndCurrentSession | NoiseMeter/Sources/Managers/AudioManager.swift:135-138 | ends the current session in the store, if any, persisting the ended list when the store has that id, and forgets the id |
| Monitor.AudioManager.ResetSession | NoiseMeter/Sources/Managers/AudioManager.swift:141-147 | readings empty, peak 0, count 0, start time now, no last alert; keeps the invariant |
| Monitor.AudioManager.UpdateMeters | NoiseMeter/Sources/Managers/AudioManager.swift:149-167 | with no recorder nothing changes. Otherwise the level becomes the sample, the peak grows to the new normalized level if that is higher and equals the maximum seen since the start, and the alert fields take one alert-rule step; the invariant (count = fired alerts, 2 s spacing) is kept |
| Monitor.AudioManager.TrackPeak | NoiseMeter/Sources/Managers/AudioManager.swift:159-162 | the peak is replaced only by a higher level and stays the maximum of the levels seen |
| Monitor.AudioManager.CheckAlert | NoiseMeter/Sources/Managers/AudioManager.swift:169-186 | the flag follows the level; the alert fields take exactly one alert-rule step; a fired alert is recorded at now; the invariant is kept |
| Monitor.AudioManager.TriggerAlert | NoiseMeter/Sources/Managers/AudioManager.swift:188-198 | the count rises by one and the alert event is recorded |
| Monitor.AudioManager.RecordAndSaveReading | NoiseMeter/Sources/Managers/AudioManager.swift:200-216 | the readings gain exactly one reading of the current normalized level at the end; an open session gets the whole reading list and the count, and the list is persisted when the store has that id (otherwise the snapshot is untouched); with no open session the store is untouched |
| Monitor.LiveStatistics | NoiseMeter/Sources/Managers/AudioManager.swift:262-274 | live average, min and max are 0 with no readings, otherwise min <= average <= max |
| Monitor.StoppedSessionKeepsLiveDuration | NoiseMeter/Sources/Managers/AudioManager.swift:135-136 | when the stored session started at the meter's start time, the session closed at stop lasts, at every later clock reading, exactly the meter's live duration at the stop (`sessionDuration`, lines 276-279) |
| Monitor.SavedSessionMatchesLive | NoiseMeter/Sources/Managers/AudioManager.swift:207-213 | after a save, the stored session shows the same average, min, max, count and number of readings as the live object |
| Store.SaveAllPreserves | NoiseMeter/Sources/Managers/DataManager.swift:59-63 | saving keeps each reading's id, timestamp and level, element by element and in order |
| Store.SavedDecibelsOfSaveAll | NoiseMeter/Sources/Managers/DataManager.swift:59-63 | the stored levels are exactly the live levels they were saved from |
| Store.EndFreezesDuration | NoiseMeter/Sources/Managers/DataManager.swift:11-14 | an updated open session's duration follows the clock; once ended at `now` its duration is `now - startDate` whatever the clock reads later (lines 113-120) |
| Store.FormattedDurationReadsBack | NoiseMeter/Sources/Managers/DataManager.swift:16-26 | for a non-negative duration the displayed fields read back to its whole seconds |
| Store.SessionStatistics | NoiseMeter/Sources/Managers/DataManager.swift:35-51 | with no readings average, min and max are 0. Otherwise min <= average <= max. The peak always equals the max, and some reading attains it |
| Store.FirstIndex | NoiseMeter/Sources/Managers/DataManager.swift:106 | `firstIndex(where:)`: none exactly when no session has the id, otherwise the first position that has it |
| Store.UpdateMissIsNoOp | NoiseMeter/Sources/Managers/DataManager.swift:106 | updating or ending a missing id leaves the list as it was |
| Store.UpdateHit | NoiseMeter/Sources/Managers/DataManager.swift:105-111 | updating a present id keeps length, ids and every other session; the first matching session gets the saved readings and the count and keeps its id, start, end and threshold |
| Store.EndHit | NoiseMeter/Sources/Managers/DataManager.swift:113-120 | ending a present id is the update plus `endDate = now`, and nothing else changes |
| Store.RemovedSpec | NoiseMeter/Sources/Managers/DataManager.swift:122-125 | after deleting an id no session has it; every other session is kept exactly as often as before and in its relative order |
| Store.TransformsKeepUniqueIds | NoiseMeter/Sources/Managers/DataManager.swift:105-125 | distinct ids stay distinct through update, end and delete |
| Store.DataManager.constructor | NoiseMeter/Sources/Managers/DataManager.swift:143-152 | the stored list when the file exists and decodes, otherwise empty |
| Store.DataManager.CreateSession | NoiseMeter/Sources/Managers/DataManager.swift:91-103 | returns a new open, empty session with count 0 and the given threshold and start time. It is inserted at index 0, the old sessions follow unchanged, ids stay distinct, and the list is persisted |
| Store.DataManager.UpdateSession | NoiseMeter/Sources/Managers/DataManager.swift:105-111 | the list becomes its update at the id. On a hit it is persisted; on a miss the list and the persisted snapshot are unchanged |
| Store.DataManager.EndSession | NoiseMeter/Sources/Managers/DataManager.swift:113-120 | as the update, plus the end date now; a miss changes nothing |
| Store.DataManager.DeleteSession | NoiseMeter/Sources/Managers/DataManager.swift:122-125 | the list loses all sessions with the id, no session with it is left, and the list is persisted |
| Store.DataManager.DeleteAllSessions | NoiseMeter/Sources/Managers/DataManager.swift:127-130 | the list is empty and the empty list is persisted |
| Scenario.RawFor | NoiseMeter/Sources/Managers/AudioManager.swift:231-239 | names a raw power that normalizes to any display level in [0, 120] |
| Scenario.RunLevels | NoiseMeter/Sources/Managers/AudioManager.swift:262-274 | levels 20, 75, 82, 82, 30 have minimum 20, maximum 82 and average 57.8 |
| Scenario.EndToEnd | NoiseMeter/Sources/Managers/AudioManager.swift:72-216 | start at threshold 70, five sample-and-save ticks with levels 20, 75, 82, 82, 30, then stop at 3 s. The store holds exactly this one session and has persisted it; it is closed at 3 s, lasts 3 s at any later time, and has 5 readings, 1 alert, threshold 70, max 82, min 20 and average 57.8 |

## Left out

- Recorder and audio-session setup, and the permission request (`checkPermission`, `requestPermission`): these are platform I/O. The permission outcome is a constructor parameter, whether setup succeeds is a parameter of `StartMonitoring`, and the raw power sample is a parameter of `UpdateMeters`.
- Timers and main-queue hops: these are concurrency plumbing. Each tick is one sequential method call, and the recorder's presence is the field `hasRecorder`. A second `startMonitoring` overwrites `timer` and `historyTimer` without invalidating the first pair, which in the source keep firing even after `stopMonitoring` (AudioManager.swift:109-116); the model has no timers, so it does not capture that.
- Haptic feedback: this is a foreign side effect. Each fired alert is recorded as a ghost event in `alertTimes`.
- JSON encoding and decoding and file reads and writes: these are foreign library calls. `persisted` is an abstract snapshot. Every write is assumed to succeed (in the source a failed write may leave the old file or a partial one), and a file that fails to decode is treated as no file (`persisted == None`).
- Float rounding: levels, averages and durations are reals.
- `Date()`, `UUID()` and `DateFormatter` (`formattedDate`): ambient values. Time and ids are parameters. `formattedDate` is not modelled.
- `String(format:)` zero padding in `formattedDuration`: string formatting. The model keeps the arithmetic and says which of the two layouts is shown (`DurationText`).
- Monitor.AudioManager.NoiseDescription, AverageDecibels, MinDecibels, MaxDecibels and FormattedDuration carry no contract of their own. Each is one call into `Levels`/`Statistics`, and what the source promises about them is stated by `Levels.DescribeInBand`, `Monitor.LiveStatistics` and `Statistics.FormatRoundTrip`.
- Store.AverageDecibels, MinDecibels, MaxDecibels, PeakDecibels and FormattedDuration are in the same position. Their properties are stated by `Store.SessionStatistics` and `Store.FormattedDurationReadsBack`.
- Definitional helpers whose `ensures` only spell out their own definition, listed with the lemmas that state what they mean:
  - `Levels.Decibels` and `Store.SavedDecibels` are related by `Store.SavedDecibelsOfSaveAll`.
  - `Store.Ids` is used by `Store.FirstIndex`, `Store.UpdateHit` and `Store.TransformsKeepUniqueIds`.
  - `Store.Duration` is covered by `Store.EndFreezesDuration`, and `Monitor.AudioManager.SessionDuration` by `Monitor.StoppedSessionKeepsLiveDuration`.
  - `Levels.Rank` is a proof aid with no counterpart in the source.
- Levels.Describe and Levels.Label (the `noiseDescription` switch, AudioManager.swift:244-257) carry no contract of their own. Their properties are stated by `Levels.DescribeInBand`, `Levels.BandDeterminesCategory`, `Levels.DescribeMonotone`, `Levels.DescribeBoundaries`, `Levels.NegativeIsExtreme` and `Levels.LabelInjective`.
- Store.FromReading and Store.SaveAll (`SavedReading.init(from:)` and the `map` over it, DataManager.swift:59-63 and 108) carry no contract of their own. They are stated by `Store.SaveAllPreserves`.
- Store.Updated, Store.Ended and Store.Removed (the list changes of DataManager.swift:105-125) carry no contract of their own. They are stated by `Store.UpdateHit`, `Store.EndHit`, `Store.UpdateMissIsNoOp`, `Store.RemovedSpec` and `Store.TransformsKeepUniqueIds`, and the `DataManager` methods are proved against them.
- Alerts.Fires, Alerts.Run and Alerts.FireTimes (the firing condition of AudioManager.swift:174-184, and a run of checks) carry no contract of their own. They are stated by `Alerts.Step`, `Alerts.RunCount`, `Alerts.RunSpacing`, `Alerts.DisabledNeverFires`, `Alerts.SustainedNeverRefires` and `Alerts.RunTracksLastLevel`.
- Statistics.Sum, Statistics.Quot and Statistics.Rem (the `reduce` fold, and Swift's `/` and `%`) carry no contract of their own. They are stated by `Statistics.SumBounds`, `Statistics.MeanBetweenExtremes` and `Statistics.QuotRem`.
- StoppedSessionKeepsLiveDuration: the source takes two separate `Date()` readings for `sessionStartTime` (AudioManager.swift:98) and the stored `startDate` (DataManager.swift:94). The model passes one `now` to both at start, so the lemma requires the two to agree. `resetSession` moves only `sessionStartTime`, after which they differ.
- The `DataManager.shared` singleton: the store object is passed to the `AudioManager` constructor instead.
- The SwiftUI views, the widget and the UI tests: presentation only.
