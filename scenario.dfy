/**
 * One monitoring run end to end, driven through the two objects: threshold
 * 70, five slow ticks whose samples normalize to 20, 75, 82, 82 and 30,
 * then stop.
 */
module Scenario {

  import opened Wrappers
  import Statistics
  import opened Levels
  import Alerts
  import Store
  import Monitor

  /** The raw power that normalizes to `level` (for 0 <= level <= 120). */
  function RawFor(level: real): (raw: real)
    requires 0.0 <= level <= Scale
    ensures Normalized(raw) == level
  {
    level * (MaxDb - MinDb) / Scale + MinDb
  }

  /** The five levels of the run, and what the statistics make of them. */
  lemma RunLevels()
    ensures Statistics.Minimum([20.0, 75.0, 82.0, 82.0, 30.0]) == 20.0
    ensures Statistics.Maximum([20.0, 75.0, 82.0, 82.0, 30.0]) == 82.0
    ensures Statistics.Mean([20.0, 75.0, 82.0, 82.0, 30.0]) == 57.8
  {
    var l1, l2, l3, l4, l5 := [20.0], [20.0, 75.0], [20.0, 75.0, 82.0], [20.0, 75.0, 82.0, 82.0], [20.0, 75.0, 82.0, 82.0, 30.0];
    assert l2[..1] == l1 && l3[..2] == l2 && l4[..3] == l3 && l5[..4] == l4;
    assert Statistics.Minimum(l2) == 20.0 && Statistics.Maximum(l2) == 75.0;
    assert Statistics.Minimum(l3) == 20.0 && Statistics.Maximum(l3) == 82.0;
    assert Statistics.Minimum(l4) == 20.0 && Statistics.Maximum(l4) == 82.0;
    assert l1[..0] == [];
    assert Statistics.Sum(l1) == 20.0;
    assert Statistics.Sum(l2) == 95.0;
    assert Statistics.Sum(l3) == 177.0;
    assert Statistics.Sum(l4) == 259.0;
    assert Statistics.Sum(l5) == 289.0;
  }

  /** The state of a running session whose id is 1, stored alone. */
  ghost predicate Running(meter: Monitor.AudioManager, store: Store.DataManager)
    reads meter, store
  {
    meter.Valid() && meter.dataManager == store && meter.hasRecorder &&
    meter.alertEnabled && meter.alertThreshold == 70.0 && meter.currentSessionId == Some(1) &&
    |store.sessions| == 1 && store.sessions[0].id == 1
  }

  /** One fast tick with a sample normalizing to `level`, then one slow tick. */
  method Feed(meter: Monitor.AudioManager, store: Store.DataManager, level: real, now: Instant, id: Uuid)
    requires Running(meter, store) && 0.0 <= level <= Scale
    modifies meter, store
    ensures Running(meter, store)
    ensures meter.Alert() == Alerts.Step(old(meter.Alert()), level, 70.0, true, now)
    ensures meter.readings == old(meter.readings) + [NoiseReading(id, now, level)]
    ensures store.sessions[0].startDate == old(store.sessions[0].startDate)
    ensures store.sessions[0].alertThreshold == old(store.sessions[0].alertThreshold)
    ensures store.sessions[0].endDate == old(store.sessions[0].endDate)
  {
    meter.UpdateMeters(RawFor(level), now);
    meter.RecordAndSaveReading(now, id);
  }

  /** A fresh store and meter, threshold 70, started at 0 with session id 1. */
  method Begin() returns (meter: Monitor.AudioManager, store: Store.DataManager)
    ensures fresh(meter) && fresh(store) && Running(meter, store)
    ensures meter.Alert() == Alerts.Cleared(false) && meter.readings == []
    ensures store.sessions[0] == Store.NoiseSession(1, 0.0, None, [], 0, 70.0)
  {
    store := new Store.DataManager(None);
    meter := new Monitor.AudioManager(store, true);
    meter.SetAlertThreshold(70.0);
    meter.StartMonitoring(true, 0.0, 1);
  }

  /**
   * Stop at `now`: the store still holds the one session, now closed with
   * the live readings and count, and the closed list is persisted.
   */
  method Finish(meter: Monitor.AudioManager, store: Store.DataManager, now: Instant) returns (session: Store.NoiseSession)
    requires Running(meter, store)
    modifies meter, store
    ensures store.sessions == [session] && store.persisted == Some(store.sessions)
    ensures session.id == 1 && session.startDate == old(store.sessions[0].startDate) && session.endDate == Some(now)
    ensures session.alertThreshold == old(store.sessions[0].alertThreshold)
    ensures session.readings == Store.SaveAll(old(meter.readings)) && session.alertCount == old(meter.alertCount)
  {
    assert store.Contains(1) by { assert Store.Ids(store.sessions)[0] == 1; }
    Store.EndHit(store.sessions, 1, meter.readings, meter.alertCount, now);
    Store.UpdateHit(store.sessions, 1, meter.readings, meter.alertCount);
    meter.StopMonitoring(now);
    session := store.sessions[0];
    assert store.sessions == [session];
  }

  /**
   * Starting a session with threshold 70 and feeding the five samples at
   * half-second ticks, then stopping at 3 s, leaves the store holding exactly
   * one persisted session: closed, lasting 3 s at any later time, with five
   * readings, one alert (at the first level at or above 70; the next ones
   * stay above and do not fire again), maximum 82, minimum 20 and average 57.8.
   */
  method EndToEnd() returns (store: Store.DataManager, session: Store.NoiseSession)
    ensures store.sessions == [session] && store.persisted == Some([session])
    ensures |session.readings| == 5
    ensures session.id == 1 && session.alertCount == 1 && session.alertThreshold == 70.0
    ensures session.startDate == 0.0 && session.endDate == Some(3.0)
    ensures forall t: Instant :: Store.Duration(session, t) == 3.0
    ensures Store.MaxDecibels(session) == 82.0 && Store.MinDecibels(session) == 20.0
    ensures Store.AverageDecibels(session) == 57.8
  {
    var meter;
    meter, store := Begin();
    Feed(meter, store, 20.0, 0.5, 101);
    Feed(meter, store, 75.0, 1.0, 102);
    Feed(meter, store, 82.0, 1.5, 103);
    Feed(meter, store, 82.0, 2.0, 104);
    Feed(meter, store, 30.0, 2.5, 105);
    assert meter.alertCount == 1;
    assert Decibels(meter.readings) == [20.0, 75.0, 82.0, 82.0, 30.0];
    Store.SavedDecibelsOfSaveAll(meter.readings);
    session := Finish(meter, store, 3.0);
    RunLevels();
  }
}
