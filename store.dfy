/**
 * The session store (DataManager.swift): the stored session record with its
 * derived statistics, and the `DataManager` class holding the in-memory list
 * of sessions, most recent first, which rewrites the whole list to its
 * persisted snapshot after every change.
 */
module Store {

  import opened Wrappers
  import Statistics
  import opened Levels

  /** `SavedReading`: the stored form of a `NoiseReading`. */
  datatype SavedReading = SavedReading(id: Uuid, timestamp: Instant, decibels: real)

  /** `SavedReading.init(from:)`. */
  function FromReading(r: NoiseReading): SavedReading
  {
    SavedReading(r.id, r.timestamp, r.decibels)
  }

  /** `readings.map { SavedReading(from: $0) }`. */
  function SaveAll(readings: seq<NoiseReading>): seq<SavedReading>
  {
    seq(|readings|, i requires 0 <= i < |readings| => FromReading(readings[i]))
  }

  /** Saving keeps every reading's id, timestamp and level, element by element and in order. */
  lemma SaveAllPreserves(readings: seq<NoiseReading>)
    ensures |SaveAll(readings)| == |readings|
    ensures forall i :: 0 <= i < |readings| ==>
      var saved := SaveAll(readings)[i];
      saved.id == readings[i].id && saved.timestamp == readings[i].timestamp &&
      saved.decibels == readings[i].decibels
  {
  }

  /** `NoiseSession`. */
  datatype NoiseSession = NoiseSession(
    id: Uuid,
    startDate: Instant,
    endDate: Option<Instant>,
    readings: seq<SavedReading>,
    alertCount: int,
    alertThreshold: real)

  /** The `decibels` of a session's readings, in order. */
  function SavedDecibels(readings: seq<SavedReading>): (levels: seq<real>)
    ensures |levels| == |readings|
    ensures forall i :: 0 <= i < |readings| ==> levels[i] == readings[i].decibels
  {
    seq(|readings|, i requires 0 <= i < |readings| => readings[i].decibels)
  }

  /** The stored levels are the live levels they were saved from. */
  lemma SavedDecibelsOfSaveAll(readings: seq<NoiseReading>)
    ensures SavedDecibels(SaveAll(readings)) == Decibels(readings)
  {
  }

  /** `duration`: up to `endDate`, or up to `now` while the session is open. */
  function Duration(s: NoiseSession, now: Instant): (d: real)
    ensures s.endDate.None? ==> d == now - s.startDate
    ensures s.endDate.Some? ==> d == s.endDate.value - s.startDate
  {
    s.endDate.GetOr(now) - s.startDate
  }

  /**
   * An update leaves an open session running (its duration follows the
   * clock); ending it freezes its duration at `now - startDate`, whatever
   * the clock later reads.
   */
  lemma EndFreezesDuration(sessions: seq<NoiseSession>, id: Uuid, readings: seq<NoiseReading>, alertCount: int,
                           now: Instant, t: Instant)
    requires id in Ids(sessions)
    ensures var i := FirstIndex(sessions, id).value;
            Duration(Ended(sessions, id, readings, alertCount, now)[i], t) == now - sessions[i].startDate
    ensures var i := FirstIndex(sessions, id).value;
            sessions[i].endDate.None? ==>
              Duration(Updated(sessions, id, readings, alertCount)[i], t) == t - sessions[i].startDate
  {
    EndHit(sessions, id, readings, alertCount, now);
    UpdateHit(sessions, id, readings, alertCount);
  }

  /** `formattedDuration` of a session. */
  function FormattedDuration(s: NoiseSession, now: Instant): Statistics.DurationText
  {
    Statistics.Format(Statistics.Truncate(Duration(s, now)))
  }

  /** A session of at least zero length reads back as its whole seconds. */
  lemma FormattedDurationReadsBack(s: NoiseSession, now: Instant)
    requires Duration(s, now) >= 0.0
    ensures var whole := Statistics.Seconds(FormattedDuration(s, now));
            whole as real <= Duration(s, now) < whole as real + 1.0
  {
    Statistics.FormatRoundTrip(Statistics.Truncate(Duration(s, now)));
  }

  function AverageDecibels(s: NoiseSession): real
  {
    Statistics.Mean(SavedDecibels(s.readings))
  }

  function MinDecibels(s: NoiseSession): real
  {
    Statistics.Minimum(SavedDecibels(s.readings))
  }

  function MaxDecibels(s: NoiseSession): real
  {
    Statistics.Maximum(SavedDecibels(s.readings))
  }

  /** `peakDecibels` is computed exactly as `maxDecibels`. */
  function PeakDecibels(s: NoiseSession): real
  {
    Statistics.Maximum(SavedDecibels(s.readings))
  }

  /**
   * No readings: all statistics are 0. Otherwise min <= average <= max, and
   * the peak is always the maximum, attained by some reading.
   */
  lemma SessionStatistics(s: NoiseSession)
    ensures s.readings == [] ==> AverageDecibels(s) == 0.0 && MinDecibels(s) == 0.0 && MaxDecibels(s) == 0.0
    ensures s.readings != [] ==> MinDecibels(s) <= AverageDecibels(s) <= MaxDecibels(s)
    ensures PeakDecibels(s) == MaxDecibels(s)
    ensures s.readings != [] ==> exists i :: 0 <= i < |s.readings| && s.readings[i].decibels == MaxDecibels(s)
  {
    var levels := SavedDecibels(s.readings);
    if s.readings != [] {
      Statistics.MeanBetweenExtremes(levels);
      var m := MaxDecibels(s);
      assert m in levels;
      var i :| 0 <= i < |levels| && levels[i] == m;
      assert s.readings[i].decibels == m;
    }
  }

  // ---------------------------------------------------------------------------
  // Lookups and the list transformations behind the DataManager methods
  // ---------------------------------------------------------------------------

  /** The ids of the sessions, in order. */
  function Ids(sessions: seq<NoiseSession>): (ids: seq<Uuid>)
    ensures |ids| == |sessions|
    ensures forall i :: 0 <= i < |sessions| ==> ids[i] == sessions[i].id
  {
    seq(|sessions|, i requires 0 <= i < |sessions| => sessions[i].id)
  }

  /** No two sessions share an id. */
  ghost predicate UniqueIds(sessions: seq<NoiseSession>)
  {
    forall i, j :: 0 <= i < j < |sessions| ==> sessions[i].id != sessions[j].id
  }

  /** `sessions.firstIndex(where: { $0.id == id })`. */
  function FirstIndex(sessions: seq<NoiseSession>, id: Uuid): (r: Option<nat>)
    ensures r.None? <==> id !in Ids(sessions)
    ensures r.Some? ==> r.value < |sessions| && sessions[r.value].id == id &&
                        forall j :: 0 <= j < r.value ==> sessions[j].id != id
  {
    if sessions == [] then None
    else if sessions[0].id == id then Some(0)
    else
      match FirstIndex(sessions[1..], id)
      case None => (assert Ids(sessions) == [sessions[0].id] + Ids(sessions[1..]); None)
      case Some(k) => (assert Ids(sessions) == [sessions[0].id] + Ids(sessions[1..]); Some(k + 1))
  }

  /**
   * The list `updateSession` leaves: the first session with `id` gets the
   * saved readings and the count; a missing id leaves the list as it is.
   */
  function Updated(sessions: seq<NoiseSession>, id: Uuid, readings: seq<NoiseReading>, alertCount: int): seq<NoiseSession>
  {
    match FirstIndex(sessions, id)
    case None => sessions
    case Some(i) => sessions[i := sessions[i].(readings := SaveAll(readings), alertCount := alertCount)]
  }

  /** The list `endSession` leaves: as `Updated`, and the end date set to `now`. */
  function Ended(sessions: seq<NoiseSession>, id: Uuid, readings: seq<NoiseReading>, alertCount: int, now: Instant): seq<NoiseSession>
  {
    match FirstIndex(sessions, id)
    case None => sessions
    case Some(i) =>
      sessions[i := sessions[i].(endDate := Some(now), readings := SaveAll(readings), alertCount := alertCount)]
  }

  /** `sessions.removeAll { $0.id == id }`, keeping the rest in order. */
  function Removed(sessions: seq<NoiseSession>, id: Uuid): seq<NoiseSession>
  {
    if sessions == [] then []
    else if sessions[0].id == id then Removed(sessions[1..], id)
    else [sessions[0]] + Removed(sessions[1..], id)
  }

  /** An update with an id not in the list changes nothing. */
  lemma UpdateMissIsNoOp(sessions: seq<NoiseSession>, id: Uuid, readings: seq<NoiseReading>, alertCount: int, now: Instant)
    requires id !in Ids(sessions)
    ensures Updated(sessions, id, readings, alertCount) == sessions
    ensures Ended(sessions, id, readings, alertCount, now) == sessions
  {
  }

  /**
   * An update on a present id changes only the readings and the count of
   * the first session with that id; the list keeps its length, order and ids.
   */
  lemma UpdateHit(sessions: seq<NoiseSession>, id: Uuid, readings: seq<NoiseReading>, alertCount: int)
    requires id in Ids(sessions)
    ensures var r := Updated(sessions, id, readings, alertCount);
            var i := FirstIndex(sessions, id).value;
            |r| == |sessions| && Ids(r) == Ids(sessions) &&
            (forall j :: 0 <= j < |r| && j != i ==> r[j] == sessions[j]) &&
            r[i].id == id && r[i].startDate == sessions[i].startDate &&
            r[i].endDate == sessions[i].endDate && r[i].alertThreshold == sessions[i].alertThreshold &&
            r[i].readings == SaveAll(readings) && r[i].alertCount == alertCount
  {
  }

  /**
   * Ending a present session is the update plus the end date; nothing else
   * in the list changes.
   */
  lemma EndHit(sessions: seq<NoiseSession>, id: Uuid, readings: seq<NoiseReading>, alertCount: int, now: Instant)
    requires id in Ids(sessions)
    ensures var r := Ended(sessions, id, readings, alertCount, now);
            var u := Updated(sessions, id, readings, alertCount);
            var i := FirstIndex(sessions, id).value;
            |r| == |sessions| && Ids(r) == Ids(sessions) &&
            (forall j :: 0 <= j < |r| && j != i ==> r[j] == sessions[j]) &&
            r[i] == u[i].(endDate := Some(now))
  {
  }

  /**
   * After `removeAll`, no session has the id, every other session is still
   * there exactly as often as before, and the kept ones are in their old order.
   */
  lemma RemovedSpec(sessions: seq<NoiseSession>, id: Uuid)
    ensures id !in Ids(Removed(sessions, id))
    ensures forall s: NoiseSession :: s.id != id ==> multiset(Removed(sessions, id))[s] == multiset(sessions)[s]
    ensures forall s: NoiseSession :: s.id == id ==> multiset(Removed(sessions, id))[s] == 0
    ensures IsSubsequence(Removed(sessions, id), sessions)
  {
    RemovedCounts(sessions, id);
    RemovedInOrder(sessions, id);
  }

  lemma {:induction false} RemovedCounts(sessions: seq<NoiseSession>, id: Uuid)
    ensures forall s: NoiseSession ::
              multiset(Removed(sessions, id))[s] == if s.id == id then 0 else multiset(sessions)[s]
  {
    if sessions != [] {
      RemovedCounts(sessions[1..], id);
      assert sessions == [sessions[0]] + sessions[1..];
      assert multiset(sessions) == multiset([sessions[0]]) + multiset(sessions[1..]);
      if sessions[0].id != id {
        var r := [sessions[0]] + Removed(sessions[1..], id);
        assert multiset(r) == multiset([sessions[0]]) + multiset(Removed(sessions[1..], id));
      }
    }
  }

  lemma {:induction false} RemovedInOrder(sessions: seq<NoiseSession>, id: Uuid)
    ensures IsSubsequence(Removed(sessions, id), sessions)
  {
    if sessions != [] {
      var rest := Removed(sessions[1..], id);
      RemovedInOrder(sessions[1..], id);
      if sessions[0].id == id {
        SubsequenceOfTail(rest, sessions);
      } else {
        var r := [sessions[0]] + rest;
        assert r[0] == sessions[0] && r[1..] == rest;
      }
    }
  }

  /** `small` is `big` with some entries left out (the order of the rest kept). */
  ghost predicate IsSubsequence<T>(small: seq<T>, big: seq<T>)
    decreases |big|
  {
    if small == [] then true
    else if big == [] then false
    else if small[0] == big[0] then IsSubsequence(small[1..], big[1..])
    else IsSubsequence(small, big[1..])
  }

  /** A subsequence of the tail is a subsequence of the whole. */
  lemma {:induction false} SubsequenceOfTail<T>(small: seq<T>, big: seq<T>)
    requires big != [] && IsSubsequence(small, big[1..])
    ensures IsSubsequence(small, big)
    decreases |big|, |small|
  {
    if small != [] && small[0] == big[0] {
      SubsequenceWeaken(small, big[1..]);
    }
  }

  /** Dropping the head of a subsequence keeps it a subsequence. */
  lemma {:induction false} SubsequenceWeaken<T>(small: seq<T>, big: seq<T>)
    requires small != [] && IsSubsequence(small, big)
    ensures IsSubsequence(small[1..], big)
    decreases |big|, |small|
  {
    if small[0] != big[0] {
      SubsequenceWeaken(small, big[1..]);
      SubsequenceOfTail(small[1..], big);
    } else if small[1..] != [] {
      SubsequenceOfTail(small[1..], big);
    }
  }

  /** Distinct ids stay distinct through update, end and delete. */
  lemma TransformsKeepUniqueIds(sessions: seq<NoiseSession>, id: Uuid, readings: seq<NoiseReading>, alertCount: int, now: Instant)
    requires UniqueIds(sessions)
    ensures UniqueIds(Updated(sessions, id, readings, alertCount))
    ensures UniqueIds(Ended(sessions, id, readings, alertCount, now))
    ensures UniqueIds(Removed(sessions, id))
  {
    RemovedKeepsUniqueIds(sessions, id);
  }

  lemma {:induction false} RemovedKeepsUniqueIds(sessions: seq<NoiseSession>, id: Uuid)
    requires UniqueIds(sessions)
    ensures UniqueIds(Removed(sessions, id))
    ensures forall s :: s in Removed(sessions, id) ==> s in sessions
  {
    if sessions != [] {
      RemovedKeepsUniqueIds(sessions[1..], id);
      var rest := Removed(sessions[1..], id);
      if sessions[0].id != id {
        var r := [sessions[0]] + rest;
        forall i, j | 0 <= i < j < |r| ensures r[i].id != r[j].id {
          if i == 0 {
            assert r[j] in rest;
            assert r[j] in sessions[1..];
          }
        }
      }
    }
  }

  // ---------------------------------------------------------------------------
  // DataManager
  // ---------------------------------------------------------------------------

  /**
   * `DataManager`: `sessions` is the in-memory list, most recent first;
   * `persisted` stands for the JSON file (None: no file, or one that would
   * not decode). Every mutator that reaches `saveSessions` rewrites
   * `persisted` with the whole list.
   */
  class DataManager {
    var sessions: seq<NoiseSession>
    ghost var persisted: Option<seq<NoiseSession>>

    /**
     * `init()` runs `loadSessions`: the stored list when the file exists and
     * decodes, otherwise the empty list.
     */
    constructor (stored: Option<seq<NoiseSession>>)
      ensures sessions == stored.GetOr([])
      ensures persisted == stored
    {
      sessions := stored.GetOr([]);
      persisted := stored;
    }

    /** Whether a session with `id` is in the list. */
    predicate Contains(id: Uuid)
      reads this
    {
      id in Ids(sessions)
    }

    /**
     * `createSession`: a new open, empty session with new id `freshId`
     * (standing for `UUID()`) started at `now`, inserted at the front.
     */
    method CreateSession(alertThreshold: real, now: Instant, freshId: Uuid) returns (session: NoiseSession)
      requires !Contains(freshId)
      modifies this
      ensures session == NoiseSession(freshId, now, None, [], 0, alertThreshold)
      ensures sessions == [session] + old(sessions)
      ensures |sessions| == |old(sessions)| + 1 && sessions[1..] == old(sessions)
      ensures UniqueIds(old(sessions)) ==> UniqueIds(sessions)
      ensures persisted == Some(sessions)
    {
      session := NoiseSession(freshId, now, None, [], 0, alertThreshold);
      sessions := [session] + sessions;
      assert sessions[1..] == old(sessions);
      assert forall j :: 1 <= j < |sessions| ==> sessions[j] == old(sessions)[j - 1];
      persisted := Some(sessions);
    }

    /**
     * `updateSession`: overwrite the readings and the count of the first
     * session with `id`. A missing id returns before anything is saved.
     */
    method UpdateSession(id: Uuid, readings: seq<NoiseReading>, alertCount: int)
      modifies this
      ensures sessions == Updated(old(sessions), id, readings, alertCount)
      ensures old(Contains(id)) ==> persisted == Some(sessions)
      ensures !old(Contains(id)) ==> sessions == old(sessions) && persisted == old(persisted)
    {
      var found := FirstIndex(sessions, id);
      if found.None? {
        return;
      }
      var index := found.value;
      sessions := sessions[index := sessions[index].(readings := SaveAll(readings))];
      sessions := sessions[index := sessions[index].(alertCount := alertCount)];
      persisted := Some(sessions);
    }

    /** `endSession`: as `updateSession`, and the end date set to `now`. */
    method EndSession(id: Uuid, readings: seq<NoiseReading>, alertCount: int, now: Instant)
      modifies this
      ensures sessions == Ended(old(sessions), id, readings, alertCount, now)
      ensures old(Contains(id)) ==> persisted == Some(sessions)
      ensures !old(Contains(id)) ==> sessions == old(sessions) && persisted == old(persisted)
    {
      var found := FirstIndex(sessions, id);
      if found.None? {
        return;
      }
      var index := found.value;
      sessions := sessions[index := sessions[index].(endDate := Some(now))];
      sessions := sessions[index := sessions[index].(readings := SaveAll(readings))];
      sessions := sessions[index := sessions[index].(alertCount := alertCount)];
      persisted := Some(sessions);
    }

    /** `deleteSession`: remove every session with `id`, then save. */
    method DeleteSession(id: Uuid)
      modifies this
      ensures sessions == Removed(old(sessions), id)
      ensures !Contains(id)
      ensures persisted == Some(sessions)
    {
      RemovedSpec(sessions, id);
      sessions := Removed(sessions, id);
      persisted := Some(sessions);
    }

    /** `deleteAllSessions`: empty the list, then save. */
    method DeleteAllSessions()
      modifies this
      ensures sessions == []
      ensures persisted == Some([])
    {
      sessions := [];
      persisted := Some(sessions);
    }
  }
}
