/**
 * The pure level policy of the monitor (AudioManager.swift): the reading
 * record, the raw-to-display normalization, the six-way description, the
 * display window and the running peak.
 */
module Levels {

  import Statistics

  /** UUIDs are opaque identifiers, injected by the caller. */
  type Uuid = nat

  /** Instants are seconds on an injected clock. */
  type Instant = real

  /** `NoiseReading`: `decibels` is already on the 0..120 display scale. */
  datatype NoiseReading = NoiseReading(id: Uuid, timestamp: Instant, decibels: real)

  /** The `decibels` of every reading, in order (`readings.map { $0.decibels }`). */
  function Decibels(readings: seq<NoiseReading>): (levels: seq<real>)
    ensures |levels| == |readings|
    ensures forall i :: 0 <= i < |readings| ==> levels[i] == readings[i].decibels
  {
    seq(|readings|, i requires 0 <= i < |readings| => readings[i].decibels)
  }

  /** The raw power a stopped meter shows (`decibelLevel = -160`). */
  const Silence: real := -160.0

  const MinDb: real := -80.0
  const MaxDb: real := 0.0
  const Scale: real := 120.0

  /**
   * `normalizedDecibels`: clamp to [-80, 0], then rescale linearly onto
   * [0, 120]. Out-of-range input is clamped, never extrapolated.
   */
  function Normalized(raw: real): (level: real)
    ensures 0.0 <= level <= Scale
    ensures raw <= MinDb ==> level == 0.0
    ensures raw >= MaxDb ==> level == Scale
    ensures MinDb <= raw <= MaxDb ==> level == (raw - MinDb) * Scale / (MaxDb - MinDb)
  {
    var upper := if MaxDb < raw then MaxDb else raw;
    var clamped := if MinDb > upper then MinDb else upper;
    (clamped - MinDb) / (MaxDb - MinDb) * Scale
  }

  /** Normalization never reverses the order of two readings. */
  lemma NormalizedMonotone(a: real, b: real)
    requires a <= b
    ensures Normalized(a) <= Normalized(b)
  {
  }

  /** The silent meter reads 0 on the display scale. */
  lemma SilenceIsZero()
    ensures Normalized(Silence) == 0.0
  {
  }

  // ---------------------------------------------------------------------------
  // noiseDescription
  // ---------------------------------------------------------------------------

  datatype Category = Quiet | Moderate | Loud | VeryLoud | Dangerous | Extreme

  /** The text the source returns for each category. */
  function Label(c: Category): string
  {
    match c
    case Quiet => "Quiet"
    case Moderate => "Moderate"
    case Loud => "Loud"
    case VeryLoud => "Very Loud"
    case Dangerous => "Dangerous"
    case Extreme => "Extreme"
  }

  /** Distinct categories have distinct labels. */
  lemma LabelInjective(c: Category, d: Category)
    requires Label(c) == Label(d)
    ensures c == d
  {
  }

  /**
   * The `switch` over half-open ranges `0..<30`, `30..<50`, `50..<70`,
   * `70..<90`, `90..<120`, with `default` catching everything else; the
   * switch takes the first case that matches.
   */
  function Describe(db: real): Category
  {
    if 0.0 <= db < 30.0 then Quiet
    else if 30.0 <= db < 50.0 then Moderate
    else if 50.0 <= db < 70.0 then Loud
    else if 70.0 <= db < 90.0 then VeryLoud
    else if 90.0 <= db < 120.0 then Dangerous
    else Extreme
  }

  /** The boundaries of the bands; band k is [Bounds[k], Bounds[k+1]). */
  const Bounds: seq<real> := [0.0, 30.0, 50.0, 70.0, 90.0, 120.0]

  /** The position of a category in the order Quiet < ... < Extreme (a proof aid). */
  function Rank(c: Category): nat
  {
    match c
    case Quiet => 0
    case Moderate => 1
    case Loud => 2
    case VeryLoud => 3
    case Dangerous => 4
    case Extreme => 5
  }

  /**
   * Every level in [0, 120) falls in the band of its category, and 120
   * itself (the top of the scale) is Extreme.
   */
  lemma DescribeInBand(db: real)
    requires 0.0 <= db <= Scale
    ensures var k := Rank(Describe(db));
            if db < Scale then k < 5 && Bounds[k] <= db < Bounds[k + 1] else k == 5
  {
  }

  /** A level belongs to exactly one band, so the category is determined by its band. */
  lemma BandDeterminesCategory(db: real, c: Category)
    requires 0.0 <= db < Scale
    requires Rank(c) < 5 && Bounds[Rank(c)] <= db < Bounds[Rank(c) + 1]
    ensures Describe(db) == c
  {
  }

  /** Louder never reads as a quieter category on the display scale. */
  lemma DescribeMonotone(a: real, b: real)
    requires 0.0 <= a <= b
    ensures Rank(Describe(a)) <= Rank(Describe(b))
  {
  }

  /** Boundary cases: 30 is Moderate, not Quiet; exactly 120 is Extreme. */
  lemma DescribeBoundaries()
    ensures Describe(0.0) == Quiet && Describe(30.0) == Moderate && Describe(50.0) == Loud
    ensures Describe(70.0) == VeryLoud && Describe(90.0) == Dangerous
    ensures Describe(119.5) == Dangerous && Describe(Scale) == Extreme
  {
  }

  /** A negative level matches no range and falls to `default`. */
  lemma NegativeIsExtreme(db: real)
    requires db < 0.0
    ensures Describe(db) == Extreme
  {
  }

  // ---------------------------------------------------------------------------
  // displayableReadings
  // ---------------------------------------------------------------------------

  /** `displayReadings = 120`: last 60 seconds at two readings a second. */
  const DisplayCount: nat := 120

  /** `displayableReadings`: the whole list, or its last 120 entries. */
  function Window<T>(readings: seq<T>): (w: seq<T>)
    ensures |w| == if |readings| <= DisplayCount then |readings| else DisplayCount
    ensures readings == readings[..|readings| - |w|] + w
  {
    if |readings| <= DisplayCount then readings
    else readings[|readings| - DisplayCount..]
  }

  /** The window holds the newest readings: its last entry is the list's last. */
  lemma WindowKeepsNewest<T>(readings: seq<T>, k: nat)
    requires k < |Window(readings)|
    ensures Window(readings)[|Window(readings)| - 1 - k] == readings[|readings| - 1 - k]
  {
    var w := Window(readings);
    assert readings == readings[..|readings| - |w|] + w;
  }

  // ---------------------------------------------------------------------------
  // The running peak of `updateMeters`
  // ---------------------------------------------------------------------------

  /**
   * `peakLevel` after the given normalized levels, starting from 0 and
   * replacing it whenever `normalized > peakLevel`.
   */
  function RunningPeak(levels: seq<real>): (p: real)
    ensures 0.0 <= p
    ensures forall x :: x in levels ==> x <= p
    ensures p == 0.0 || p in levels
  {
    if levels == [] then 0.0
    else
      var before := RunningPeak(levels[..|levels| - 1]);
      var last := levels[|levels| - 1];
      assert levels == levels[..|levels| - 1] + [last];
      if last > before then last else before
  }

  /**
   * The peak is the larger of 0 and the maximum level seen; for levels on
   * the display scale (never negative) it is simply their maximum.
   */
  lemma {:induction false} PeakIsMaximum(levels: seq<real>)
    ensures var m := Statistics.Maximum(levels);
            RunningPeak(levels) == if m > 0.0 then m else 0.0
    ensures (forall x :: x in levels ==> 0.0 <= x) ==> RunningPeak(levels) == Statistics.Maximum(levels)
  {
    var m := Statistics.Maximum(levels);
    var p := RunningPeak(levels);
    if levels != [] {
      assert m <= p;
      assert p <= m || p == 0.0 by {
        if p != 0.0 { assert p in levels; }
      }
    }
  }
}
