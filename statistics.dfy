/**
 * Numeric helpers shared by the live monitor (AudioManager) and the stored
 * sessions (NoiseSession): both compute the same average, minimum and maximum
 * over a list of levels, and the same hours/minutes/seconds breakdown of a
 * duration. Levels are reals rather than IEEE floats.
 */
module Statistics {

  /** `levels.reduce(0) { $0 + $1 }`: a left fold from 0. */
  function Sum(levels: seq<real>): real
  {
    if levels == [] then 0.0 else Sum(levels[..|levels| - 1]) + levels[|levels| - 1]
  }

  /** The arithmetic mean, 0 for an empty list (the `guard !readings.isEmpty`). */
  function Mean(levels: seq<real>): (m: real)
    ensures levels == [] ==> m == 0.0
  {
    if levels == [] then 0.0 else Sum(levels) / (|levels| as real)
  }

  /** `levels.min() ?? 0`. */
  function Minimum(levels: seq<real>): (m: real)
    ensures levels == [] ==> m == 0.0
    ensures levels != [] ==> m in levels && forall x :: x in levels ==> m <= x
  {
    if |levels| <= 1 then (if levels == [] then 0.0 else levels[0])
    else
      var rest := Minimum(levels[..|levels| - 1]);
      var last := levels[|levels| - 1];
      assert levels == levels[..|levels| - 1] + [last];
      if last < rest then last else rest
  }

  /** `levels.max() ?? 0`. */
  function Maximum(levels: seq<real>): (m: real)
    ensures levels == [] ==> m == 0.0
    ensures levels != [] ==> m in levels && forall x :: x in levels ==> x <= m
  {
    if |levels| <= 1 then (if levels == [] then 0.0 else levels[0])
    else
      var rest := Maximum(levels[..|levels| - 1]);
      var last := levels[|levels| - 1];
      assert levels == levels[..|levels| - 1] + [last];
      if last > rest then last else rest
  }

  /** A sum of n values, each within [lo, hi], lies within [n * lo, n * hi]. */
  lemma {:induction false} SumBounds(levels: seq<real>, lo: real, hi: real)
    requires forall x :: x in levels ==> lo <= x <= hi
    ensures (|levels| as real) * lo <= Sum(levels) <= (|levels| as real) * hi
  {
    if levels != [] {
      var init := levels[..|levels| - 1];
      assert forall x :: x in init ==> x in levels;
      SumBounds(init, lo, hi);
      assert levels[|levels| - 1] in levels;
      assert (|levels| as real) * lo == (|init| as real) * lo + lo;
      assert (|levels| as real) * hi == (|init| as real) * hi + hi;
    }
  }

  /** For a non-empty list, minimum <= mean <= maximum. */
  lemma MeanBetweenExtremes(levels: seq<real>)
    requires levels != []
    ensures Minimum(levels) <= Mean(levels) <= Maximum(levels)
  {
    var n := |levels| as real;
    var lo, hi := Minimum(levels), Maximum(levels);
    SumBounds(levels, lo, hi);
    DivideBounds(Sum(levels), n, lo, hi);
  }

  lemma DivideBounds(total: real, n: real, lo: real, hi: real)
    requires n > 0.0 && n * lo <= total <= n * hi
    ensures lo <= total / n <= hi
  {
    var q := total / n;
    assert total == n * q;
    assert n * (q - lo) >= 0.0;
    assert n * (hi - q) >= 0.0;
  }

  /** Every reading equal to `v` gives mean, minimum and maximum `v`. */
  lemma {:induction false} ConstantLevels(levels: seq<real>, v: real)
    requires levels != []
    requires forall x :: x in levels ==> x == v
    ensures Mean(levels) == v && Minimum(levels) == v && Maximum(levels) == v
  {
    SumBounds(levels, v, v);
    var n := |levels| as real;
    assert Sum(levels) == n * v;
  }

  // ---------------------------------------------------------------------------
  // Durations: `Int(duration)` truncates toward zero, and Swift's `/` and `%`
  // on Int truncate toward zero as well (Dafny's are Euclidean).
  // ---------------------------------------------------------------------------

  /** `Int(x)` for a Double: truncation toward zero. */
  function Truncate(x: real): (n: int)
    ensures 0.0 <= x ==> 0 <= n && n as real <= x < n as real + 1.0
    ensures x < 0.0 ==> n <= 0 && n as real - 1.0 < x <= n as real
  {
    if x >= 0.0 then x.Floor else -((-x).Floor)
  }

  /** Swift's `a / b` on Int for b > 0. */
  function Quot(a: int, b: int): int
    requires b > 0
  {
    if a >= 0 then a / b else -((-a) / b)
  }

  /** Swift's `a % b` on Int for b > 0: its sign follows `a`. */
  function Rem(a: int, b: int): int
    requires b > 0
  {
    if a >= 0 then a % b else -((-a) % b)
  }

  lemma QuotRem(a: int, b: int)
    requires b > 0
    ensures Quot(a, b) * b + Rem(a, b) == a
    ensures -b < Rem(a, b) < b
    ensures a >= 0 ==> 0 <= Rem(a, b) && 0 <= Quot(a, b)
    ensures a <= 0 ==> Rem(a, b) <= 0 && Quot(a, b) <= 0
  {
  }

  /** The three numbers `formattedDuration` prints. */
  datatype Clock = Clock(hours: int, minutes: int, seconds: int)

  /**
   * hours = d / 3600, minutes = (d % 3600) / 60, seconds = d % 60, with
   * Swift's truncating operators.
   */
  function Breakdown(d: int): (c: Clock)
    ensures c.hours * 3600 + c.minutes * 60 + c.seconds == d
    ensures -60 < c.minutes < 60 && -60 < c.seconds < 60
    ensures d >= 0 ==> 0 <= c.hours && 0 <= c.minutes && 0 <= c.seconds
    ensures d <= 0 ==> c.hours <= 0 && c.minutes <= 0 && c.seconds <= 0
  {
    var h := Quot(d, 3600);
    var r := Rem(d, 3600);
    var m := Quot(r, 60);
    var s := Rem(d, 60);
    QuotRem(d, 3600);
    QuotRem(r, 60);
    assert Rem(r, 60) == s by { RemOfRem(d); }
    Clock(h, m, s)
  }

  /** (d % 3600) % 60 == d % 60 for truncating remainders. */
  lemma RemOfRem(d: int)
    ensures Rem(Rem(d, 3600), 60) == Rem(d, 60)
  {
    if d >= 0 {
      assert d == (d / 3600) * 3600 + d % 3600;
      assert (d / 3600) * 3600 == ((d / 3600) * 60) * 60;
      ModShift(d % 3600, (d / 3600) * 60);
    } else {
      var e := -d;
      assert e == (e / 3600) * 3600 + e % 3600;
      assert (e / 3600) * 3600 == ((e / 3600) * 60) * 60;
      ModShift(e % 3600, (e / 3600) * 60);
    }
  }

  lemma ModShift(r: nat, k: nat)
    ensures (r + k * 60) % 60 == r % 60
  {
    if k > 0 {
      ModShift(r, k - 1);
      assert r + k * 60 == (r + (k - 1) * 60) + 60;
    }
  }

  /**
   * What the label shows: "h:mm:ss" when hours > 0, otherwise "mm:ss"
   * (the zero-padding itself is string formatting and not modelled).
   */
  datatype DurationText = HoursMinutesSeconds(h: int, m: int, s: int) | MinutesSeconds(m: int, s: int)

  function Format(d: int): (t: DurationText)
    ensures t.HoursMinutesSeconds? <==> d >= 3600
  {
    var c := Breakdown(d);
    if c.hours > 0 then HoursMinutesSeconds(c.hours, c.minutes, c.seconds)
    else MinutesSeconds(c.minutes, c.seconds)
  }

  /** The number of seconds a label stands for. */
  function Seconds(t: DurationText): int
  {
    match t
    case HoursMinutesSeconds(h, m, s) => h * 3600 + m * 60 + s
    case MinutesSeconds(m, s) => m * 60 + s
  }

  /**
   * The label reads back as the duration for every duration above -1 hour;
   * the short form drops a negative hour count, so below that it does not.
   */
  lemma FormatRoundTrip(d: int)
    ensures d > -3600 ==> Seconds(Format(d)) == d
    ensures d <= -3600 ==> Seconds(Format(d)) != d
  {
    var c := Breakdown(d);
    if d <= -3600 {
      assert c.hours * 3600 == d - c.minutes * 60 - c.seconds;
      assert c.hours < 0;
    }
  }
}
