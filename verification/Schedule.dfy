/** Schedule and fee arithmetic: contracts/registry/src/schedule.rs. */
module Schedules {
  import opened Basics
  import opened Types

  const DAY := 86_400
  const WEEK := 7 * DAY
  const FIRST_MONDAY_OFFSET_DAYS := 4

  // ------------------------------------------------------------------ calendars

  predicate IsValid(schedule: Schedule) {
    match schedule
    case Interval => true
    case Daily(hour, minute) => hour < 24 && minute < 60
    case Weekly(weekday, hour, minute) => weekday < 7 && hour < 24 && minute < 60
  }

  function CalendarPeriod(schedule: Schedule): Option<u64> {
    match schedule
    case Interval => None
    case Daily(_, _) => Some(DAY)
    case Weekly(_, _, _) => Some(WEEK)
  }

  function CalendarOffset(schedule: Schedule): int {
    match schedule
    case Interval => 0
    case Daily(hour, minute) => hour * 3_600 + minute * 60
    case Weekly(weekday, hour, minute) =>
      (weekday + FIRST_MONDAY_OFFSET_DAYS) % 7 * DAY + hour * 3_600 + minute * 60
  }

  function FirstCalendarRun(schedule: Schedule, from: u64): u64 {
    match CalendarPeriod(schedule)
    case None => from
    case Some(period) =>
      var offset := CalendarOffset(schedule);
      var intoPeriod := from % period;
      var periodStart := from - intoPeriod;
      if intoPeriod <= offset then Sat64(periodStart + offset)
      else Sat64(Sat64(periodStart + period) + offset)
  }

  function NextRunAfter(scheduled: u64, interval: u64, now: u64): u64 {
    if interval == 0 then Max(scheduled, now)
    else
      var steps := Less(now, scheduled) / interval + 1;
      var delta := steps * interval;
      if delta <= U64_MAX then Sat64(scheduled + delta) else U64_MAX
  }

  /** The wall clock shows this schedule's time at `t`. */
  predicate WallClockMatches(schedule: Schedule, t: int) {
    match schedule
    case Interval => true
    case Daily(hour, minute) => ClockShows(hour, minute, t)
    case Weekly(weekday, hour, minute) => ClockShows(hour, minute, t) && Weekday(t) == weekday
  }

  predicate ClockShows(hour: u32, minute: u32, t: int) {
    t % DAY / 3_600 == hour && t % 3_600 / 60 == minute && t % 60 == 0
  }

  /** Monday is 0; 1970-01-01 was a Thursday, weekday 3. */
  function Weekday(t: int): int {
    (t / DAY + 3) % 7
  }

  /** On a valid calendar, the wall clock and the offset within the period say the same. */
  lemma MatchesIffOnGrid(schedule: Schedule, t: int)
    requires IsValid(schedule) && CalendarPeriod(schedule).Some? && 0 <= t
    ensures WallClockMatches(schedule, t)
       <==> t % CalendarPeriod(schedule).value == CalendarOffset(schedule)
  {
    hide ClockShows, Weekday;
    match schedule
    case Interval =>
    case Daily(hour, minute) =>
      ClockIsSecondOfDay(hour, minute, t);
    case Weekly(weekday, hour, minute) =>
      ClockIsSecondOfDay(hour, minute, t);
      WeekdayIsDayOfWeek(weekday, t);
  }

  lemma ClockIsSecondOfDay(hour: u32, minute: u32, t: int)
    requires hour < 24 && minute < 60 && 0 <= t
    ensures ClockShows(hour, minute, t) <==> t % DAY == hour * 3_600 + minute * 60
  {
    var day, second := t / DAY, t % DAY;
    var h, rest := second / 3_600, second % 3_600;
    ModUnique(t, 24 * day + h, rest, 3_600);
    ModUnique(t, (24 * day + h) * 60 + rest / 60, rest % 60, 60);
    if second == hour * 3_600 + minute * 60 {
      ModUnique(second, hour, minute * 60, 3_600);
      ModUnique(rest, minute, 0, 60);
    }
  }

  lemma WeekdayIsDayOfWeek(weekday: u32, t: int)
    requires weekday < 7 && 0 <= t
    ensures t % WEEK == t / DAY % 7 * DAY + t % DAY
    ensures Weekday(t) == weekday <==> t / DAY % 7 == (weekday + FIRST_MONDAY_OFFSET_DAYS) % 7
  {
    var day, second := t / DAY, t % DAY;
    assert t == day * DAY + second;
    assert t == day / 7 * WEEK + (day % 7 * DAY + second);
  }

  /** Two times on the same period grid are a whole period apart or equal. */
  lemma GridGap(a: int, b: int, period: int, offset: int)
    requires 0 < period && a % period == offset && b % period == offset && b < a
    ensures b + period <= a
  {
    assert a == a / period * period + offset && b == b / period * period + offset;
    var q := a / period - b / period;
    assert a - b == q * period;
    assert 1 <= q;
  }

  /** Past the offset of one period, nothing matches before that period ends. */
  lemma NextBlock(t: int, start: int, offset: int, period: int)
    requires 0 <= offset < period && start % period == 0 && start + offset < t
    requires t % period == offset
    ensures start + period + offset <= t
  {
    assert start == start / period * period;
    ModUnique(start + offset, start / period, offset, period);
    GridGap(t, start + offset, period, offset);
  }

  lemma ModPlusMultiple(x: int, k: int, period: int)
    requires 0 < period
    ensures (x + k * period) % period == x % period
  {
    var q, r := x / period, x % period;
    assert x + k * period == (q + k) * period + r;
    ModUnique(x + k * period, q + k, r, period);
  }

  lemma ModUnique(x: int, q: int, r: int, period: int)
    requires 0 < period && 0 <= r < period && x == q * period + r
    ensures x % period == r && x / period == q
  {
    var d := q - x / period;
    assert x == x / period * period + x % period;
    assert d * period == x % period - r by {
      assert d * period == q * period - x / period * period;
    }
    TimesMonotone(d, -1, period);
    TimesMonotone(1, d, period);
  }

  lemma TimesMonotone(a: int, b: int, c: int)
    ensures a <= b && 0 <= c ==> a * c <= b * c
  {
  }

  /**
   * The first run of a calendar is the least matching time at or after
   * `from`; it is cut off at u64::MAX when that time does not exist.
   */
  lemma FirstRunIsLeastMatch(schedule: Schedule, from: u64)
    requires IsValid(schedule)
    ensures var r := FirstCalendarRun(schedule, from);
            && from <= r
            && (r < U64_MAX ==> WallClockMatches(schedule, r))
            && forall t :: from <= t < r ==> schedule.Interval? || !WallClockMatches(schedule, t)
  {
    if CalendarPeriod(schedule).Some? {
      hide WallClockMatches;
      var period, offset := CalendarPeriod(schedule).value, CalendarOffset(schedule);
      var exact := LeastAtOffset(from, period, offset);
      assert FirstCalendarRun(schedule, from) == Sat64(exact);
      MatchesIffOnGrid(schedule, exact);
      forall t | from <= t < exact
        ensures !WallClockMatches(schedule, t)
      {
        MatchesIffOnGrid(schedule, t);
        NothingBefore(from, period, offset, t);
      }
    }
  }

  function LeastAtOffset(from: u64, period: int, offset: int): (exact: int)
    requires 0 <= offset < period
    ensures from <= exact && exact % period == offset
  {
    var start := from - from % period;
    ModUnique(start + offset, from / period, offset, period);
    ModUnique(start + period + offset, from / period + 1, offset, period);
    if from % period <= offset then start + offset else start + period + offset
  }

  lemma NothingBefore(from: u64, period: int, offset: int, t: int)
    requires 0 <= offset < period && from <= t < LeastAtOffset(from, period, offset)
    ensures t % period != offset
  {
    if t % period == offset {
      var start := from - from % period;
      assert start == from / period * period;
      ModUnique(start, from / period, 0, period);
      GridGap(LeastAtOffset(from, period, offset), t, period, offset);
      if from % period > offset {
        NextBlock(t, start, offset, period);
      }
    }
  }

  /** The run after one executed at `now` is the first later point of the grid. */
  lemma NextRunIsLeastGridPoint(scheduled: u64, interval: u64, now: u64)
    requires 0 < interval && scheduled <= now
    ensures exists k: int ::
              && 1 <= k
              && NextRunAfter(scheduled, interval, now) == Min(U64_MAX, GridPoint(scheduled, interval, k))
              && now < GridPoint(scheduled, interval, k)
              && forall i: int :: now < GridPoint(scheduled, interval, i) ==> k <= i
  {
    var late := now - scheduled;
    var k := late / interval + 1;
    assert late == (k - 1) * interval + late % interval;
    assert GridPoint(scheduled, interval, k) == scheduled + (k - 1) * interval + interval;
    forall i: int | now < GridPoint(scheduled, interval, i)
      ensures k <= i
    {
      TimesMonotone(i, k - 1, interval);
    }
  }

  /** The `k`-th point of the grid that starts at `scheduled`. */
  function GridPoint(scheduled: u64, interval: u64, k: int): int {
    scheduled + k * interval
  }

  /** A later grid point, cut off at u64::MAX, even when the run came early. */
  lemma NextRunOnGrid(scheduled: u64, interval: u64, now: u64)
    requires 0 < interval
    ensures var r := NextRunAfter(scheduled, interval, now);
            && (r == U64_MAX || r % interval == scheduled % interval)
            && (r == U64_MAX || (now < r && scheduled + interval <= r))
            && now <= r && scheduled <= r
  {
    var late := Less(now, scheduled);
    var k := late / interval + 1;
    StepsPassLateness(late, interval);
    ModPlusMultiple(scheduled, k, interval);
  }

  lemma StepsPassLateness(late: int, interval: int)
    requires 0 <= late && 0 < interval
    ensures var k := late / interval + 1; late < k * interval && interval <= k * interval
  {
    var q := late / interval;
    assert late == q * interval + late % interval;
    assert (q + 1) * interval == q * interval + interval;
    TimesMonotone(0, q, interval);
  }

  lemma QuotientAtLeast(k: int, x: int, d: int)
    requires 0 < d && k * d <= x
    ensures k <= x / d
  {
    var q := x / d;
    assert x == q * d + x % d;
    assert (q + 1) * d == q * d + d;
    TimesMonotone(q + 1, k, d);
  }

  /**
   * Missed runs never fire back to back: a run leaves the job not due at the
   * same instant, except at the very last second a u64 can hold.
   */
  lemma NextRunIsInTheFuture(scheduled: u64, interval: u64, now: u64)
    requires 0 < interval
    ensures now < NextRunAfter(scheduled, interval, now) <==> now < U64_MAX
  {
    NextRunOnGrid(scheduled, interval, now);
  }

  // ------------------------------------------------------------------ fees

  function RampedFee(spec: JobSpec, state: JobState, now: u64): int {
    Min(UncappedFee(spec, Less(now, state.nextRun)), state.balance)
  }

  function UncappedFee(spec: JobSpec, late: u64): int {
    var base := spec.feePerRun;
    if spec.maxFeePerRun <= base || spec.interval == 0 then base
    else
      var span := spec.maxFeePerRun - base;
      if spec.interval <= late then spec.maxFeePerRun
      else
        // checked_mul: on overflow the whole span is charged
        var extra := if span * late <= I128_MAX then span * late / spec.interval else span;
        base + extra
  }

  /** Splits `amount` into the keeper's rest and the protocol's share. */
  function SplitFee(amount: int, bps: u32): (int, int) {
    if amount <= 0 || bps == 0 then (amount, 0)
    else
      var share := amount / 10_000 * bps + amount % 10_000 * bps / 10_000;
      (amount - share, share)
  }

  lemma SplitIsExactFloor(amount: i128, bps: u32)
    requires 0 <= amount && bps <= 10_000
    ensures var (rest, share) := SplitFee(amount, bps);
            && share == amount * bps / 10_000
            && rest + share == amount && 0 <= share <= amount
            && amount / 10_000 * bps <= I128_MAX && amount % 10_000 * bps <= I128_MAX
  {
    var q, r := amount / 10_000, amount % 10_000;
    SplitProduct(q, r, bps);
    TimesMonotone(bps, 10_000, q);
    TimesMonotone(bps, 10_000, r);
    TimesMonotone(0, bps, q);
    TimesMonotone(0, bps, r);
    var s := r * bps;
    ModUnique(amount * bps, q * bps + s / 10_000, s % 10_000, 10_000);
  }

  lemma SplitProduct(q: int, r: int, bps: int)
    ensures (q * 10_000 + r) * bps == q * bps * 10_000 + r * bps
  {
  }

  /** While late by less than an interval, the rise stays within the span. */
  lemma RampWithinSpan(span: int, late: int, interval: int)
    requires 0 <= span && 0 <= late < interval
    ensures 0 <= span * late / interval <= span
    ensures 0 < span ==> span * late / interval < span
  {
    assert 0 <= span * late <= span * interval;
    if 0 < span {
      assert span * late < span * interval;
    }
    DivBound(span * late, span, interval);
  }

  lemma DivBound(x: int, bound: int, d: int)
    requires 0 < d && 0 <= x <= bound * d
    ensures 0 <= x / d <= bound
    ensures x < bound * d ==> x / d < bound
  {
    var q := x / d;
    assert x == q * d + x % d;
    TimesMonotone(bound + 1, q, d);
    TimesMonotone(q, -1, d);
  }

  lemma DivMonotone(x: int, y: int, d: int)
    requires 0 < d && x <= y
    ensures x / d <= y / d
  {
    var p := x / d;
    assert x == p * d + x % d;
    QuotientAtLeast(p, y, d);
  }

  /** A funded job pays at least its base fee, never more than its ceiling or its balance. */
  lemma RampedFeeBounds(spec: JobSpec, state: JobState, now: u64)
    requires 0 < spec.feePerRun <= state.balance
    ensures spec.feePerRun <= RampedFee(spec, state, now) <= Max(spec.feePerRun, spec.maxFeePerRun)
    ensures RampedFee(spec, state, now) <= state.balance
  {
    var late := Less(now, state.nextRun);
    if spec.feePerRun < spec.maxFeePerRun && late < spec.interval {
      RampWithinSpan(spec.maxFeePerRun - spec.feePerRun, late, spec.interval);
    }
  }

  /**
   * The ramp of a job whose balance covers it: the base fee until it is due,
   * the ceiling once it is a whole interval late, and in between the share of
   * the way that the lateness is of the interval, rounded down.
   */
  lemma RampedFeeIsLinear(spec: JobSpec, state: JobState, now: u64)
    requires 0 < spec.interval && 0 < spec.feePerRun < spec.maxFeePerRun <= state.balance
    ensures var late, span, extra := now - state.nextRun, spec.maxFeePerRun - spec.feePerRun,
                                     RampedFee(spec, state, now) - spec.feePerRun;
            && (late <= 0 ==> extra == 0)
            && (spec.interval <= late ==> extra == span)
            && (0 <= late < spec.interval && span * late <= I128_MAX ==>
                  extra * spec.interval <= span * late < (extra + 1) * spec.interval)
            && (0 <= late < spec.interval && I128_MAX < span * late ==> extra == span)
  {
    var late, span := Less(now, state.nextRun), spec.maxFeePerRun - spec.feePerRun;
    if late < spec.interval {
      RampWithinSpan(span, late, spec.interval);
      FloorBounds(span * late, spec.interval);
      if late == 0 {
        assert span * late == 0;
      }
    }
  }

  lemma FloorBounds(x: int, d: int)
    requires 0 < d && 0 <= x
    ensures x / d * d <= x < (x / d + 1) * d
  {
    var q := x / d;
    assert x == q * d + x % d;
    assert (q + 1) * d == q * d + d;
  }

  /** Waiting never makes a run cheaper, also where the product overflows i128. */
  lemma RampedFeeNeverFalls(spec: JobSpec, state: JobState, now: u64, later: u64)
    requires now <= later && 0 < spec.feePerRun
    ensures RampedFee(spec, state, now) <= RampedFee(spec, state, later)
  {
    var late, late' := Less(now, state.nextRun), Less(later, state.nextRun);
    if spec.feePerRun < spec.maxFeePerRun && late < spec.interval {
      var span := spec.maxFeePerRun - spec.feePerRun;
      RampWithinSpan(span, late, spec.interval);
      if late' < spec.interval {
        RampWithinSpan(span, late', spec.interval);
        assert span * late <= span * late';
        DivMonotone(span * late, span * late', spec.interval);
      }
    }
  }

  // ------------------------------------------------------------------ moving average

  function Smooth(scaled: u64, sample: u64): u64 {
    Sat64(scaled - scaled / 8 + sample)
  }

  /** `Smooth` applied `n` times to the same sample. */
  function SmoothTimes(scaled: u64, sample: u64, n: nat): u64 {
    if n == 0 then scaled else Smooth(SmoothTimes(scaled, sample, n - 1), sample)
  }

  /** One step moves towards the band [8x, 8x+7] and never jumps over it. */
  lemma SmoothStep(scaled: u64, x: u64)
    requires 8 * x + 7 <= U64_MAX
    ensures var s := Smooth(scaled, x);
            && (scaled < 8 * x ==> scaled < s <= 8 * x + 7)
            && (8 * x + 7 < scaled ==> 8 * x <= s < scaled)
            && (8 * x <= scaled <= 8 * x + 7 ==> s == scaled)
            // an eighth of the old value, rounded down, makes room for the sample
            && (scaled + x <= U64_MAX ==> 8 * (scaled + x - s) <= scaled < 8 * (scaled + x - s) + 8)
  {
  }

  /**
   * Repeating a sample settles the average on exactly that sample, after at
   * most as many steps as the start is away from the band, and it stays there.
   */
  lemma {:induction false} SmoothSettles(scaled: u64, x: u64, n: nat)
    requires 8 * x + 7 <= U64_MAX
    requires Max(8 * x - scaled, scaled - (8 * x + 7)) <= n
    ensures SmoothTimes(scaled, x, n) / 8 == x
    decreases n
  {
    if n == 0 {
    } else {
      SmoothStep(scaled, x);
      SmoothTimesShift(scaled, x, n - 1);
      SmoothSettles(Smooth(scaled, x), x, n - 1);
    }
  }

  lemma {:induction false} SmoothTimesShift(scaled: u64, x: u64, n: nat)
    ensures SmoothTimes(Smooth(scaled, x), x, n) == SmoothTimes(scaled, x, n + 1)
  {
    if n > 0 {
      SmoothTimesShift(scaled, x, n - 1);
    }
  }

  // ------------------------------------------------------------------ unbonding

  function UnbondingRelease(now: u64, period: u64, epoch: u64): u64 {
    var start := if epoch == 0 then now else Sat64(Sat64(now / epoch + 1) * epoch);
    Sat64(start + period)
  }

  /** Unbonding never takes longer than one epoch and one period. */
  lemma ReleaseWithinEpochAndPeriod(now: u64, period: u64, epoch: u64)
    ensures UnbondingRelease(now, period, epoch) <= Min(U64_MAX, now + epoch + period)
    ensures Min(U64_MAX, now + period) <= UnbondingRelease(now, period, epoch)
  {
    if epoch != 0 {
      assert now == now / epoch * epoch + now % epoch;
      assert (now / epoch + 1) * epoch == now / epoch * epoch + epoch;
      if U64_MAX < now / epoch + 1 {
        assert epoch == 1;
        assert Sat64(now / epoch + 1) * epoch == U64_MAX;
      }
    }
  }

  /** Everyone who starts unbonding within one epoch is released at the same time. */
  lemma SameEpochSameRelease(a: u64, b: u64, period: u64, epoch: u64)
    requires epoch != 0 && a / epoch == b / epoch
    ensures UnbondingRelease(a, period, epoch) == UnbondingRelease(b, period, epoch)
  {
  }
}
