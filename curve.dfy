/** The Silence accrual curve, in integer seconds and integer wei.

    A vow earns SILENCE at a rate that starts at 1 SILENCE/day when the vow
    is taken and ramps linearly to 5 SILENCE/day at an age of 360 days. The
    cumulative accrual from age 0 is d + 2d²/360 SILENCE after d days. All
    accrual happens inside one global emission window of 360 days that
    starts when the contract is deployed; past its end nothing accrues. */
module Curve {
  import opened Common
  import opened Arith

  /** Length of the emission window, and of the rate ramp: 360 days. */
  const PERIOD: nat := 360 * DAY

  /** Denominator of the cumulative curve: one day times the ramp length. */
  const SCALE: nat := DAY * PERIOD

  /** First instant at which nothing accrues any more. */
  function WindowEnd(start: nat): nat { start + PERIOD }

  /** Age of a vow taken at `created`, observed at `t`, counted only up to
      the end of the emission window of a contract deployed at `start`. */
  function Age(start: nat, created: nat, t: nat): (a: nat)
    ensures a <= (if t < created then 0 else t - created)
    ensures start <= created ==> a <= PERIOD
    ensures created >= WindowEnd(start) ==> a == 0
    ensures created <= t <= WindowEnd(start) ==> a == t - created
  {
    var upTo := if t < WindowEnd(start) then t else WindowEnd(start);
    if upTo <= created then 0 else upTo - created
  }

  /** The cumulative accrual WITHOUT rounding, scaled up by SCALE:
      WAD·a·(PERIOD + 2a) = SCALE · WAD · (a/DAY + 2a²/(360·DAY²)). */
  function Scaled(a: nat): nat { WAD * (a * (PERIOD + 2 * a)) }

  /** F(a): wei accrued from age 0 to age `a` seconds, rounded down. */
  function Cumulative(a: nat): nat { Scaled(a) / SCALE }

  /** The accrual rate WITHOUT rounding, in wei per day, scaled up by PERIOD. */
  function RateScaled(a: nat): nat { WAD * (PERIOD + 4 * a) }

  /** Accrual rate in wei per day at age `a`: WAD·(1 + 4a/PERIOD), rounded down. */
  function Rate(a: nat): nat { RateScaled(a) / PERIOD }

  /** The `accrualRate` view: the rate at the vow's current age while the
      window is open, and 0 once it has closed. */
  function AccrualRate(start: nat, created: nat, now: nat): nat
  {
    if now >= WindowEnd(start) then 0 else Rate(Age(start, created, now))
  }

  // ---------------------------------------------------------------------
  // Properties of the curve

  /** Age only grows with the observation time, and freezes at the window end. */
  lemma AgeMonotone(start: nat, created: nat, t1: nat, t2: nat)
    requires t1 <= t2
    ensures Age(start, created, t1) <= Age(start, created, t2)
    ensures t1 >= WindowEnd(start) ==> Age(start, created, t1) == Age(start, created, t2)
  {
  }

  /** The accrued amount never shrinks as the vow ages. */
  lemma CumulativeMonotone(a: nat, b: nat)
    requires a <= b
    ensures Cumulative(a) <= Cumulative(b)
  {
    MulMono(a, b, PERIOD + 2 * a, PERIOD + 2 * b);
    MulMono(WAD, WAD, a * (PERIOD + 2 * a), b * (PERIOD + 2 * b));
    DivMono(Scaled(a), Scaled(b), SCALE);
  }

  /** The curve is the integral of the rate: the unrounded accrual between
      ages `a` and `b` is the elapsed time times the average of the rates at
      the two ends (exact, since the rate is linear in the age). */
  lemma CurveIsIntegralOfRate(a: nat, b: nat)
    requires a <= b
    ensures 2 * (Scaled(b) - Scaled(a)) == (b - a) * (RateScaled(a) + RateScaled(b))
  {
    var k := PERIOD + 2 * a + 2 * b;
    calc {
      Scaled(b) - Scaled(a);
      WAD * (b * (PERIOD + 2 * b)) - WAD * (a * (PERIOD + 2 * a));
      { assert b * (PERIOD + 2 * b) - a * (PERIOD + 2 * a) == (b - a) * k; }
      WAD * ((b - a) * k);
    }
    calc {
      RateScaled(a) + RateScaled(b);
      WAD * (PERIOD + 4 * a) + WAD * (PERIOD + 4 * b);
      2 * (WAD * k);
    }
    assert 2 * (WAD * ((b - a) * k)) == (b - a) * (2 * (WAD * k));
  }

  /** At a whole number of days `d`, the curve is d + 2d²/360 SILENCE,
      rounded down only once, at the end. */
  lemma CumulativeAtWholeDays(d: nat)
    ensures Cumulative(d * DAY) == WAD * (d * (360 + 2 * d)) / 360
  {
    var x := WAD * (d * (360 + 2 * d));
    assert d * DAY * (PERIOD + 2 * (d * DAY)) == d * (360 + 2 * d) * (DAY * DAY);
    assert Scaled(d * DAY) == x * (DAY * DAY);
    assert SCALE == 360 * (DAY * DAY);
    DivCancel(x, 360, DAY * DAY);
  }

  /** At a whole number of days `d`, the rate is 1 + 4d/360 SILENCE/day. */
  lemma RateAtWholeDays(d: nat)
    ensures Rate(d * DAY) == WAD * (360 + 4 * d) / 360
  {
    assert RateScaled(d * DAY) == WAD * (360 + 4 * d) * DAY;
    DivCancel(WAD * (360 + 4 * d), 360, DAY);
  }

  /** The schedule the contract advertises: 9.45, 135, 360, 675 and 1080
      SILENCE after 9, 90, 180, 270 and 360 days, exactly. */
  lemma CumulativeSchedule()
    ensures Cumulative(0) == 0
    ensures Cumulative(9 * DAY) == 9_450_000_000_000_000_000
    ensures Cumulative(90 * DAY) == 135 * WAD
    ensures Cumulative(180 * DAY) == 360 * WAD
    ensures Cumulative(270 * DAY) == 675 * WAD
    ensures Cumulative(PERIOD) == 1080 * WAD
  {
    CumulativeAtWholeDays(9);
    CumulativeAtWholeDays(90);
    CumulativeAtWholeDays(180);
    CumulativeAtWholeDays(270);
    CumulativeAtWholeDays(360);
  }

  /** The rate is 1, 1.1, 2, 3 and 4 SILENCE/day at 0, 9, 90, 180 and 270
      days, reaches 5 at 360 days, and is within 0.001 of 5 one second
      earlier. */
  lemma RateSchedule()
    ensures Rate(0) == WAD
    ensures Rate(9 * DAY) == 1_100_000_000_000_000_000
    ensures Rate(90 * DAY) == 2 * WAD
    ensures Rate(180 * DAY) == 3 * WAD
    ensures Rate(270 * DAY) == 4 * WAD
    ensures Rate(PERIOD) == 5 * WAD
    ensures 5 * WAD - WAD / 1000 < Rate(PERIOD - 1) < 5 * WAD
  {
    RateAtWholeDays(9);
    RateAtWholeDays(90);
    RateAtWholeDays(180);
    RateAtWholeDays(270);
    RateAtWholeDays(360);
  }

  /** Inside the window the rate ramps from 1 to 5 SILENCE/day and never
      falls as the vow ages. */
  lemma RateRamp(a: nat, b: nat)
    requires a <= b <= PERIOD
    ensures WAD <= Rate(a) <= Rate(b) <= 5 * WAD
  {
    assert WAD * PERIOD / PERIOD == WAD;
    DivMono(WAD * PERIOD, RateScaled(a), PERIOD);
    DivMono(RateScaled(a), RateScaled(b), PERIOD);
    DivMono(RateScaled(b), RateScaled(PERIOD), PERIOD);
    RateAtWholeDays(360);
  }

  /** `accrualRate` is 0 from the end of the window on, and between 1 and 5
      SILENCE/day before it for a vow taken after deployment. */
  lemma AccrualRateWindow(start: nat, created: nat, now: nat)
    requires start <= created <= now
    ensures now >= WindowEnd(start) ==> AccrualRate(start, created, now) == 0
    ensures now < WindowEnd(start) ==> WAD <= AccrualRate(start, created, now) <= 5 * WAD
  {
    if now < WindowEnd(start) {
      RateRamp(Age(start, created, now), PERIOD);
    }
  }
}
