/**
 * The fare and travel-time estimator. The source computes in IEEE doubles;
 * here the arithmetic is exact, over `real`, and JavaScript's `Math.round` is
 * written out as "add one half, then take the floor".
 */
module Pricing {

  /** The three tunable settings the estimator reads: base fare (LD$), price
      per kilometre (LD$) and average speed (km/h). */
  datatype Config = Config(baseFare: real, pricePerKm: real, averageSpeed: real)

  /** JavaScript's `Math.round`: the nearest integer, a tie going toward
      positive infinity. */
  function Round(x: real): (n: int)
    ensures x - 0.5 < n as real <= x + 0.5
  {
    (x + 0.5).Floor
  }

  function Max(a: int, b: int): int {
    if a < b then b else a
  }

  /** calculateFare: the base fare plus the per-kilometre price times the
      distance, rounded to a whole LD$. */
  function CalculateFare(cfg: Config, distanceKm: real): (fare: int)
    ensures cfg.baseFare + cfg.pricePerKm * distanceKm - 0.5 < fare as real
    ensures fare as real <= cfg.baseFare + cfg.pricePerKm * distanceKm + 0.5
    ensures cfg.baseFare >= 0.0 && cfg.pricePerKm >= 0.0 && distanceKm >= 0.0 ==> fare >= 0
  {
    assert cfg.pricePerKm >= 0.0 && distanceKm >= 0.0 ==> cfg.pricePerKm * distanceKm >= 0.0;
    Round(cfg.baseFare + cfg.pricePerKm * distanceKm)
  }

  /** estimateTimeMinutes: hours at the average speed, converted to minutes,
      rounded, and never below one minute. The source divides by the speed
      unguarded; its callers keep the speed non-zero. */
  function EstimateTimeMinutes(cfg: Config, distanceKm: real): (minutes: int)
    requires cfg.averageSpeed != 0.0
    ensures minutes >= 1
    ensures distanceKm / cfg.averageSpeed * 60.0 < 0.5 ==> minutes == 1
    ensures distanceKm / cfg.averageSpeed * 60.0 >= 0.5 ==>
              distanceKm / cfg.averageSpeed * 60.0 - 0.5 < minutes as real <= distanceKm / cfg.averageSpeed * 60.0 + 0.5
  {
    var hours := distanceKm / cfg.averageSpeed;
    Max(1, Round(hours * 60.0))
  }

  // ---------- Lemmas ----------

  /** Rounding never decreases when its argument grows. */
  lemma RoundMonotone(x: real, y: real)
    requires x <= y
    ensures Round(x) <= Round(y)
  {
  }

  /** A tie rounds up: 2.5 becomes 3 and -2.5 becomes -2. */
  lemma RoundHalfUp(k: int)
    ensures Round(k as real + 0.5) == k + 1
    ensures Round(k as real - 0.5) == k
  {
  }

  /** The product of two non-negative reals is non-negative. */
  lemma MulNonNeg(a: real, b: real)
    requires a >= 0.0 && b >= 0.0
    ensures a * b >= 0.0
  {
  }

  /** With a non-negative price per kilometre, a longer trip never costs less. */
  lemma FareMonotone(cfg: Config, d1: real, d2: real)
    requires cfg.pricePerKm >= 0.0
    requires d1 <= d2
    ensures CalculateFare(cfg, d1) <= CalculateFare(cfg, d2)
  {
    assert cfg.pricePerKm * d2 - cfg.pricePerKm * d1 == cfg.pricePerKm * (d2 - d1);
    MulNonNeg(cfg.pricePerKm, d2 - d1);
    RoundMonotone(cfg.baseFare + cfg.pricePerKm * d1, cfg.baseFare + cfg.pricePerKm * d2);
  }

  /** At a positive average speed, a longer trip never takes fewer minutes. */
  lemma TimeMonotone(cfg: Config, d1: real, d2: real)
    requires cfg.averageSpeed > 0.0
    requires d1 <= d2
    ensures EstimateTimeMinutes(cfg, d1) <= EstimateTimeMinutes(cfg, d2)
  {
    assert d1 / cfg.averageSpeed <= d2 / cfg.averageSpeed by {
      assert (d2 - d1) / cfg.averageSpeed >= 0.0;
      assert d2 / cfg.averageSpeed - d1 / cfg.averageSpeed == (d2 - d1) / cfg.averageSpeed;
    }
    RoundMonotone(d1 / cfg.averageSpeed * 60.0, d2 / cfg.averageSpeed * 60.0);
  }

  /** The worked example: base 100, 45 per km, 4.57 km gives round(305.65) = 306,
      and at 25 km/h the trip takes round(10.968) = 11 minutes. */
  lemma WorkedExample()
    ensures CalculateFare(Config(100.0, 45.0, 25.0), 4.57) == 306
    ensures EstimateTimeMinutes(Config(100.0, 45.0, 25.0), 4.57) == 11
  {
    assert 100.0 + 45.0 * 4.57 == 305.65;
    assert 4.57 / 25.0 * 60.0 == 10.968;
  }
}
