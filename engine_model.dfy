/**
 * Closed-form physics of one lap: engine power, engine wear, engine
 * telemetry, fuel-weight penalty, tyre degradation with a cliff, and the
 * safety-car hazard.
 *
 * Every random draw of the simulator is an explicit parameter here:
 * a normal draw N(m, s) is written m + s * z for a standard-normal `z`,
 * a uniform draw U(a, b) is a + (b - a) * u for `u` in [0, 1), and
 * `randint(3, 7)` reduces an integer draw into {3, 4, 5, 6}.
 */
module EngineModel {

  // ---------------------------------------------------------------------
  // Engine
  // ---------------------------------------------------------------------

  const BASE_POWER: real := 1000.0
  const REFERENCE_RPM: real := 15000.0

  /** Engine output in horsepower for a throttle (percent), rpm and wear level. */
  function EnginePower(throttle: real, rpm: real, degradation: real): (hp: real)
    ensures degradation == 1.0 ==> hp == 0.0
    ensures 0.0 <= throttle && 0.0 <= rpm && degradation <= 1.0 ==> 0.0 <= hp
  {
    var t := throttle / 100.0;
    var r := rpm / REFERENCE_RPM;
    assert 0.0 <= t && 0.0 <= r ==> 0.0 <= t * r by {
      if 0.0 <= t && 0.0 <= r { MulNonNegative(t, r); }
    }
    assert 0.0 <= t * r && degradation <= 1.0 ==> 0.0 <= t * r * (1.0 - degradation) by {
      if 0.0 <= t * r && degradation <= 1.0 { MulNonNegative(t * r, 1.0 - degradation); }
    }
    BASE_POWER * (t * r * (1.0 - degradation))
  }

  /** Power falls in proportion to the remaining engine health 1 - degradation. */
  lemma PowerScalesWithHealth(throttle: real, rpm: real, degradation: real)
    ensures EnginePower(throttle, rpm, degradation) == EnginePower(throttle, rpm, 0.0) * (1.0 - degradation)
  {
  }

  lemma MulNonNegative(a: real, b: real)
    requires 0.0 <= a && 0.0 <= b
    ensures 0.0 <= a * b
  {
  }

  const BASE_WEAR_RATE: real := 0.0001
  const WEAR_NOISE_STD: real := 0.0002

  /** Stress multiplier on the wear rate: 1 + (stress - 1) / 2. */
  function StressFactor(stress: real): (f: real)
    ensures 0.5 <= stress <= 2.0 ==> 0.75 <= f <= 1.5
  {
    1.0 + (stress - 1.0) * 0.5
  }

  /** Race-progress multiplier on the wear rate: 1 + (lap / totalLaps) / 2 (true division). */
  function ProgressionFactor(lap: int, totalLaps: int): (f: real)
    requires totalLaps != 0
    ensures 0 <= lap && 0 < totalLaps ==> 1.0 <= f
  {
    1.0 + (lap as real / totalLaps as real) * 0.5
  }

  /** Deterministic wear added on one lap, before noise. */
  function WearIncrement(stress: real, lap: int, totalLaps: int): (w: real)
    requires totalLaps != 0
    ensures 0.5 <= stress <= 2.0 && 0 <= lap && 0 < totalLaps ==> 0.0 < w
  {
    var s := StressFactor(stress);
    var p := ProgressionFactor(lap, totalLaps);
    assert 0.5 <= stress <= 2.0 && 0 <= lap && 0 < totalLaps ==> 0.0 < s * p by {
      if 0.5 <= stress <= 2.0 && 0 <= lap && 0 < totalLaps {
        MulPositive(s, p);
      }
    }
    BASE_WEAR_RATE * (s * p)
  }

  lemma MulPositive(a: real, b: real)
    requires 0.0 < a && 0.0 < b
    ensures 0.0 < a * b
  {
  }

  /**
   * Wear after one lap: the old level plus the increment plus a noise
   * draw, clamped into [0, 1]. `noise` is the sampled value of N(0, 0.0002).
   */
  function UpdateEngineDeg(current: real, stress: real, lap: int, totalLaps: int, noise: real): (r: real)
    requires totalLaps != 0
    ensures 0.0 <= r <= 1.0
    ensures var raw := current + WearIncrement(stress, lap, totalLaps) + noise;
      (0.0 <= raw <= 1.0 ==> r == raw) && (raw < 0.0 ==> r == 0.0) && (1.0 < raw ==> r == 1.0)
  {
    Min(1.0, Max(0.0, current + WearIncrement(stress, lap, totalLaps) + noise))
  }

  function Min(a: real, b: real): real { if a <= b then a else b }
  function Max(a: real, b: real): real { if a >= b then a else b }

  /**
   * Without noise, wear never decreases, and it strictly increases unless it
   * has reached the cap of 1.
   */
  lemma WearNeverDecreasesWithoutNoise(current: real, stress: real, lap: int, totalLaps: int)
    requires 0.5 <= stress <= 2.0 && 0 <= lap && 0 < totalLaps
    requires 0.0 <= current <= 1.0
    ensures current <= UpdateEngineDeg(current, stress, lap, totalLaps, 0.0)
    ensures current < UpdateEngineDeg(current, stress, lap, totalLaps, 0.0)
            || UpdateEngineDeg(current, stress, lap, totalLaps, 0.0) == 1.0
  {
    assert 0.0 < WearIncrement(stress, lap, totalLaps);
  }

  /** Wear accelerates as the race goes on: the increment is non-decreasing in the lap. */
  lemma WearIncrementGrowsWithLap(stress: real, lap1: int, lap2: int, totalLaps: int)
    requires 0.5 <= stress <= 2.0 && 0 < totalLaps
    requires lap1 <= lap2
    ensures WearIncrement(stress, lap1, totalLaps) <= WearIncrement(stress, lap2, totalLaps)
  {
    var n := totalLaps as real;
    assert lap1 as real / n <= lap2 as real / n by {
      DivMonotone(lap1 as real, lap2 as real, n);
    }
    var s := StressFactor(stress);
    var p1 := ProgressionFactor(lap1, totalLaps);
    var p2 := ProgressionFactor(lap2, totalLaps);
    assert p1 <= p2;
    MulMonotone(s, p1, p2);
  }

  lemma DivMonotone(a: real, b: real, n: real)
    requires a <= b && 0.0 < n
    ensures a / n <= b / n
  {
    assert b / n - a / n == (b - a) / n;
  }

  lemma MulMonotone(s: real, x: real, y: real)
    requires 0.0 <= s && x <= y
    ensures s * x <= s * y
  {
    assert s * y - s * x == s * (y - x);
    MulNonNegative(s, y - x);
  }

  // ---------------------------------------------------------------------
  // Engine telemetry
  // ---------------------------------------------------------------------

  datatype Telemetry = Telemetry(rpm: real, throttle: real, temperature: real)

  /**
   * One telemetry sample: rpm ~ N(12000, 400), throttle ~ U(85, 100) and
   * temperature = 90 + 220 * degradation + N(0, 1.5).
   */
  function EngineTelemetry(engineDeg: real, rpmZ: real, throttleU: real, tempZ: real): (t: Telemetry)
    ensures 0.0 <= throttleU < 1.0 ==> 85.0 <= t.throttle < 100.0
    ensures 0.0 <= engineDeg <= 1.0 ==> 90.0 <= t.temperature - 1.5 * tempZ <= 310.0
  {
    Telemetry(12000.0 + 400.0 * rpmZ, 85.0 + 15.0 * throttleU, 90.0 + engineDeg * 220.0 + 1.5 * tempZ)
  }

  /** For the same noise draw, a more worn engine runs strictly hotter. */
  lemma TemperatureRisesWithWear(deg1: real, deg2: real, rpmZ: real, throttleU: real, tempZ: real)
    requires deg1 < deg2
    ensures EngineTelemetry(deg1, rpmZ, throttleU, tempZ).temperature
          < EngineTelemetry(deg2, rpmZ, throttleU, tempZ).temperature
  {
  }

  // ---------------------------------------------------------------------
  // Fuel
  // ---------------------------------------------------------------------

  const BURN_RATE: real := 2.1
  const FUEL_SECONDS_PER_KG: real := 0.03

  /** Lap-time penalty of the fuel still on board: 0.03 s per remaining kg, never negative. */
  function FuelEffect(lap: int, fuelLoadKg: real, burnRate: real): (penalty: real)
    ensures 0.0 <= penalty
    ensures penalty == 0.0 <==> fuelLoadKg <= lap as real * burnRate
  {
    Max(0.0, fuelLoadKg - lap as real * burnRate) * FUEL_SECONDS_PER_KG
  }

  /** With a non-negative burn rate the fuel penalty never grows as laps go by. */
  lemma FuelEffectNonIncreasing(lap1: int, lap2: int, fuelLoadKg: real, burnRate: real)
    requires lap1 <= lap2 && 0.0 <= burnRate
    ensures FuelEffect(lap2, fuelLoadKg, burnRate) <= FuelEffect(lap1, fuelLoadKg, burnRate)
  {
    MulMonotone(burnRate, lap1 as real, lap2 as real);
    assert lap1 as real * burnRate <= lap2 as real * burnRate;
  }

  // ---------------------------------------------------------------------
  // Tyres
  // ---------------------------------------------------------------------

  datatype CompoundData = CompoundData(gripBonus: real, baseDeg: real, cliffLap: int)

  /** The three compounds of the table. */
  datatype Compound = Soft | Medium | Hard

  /** A compound's row of the table: grip bonus, base wear per lap, cliff lap. */
  function CompoundRow(c: Compound): (row: CompoundData)
    ensures 0.010 <= row.baseDeg <= 0.030 && 12 <= row.cliffLap <= 35
    ensures row.gripBonus <= 0.0 <==> c != Hard
  {
    match c
    case Soft => CompoundData(-0.8, 0.030, 12)
    case Medium => CompoundData(0.0, 0.018, 22)
    case Hard => CompoundData(0.5, 0.010, 35)
  }

  /** The compound table, keyed by compound name. */
  const TYRE_COMPOUNDS: map<string, CompoundData> := map[
    "soft" := CompoundRow(Soft),
    "medium" := CompoundRow(Medium),
    "hard" := CompoundRow(Hard)
  ]

  /** The compound a name selects: its table row, or the "medium" row for a name not in the table. */
  function CompoundNamed(name: string): (c: Compound)
    ensures name in TYRE_COMPOUNDS ==> CompoundRow(c) == TYRE_COMPOUNDS[name]
    ensures name !in TYRE_COMPOUNDS ==> CompoundRow(c) == TYRE_COMPOUNDS["medium"]
  {
    if name == "soft" then Soft else if name == "hard" then Hard else Medium
  }

  /** b to the power n, for a natural exponent. */
  function Power(b: real, n: nat): real
  {
    if n == 0 then 1.0 else b * Power(b, n - 1)
  }

  /** A power of a base of at least 1 is at least 1. */
  lemma {:induction false} PowerAtLeastOne(b: real, n: nat)
    requires 1.0 <= b
    ensures 1.0 <= Power(b, n)
  {
    if n > 0 {
      PowerAtLeastOne(b, n - 1);
      MulMonotone(b, 1.0, Power(b, n - 1));
    }
  }

  const CLIFF_GROWTH: real := 1.2
  const CLIFF_SCALE: real := 0.15

  datatype TyreEffect = TyreEffect(penalty: real, gripBonus: real)

  /**
   * Tyre penalty after `stintLap` laps on a compound: linear up to the
   * compound's cliff lap, then the linear part accumulated up to the cliff
   * plus 0.15 * degFactor * (1.2^(laps over the cliff) - 1).
   */
  function TyreDegradation(stintLap: int, compound: Compound, degFactor: real): (e: TyreEffect)
    ensures e.gripBonus == CompoundRow(compound).gripBonus
    ensures 0 <= stintLap && 0.0 <= degFactor ==> 0.0 <= e.penalty
  {
    var row := CompoundRow(compound);
    assert 0 <= stintLap && 0.0 <= degFactor ==> 0.0 <= row.baseDeg * degFactor * stintLap as real by {
      if 0 <= stintLap && 0.0 <= degFactor {
        MulNonNegative(row.baseDeg * degFactor, stintLap as real);
      }
    }
    assert 0.0 <= degFactor && row.cliffLap < stintLap ==> 0.0 <= CliffPenalty(degFactor, stintLap - row.cliffLap) by {
      if 0.0 <= degFactor && row.cliffLap < stintLap {
        PowerAtLeastOne(CLIFF_GROWTH, stintLap - row.cliffLap);
        MulNonNegative(CLIFF_SCALE * degFactor, Power(CLIFF_GROWTH, stintLap - row.cliffLap) - 1.0);
      }
    }
    var baseDeg := row.baseDeg * degFactor;
    if stintLap <= row.cliffLap then
      TyreEffect(baseDeg * stintLap as real, row.gripBonus)
    else
      var overCliff := stintLap - row.cliffLap;
      var preCliff := baseDeg * row.cliffLap as real;
      TyreEffect(preCliff + CliffPenalty(degFactor, overCliff), row.gripBonus)
  }

  /** The extra penalty `overCliff` laps past the cliff: 0.15 * degFactor * (1.2^overCliff - 1). */
  function CliffPenalty(degFactor: real, overCliff: nat): real
  {
    CLIFF_SCALE * degFactor * (Power(CLIFF_GROWTH, overCliff) - 1.0)
  }

  /** Before the cliff the penalty is exactly linear in the stint lap, slope baseDeg * degFactor. */
  lemma TyreLinearBeforeCliff(stintLap: int, compound: Compound, degFactor: real)
    requires stintLap <= CompoundRow(compound).cliffLap
    ensures TyreDegradation(stintLap, compound, degFactor).penalty
         == CompoundRow(compound).baseDeg * degFactor * stintLap as real
  {
  }

  /** The cliff formula, evaluated at the cliff lap itself, agrees with the linear one. */
  lemma TyreCliffIsContinuous(compound: Compound, degFactor: real)
    ensures var row := CompoundRow(compound);
      row.baseDeg * degFactor * row.cliffLap as real
      + CLIFF_SCALE * degFactor * (Power(CLIFF_GROWTH, 0) - 1.0)
      == TyreDegradation(row.cliffLap, compound, degFactor).penalty
  {
  }

  /** Bernoulli's inequality for base 1.2: 1.2^n >= 1 + 0.2 n. */
  lemma {:induction false} PowerBernoulli(n: nat)
    ensures 1.0 + 0.2 * n as real <= Power(CLIFF_GROWTH, n)
  {
    if n > 0 {
      PowerBernoulli(n - 1);
      var p := Power(CLIFF_GROWTH, n - 1);
      assert Power(CLIFF_GROWTH, n) == 1.2 * p;
      assert 1.2 * p - p == 0.2 * p;
      assert 0.2 <= 0.2 * p;
    }
  }

  lemma PowerStep(n: nat)
    ensures Power(CLIFF_GROWTH, n) <= Power(CLIFF_GROWTH, n + 1)
  {
    PowerAtLeastOne(CLIFF_GROWTH, n);
    assert Power(CLIFF_GROWTH, n + 1) == 1.2 * Power(CLIFF_GROWTH, n);
  }

  lemma {:induction false} PowerMonotone(m: nat, n: nat)
    requires m <= n
    ensures Power(CLIFF_GROWTH, m) <= Power(CLIFF_GROWTH, n)
    decreases n - m
  {
    if m < n {
      PowerMonotone(m, n - 1);
      PowerStep(n - 1);
    }
  }

  /**
   * Past the cliff the penalty is at least the linear extrapolation
   * baseDeg * degFactor * stintLap, for every compound in the table.
   */
  lemma TyreCliffAboveLinear(stintLap: int, compound: Compound, degFactor: real)
    requires CompoundRow(compound).cliffLap < stintLap
    requires 0.0 <= degFactor
    ensures CompoundRow(compound).baseDeg * degFactor * stintLap as real
         <= TyreDegradation(stintLap, compound, degFactor).penalty
  {
    var row := CompoundRow(compound);
    var k := stintLap - row.cliffLap;
    PowerBernoulli(k);
    var extra := Power(CLIFF_GROWTH, k) - 1.0;
    // The cliff term beats the linear slope: 0.15 * (1.2^k - 1) >= 0.03 k >= baseDeg * k.
    MulMonotone(k as real, row.baseDeg, 0.030);
    var lin := row.baseDeg * k as real;
    assert lin <= 0.030 * k as real <= CLIFF_SCALE * extra;
    MulMonotone(degFactor, lin, CLIFF_SCALE * extra);
    var base := row.baseDeg * degFactor;
    assert base * stintLap as real == base * row.cliffLap as real + base * k as real;
    assert base * k as real == degFactor * lin;
    assert degFactor * (CLIFF_SCALE * extra) == CLIFF_SCALE * degFactor * extra;
    assert TyreDegradation(stintLap, compound, degFactor).penalty
        == base * row.cliffLap as real + CLIFF_SCALE * degFactor * extra;
  }

  /** The bound is tight: soft tyres one lap past the cliff are exactly on the line (0.15 * 0.2 = 0.03). */
  lemma SoftCliffTight(degFactor: real)
    ensures TyreDegradation(13, Soft, degFactor).penalty == 0.030 * degFactor * 13.0
  {
    assert Power(CLIFF_GROWTH, 1) == 1.2 by {
      assert Power(CLIFF_GROWTH, 0) == 1.0;
    }
  }

  /** For a non-negative track factor the penalty never decreases as the stint gets longer. */
  lemma TyrePenaltyMonotone(stint1: int, stint2: int, compound: Compound, degFactor: real)
    requires stint1 <= stint2 && 0.0 <= degFactor
    ensures TyreDegradation(stint1, compound, degFactor).penalty
         <= TyreDegradation(stint2, compound, degFactor).penalty
  {
    var c := CompoundRow(compound).cliffLap;
    if stint2 <= c {
      LinearPartMonotone(stint1, stint2, compound, degFactor);
    } else if stint1 <= c {
      LinearPartMonotone(stint1, c, compound, degFactor);
      CliffPartAboveCliffLap(stint2, compound, degFactor);
    } else {
      CliffPartMonotone(stint1, stint2, compound, degFactor);
    }
  }

  lemma LinearPartMonotone(stint1: int, stint2: int, compound: Compound, degFactor: real)
    requires stint1 <= stint2 <= CompoundRow(compound).cliffLap && 0.0 <= degFactor
    ensures TyreDegradation(stint1, compound, degFactor).penalty
         <= TyreDegradation(stint2, compound, degFactor).penalty
  {
    var row := CompoundRow(compound);
    MulNonNegative(row.baseDeg, degFactor);
    MulMonotone(row.baseDeg * degFactor, stint1 as real, stint2 as real);
  }

  lemma CliffPartAboveCliffLap(stint: int, compound: Compound, degFactor: real)
    requires CompoundRow(compound).cliffLap < stint && 0.0 <= degFactor
    ensures TyreDegradation(CompoundRow(compound).cliffLap, compound, degFactor).penalty
         <= TyreDegradation(stint, compound, degFactor).penalty
  {
    var row := CompoundRow(compound);
    var g := Power(CLIFF_GROWTH, stint - row.cliffLap);
    PowerAtLeastOne(CLIFF_GROWTH, stint - row.cliffLap);
    MulNonNegative(CLIFF_SCALE * degFactor, g - 1.0);
  }

  lemma CliffPartMonotone(stint1: int, stint2: int, compound: Compound, degFactor: real)
    requires CompoundRow(compound).cliffLap < stint1 <= stint2 && 0.0 <= degFactor
    ensures TyreDegradation(stint1, compound, degFactor).penalty
         <= TyreDegradation(stint2, compound, degFactor).penalty
  {
    var c := CompoundRow(compound).cliffLap;
    PowerMonotone(stint1 - c, stint2 - c);
    MulMonotone(CLIFF_SCALE * degFactor, Power(CLIFF_GROWTH, stint1 - c) - 1.0, Power(CLIFF_GROWTH, stint2 - c) - 1.0);
    assert CliffPenalty(degFactor, stint1 - c) <= CliffPenalty(degFactor, stint2 - c);
  }

  // ---------------------------------------------------------------------
  // Safety car
  // ---------------------------------------------------------------------

  /**
   * Per-lap deployment probability: 3.5% on laps up to 3, else 2.0% from lap
   * totalLaps - 5 on, else 1.2%. The late window is six laps
   * (totalLaps - 5 .. totalLaps), not five, and in a short race the
   * race-start rate takes precedence over it.
   */
  function SafetyCarProbability(lap: int, totalLaps: int): (p: real)
    ensures p == 0.012 || p == 0.020 || p == 0.035
    ensures lap <= 3 ==> p == 0.035
    ensures 3 < lap && totalLaps - 5 <= lap ==> p == 0.020
    ensures 3 < lap < totalLaps - 5 ==> p == 0.012
  {
    if lap <= 3 then 0.035
    else if lap >= totalLaps - 5 then 0.020
    else 0.012
  }

  /** Deployment check: the uniform draw `u` falls below this lap's probability. */
  function SafetyCarCheck(lap: int, totalLaps: int, u: real): (deployed: bool)
    ensures deployed ==> u < 0.035
    ensures u < 0.012 ==> deployed
    ensures lap <= 3 ==> (deployed <==> u < 0.035)
    ensures 3 < lap && totalLaps - 5 <= lap ==> (deployed <==> u < 0.020)
    ensures 3 < lap < totalLaps - 5 ==> (deployed <==> u < 0.012)
  {
    u < SafetyCarProbability(lap, totalLaps)
  }

  /** Duration of a safety-car period, `randint(3, 7)`: the integer draw reduced into 3..6. */
  function SafetyCarLaps(draw: int): (d: int)
    ensures 3 <= d <= 6
    ensures 0 <= draw < 4 ==> d == 3 + draw
  {
    3 + draw % 4
  }
}
