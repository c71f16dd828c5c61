/**
 * One race, lap by lap: the per-lap state machine (safety car, telemetry,
 * lap time, engine failure, pit stop, engine wear, telemetry log).
 *
 * `SimulateRace` is the imperative lap loop. It is proved equal to `Race`,
 * a declarative description of the outcome: the state after n laps is
 * `StateAfter(n)`, lap L's record is computed from `StateAfter(L - 1)`, the
 * race stops at the first lap whose failure check fires, and the total is
 * the sum of the logged lap times. The lemmas below `Race` state what the
 * state machine guarantees.
 */
module RaceSimulator {
  import opened Wrappers
  import opened EngineModel
  import opened Stats

  /** The arguments of one simulated race. */
  datatype RaceConfig = RaceConfig(
    baseLap: real,
    lapStd: real,
    laps: int,
    pitLap: int,
    pitLoss: real,
    engineStress: real,
    reliability: real,
    fuelLoad: real,
    tyreCompound: Compound,
    enableSafetyCar: bool,
    degFactor: real)

  /**
   * The random draws available to one lap. A lap uses only those its path
   * needs (no deployment draw while a period is active, no lap-time noise
   * under the safety car).
   */
  datatype LapDraws = LapDraws(
    scU: real,        // uniform draw of the deployment check
    scDuration: int,  // integer draw of the period length
    rpmZ: real,       // standard-normal draw of the rpm
    throttleU: real,  // uniform draw of the throttle
    tempZ: real,      // standard-normal draw of the temperature noise
    lapZ: real,       // standard-normal draw of the lap-time noise
    dnfU: real,       // uniform draw of the failure check
    wearZ: real)      // standard-normal draw of the wear noise

  /** One row of the telemetry log. */
  datatype LapRecord = LapRecord(
    lap: int,
    lapTime: real,
    power: real,
    rpm: real,
    temp: real,
    engineDeg: real,
    fuelPenalty: real,
    tyreDeg: real,
    safetyCar: bool)

  datatype RaceOutcome = RaceOutcome(totalTime: real, telemetry: seq<LapRecord>, dnf: bool, dnfLap: Option<int>)

  /** What a lap hands on to the next: engine wear, tyre age, safety-car period. */
  datatype LapState = LapState(engineDeg: real, stintLap: int, scActive: bool, scRemaining: int)

  const START: LapState := LapState(0.0, 0, false, 0)
  const SAFETY_CAR_DELTA: real := 30.0
  const REFERENCE_POWER: real := 900.0
  const SECONDS_PER_HP: real := 0.002

  /** Chance that the engine fails on a lap it enters with wear `engineDeg`. */
  function FailureProbability(reliability: real, engineDeg: real): (p: real)
    ensures reliability == 1.0 ==> p == 0.0
  {
    assert reliability == 1.0 ==> (1.0 - reliability) * (1.0 + engineDeg * 10.0) == 0.0;
    (1.0 - reliability) * (1.0 + engineDeg * 10.0)
  }

  /** Below full reliability, a more worn engine is at least as likely to fail. */
  lemma FailureRiskGrowsWithWear(reliability: real, deg1: real, deg2: real)
    requires reliability <= 1.0 && deg1 <= deg2
    ensures FailureProbability(reliability, deg1) <= FailureProbability(reliability, deg2)
  {
    var gap := FailureProbability(reliability, deg2) - FailureProbability(reliability, deg1);
    assert gap == (1.0 - reliability) * ((deg2 - deg1) * 10.0);
    MulNonNegative(1.0 - reliability, (deg2 - deg1) * 10.0);
  }

  /** Lap time without a safety car: the base plus fuel, tyre, grip, power and noise terms. */
  function GreenFlagLapTime(cfg: RaceConfig, fuelPenalty: real, tyre: TyreEffect, power: real, lapZ: real): real
  {
    cfg.baseLap + fuelPenalty + tyre.penalty + tyre.gripBonus
    - (power - REFERENCE_POWER) * SECONDS_PER_HP + cfg.lapStd * lapZ
  }

  /**
   * Engine power sets the green-flag pace: without noise an engine at the
   * reference power leaves the lap at base + fuel + tyre + grip, and more
   * power never makes a lap slower.
   */
  lemma PowerSetsPace(cfg: RaceConfig, fuelPenalty: real, tyre: TyreEffect, power1: real, power2: real, lapZ: real)
    requires power1 <= power2
    ensures GreenFlagLapTime(cfg, fuelPenalty, tyre, REFERENCE_POWER, 0.0)
         == cfg.baseLap + fuelPenalty + tyre.penalty + tyre.gripBonus
    ensures GreenFlagLapTime(cfg, fuelPenalty, tyre, power2, lapZ) <= GreenFlagLapTime(cfg, fuelPenalty, tyre, power1, lapZ)
  {
    MulMonotone(SECONDS_PER_HP, power1 - REFERENCE_POWER, power2 - REFERENCE_POWER);
  }

  /** Safety-car flag and counter after the start-of-lap check and decrement. */
  function SafetyCarStep(cfg: RaceConfig, lap: int, active: bool, remaining: int, d: LapDraws): (sc: (bool, int))
    ensures sc.0 ==> 0 < sc.1
    ensures active ==> sc.1 == remaining - 1 && (sc.0 <==> 1 < remaining)
    ensures !active && cfg.enableSafetyCar && SafetyCarCheck(lap, cfg.laps, d.scU) ==>
      sc == (true, SafetyCarLaps(d.scDuration) - 1)
    ensures !active && !(cfg.enableSafetyCar && SafetyCarCheck(lap, cfg.laps, d.scU)) ==> sc == (false, remaining)
  {
    var deployed := cfg.enableSafetyCar && !active && SafetyCarCheck(lap, cfg.laps, d.scU);
    var running := active || deployed;
    var left := if deployed then SafetyCarLaps(d.scDuration) else remaining;
    if running then (left - 1 > 0, left - 1) else (running, left)
  }

  /** Time added on the pit lap. */
  function PitCharge(cfg: RaceConfig, lap: int): real
  {
    if lap == cfg.pitLap then cfg.pitLoss else 0.0
  }

  /** Lap `lap`'s time before the pit loss, from the state the lap starts in. */
  function UnpittedLapTime(cfg: RaceConfig, lap: int, s: LapState, d: LapDraws): (t: real)
    ensures SafetyCarStep(cfg, lap, s.scActive, s.scRemaining, d).0 ==> t == cfg.baseLap + SAFETY_CAR_DELTA
  {
    var tel := EngineTelemetry(s.engineDeg, d.rpmZ, d.throttleU, d.tempZ);
    var power := EnginePower(tel.throttle, tel.rpm, s.engineDeg);
    var fuelPenalty := FuelEffect(lap, cfg.fuelLoad, BURN_RATE);
    var tyre := TyreDegradation(s.stintLap + 1, cfg.tyreCompound, cfg.degFactor);
    if SafetyCarStep(cfg, lap, s.scActive, s.scRemaining, d).0 then cfg.baseLap + SAFETY_CAR_DELTA
    else GreenFlagLapTime(cfg, fuelPenalty, tyre, power, d.lapZ)
  }

  /** The safety-car counter lies in 0 .. 5, and a period is running exactly while it is positive. */
  predicate CounterInRange(s: LapState)
  {
    0 <= s.scRemaining <= 5 && (s.scActive <==> 0 < s.scRemaining)
  }

  /** The state at the end of lap `lap`, had the engine survived it. */
  function NextState(cfg: RaceConfig, lap: int, s: LapState, d: LapDraws): (next: LapState)
    requires 1 <= lap <= cfg.laps
    ensures 0.0 <= next.engineDeg <= 1.0
    ensures next.stintLap == if lap == cfg.pitLap then 0 else s.stintLap + 1
    ensures CounterInRange(s) ==> CounterInRange(next)
  {
    var sc := SafetyCarStep(cfg, lap, s.scActive, s.scRemaining, d);
    LapState(
      UpdateEngineDeg(s.engineDeg, cfg.engineStress, lap, cfg.laps, WEAR_NOISE_STD * d.wearZ),
      if lap == cfg.pitLap then 0 else s.stintLap + 1,
      sc.0, sc.1)
  }

  /** The record lap `lap` logs, from the state it starts in. */
  function RecordOf(cfg: RaceConfig, lap: int, s: LapState, d: LapDraws): (r: LapRecord)
    requires 1 <= lap <= cfg.laps
    ensures r.lap == lap && 0.0 <= r.engineDeg <= 1.0 && 0.0 <= r.fuelPenalty
    ensures r.safetyCar ==> r.lapTime == cfg.baseLap + SAFETY_CAR_DELTA + PitCharge(cfg, lap)
  {
    var tel := EngineTelemetry(s.engineDeg, d.rpmZ, d.throttleU, d.tempZ);
    LapRecord(
      lap,
      UnpittedLapTime(cfg, lap, s, d) + PitCharge(cfg, lap),
      EnginePower(tel.throttle, tel.rpm, s.engineDeg),
      tel.rpm,
      tel.temperature,
      NextState(cfg, lap, s, d).engineDeg,
      FuelEffect(lap, cfg.fuelLoad, BURN_RATE),
      TyreDegradation(s.stintLap + 1, cfg.tyreCompound, cfg.degFactor).penalty,
      SafetyCarStep(cfg, lap, s.scActive, s.scRemaining, d).0)
  }

  /** The state after the first n laps. */
  function StateAfter(cfg: RaceConfig, draws: seq<LapDraws>, n: nat): (st: LapState)
    requires n <= LapsToRun(cfg) && n <= |draws|
    ensures 0.0 <= st.engineDeg <= 1.0
    ensures 0 <= st.stintLap <= n
    ensures CounterInRange(st)
  {
    if n == 0 then START else NextState(cfg, n, StateAfter(cfg, draws, n - 1), draws[n - 1])
  }

  /** The record of lap `lap` (numbered from 1). */
  function LapRecordAt(cfg: RaceConfig, draws: seq<LapDraws>, lap: int): LapRecord
    requires 1 <= lap <= cfg.laps && lap <= |draws|
  {
    RecordOf(cfg, lap, StateAfter(cfg, draws, lap - 1), draws[lap - 1])
  }

  /** The failure check of lap `lap`, against the wear the lap starts with. */
  predicate FailsOn(cfg: RaceConfig, draws: seq<LapDraws>, lap: int)
    requires 1 <= lap <= cfg.laps && lap <= |draws|
  {
    draws[lap - 1].dnfU < FailureProbability(cfg.reliability, StateAfter(cfg, draws, lap - 1).engineDeg)
  }

  /** The first lap from `from` on whose failure check fires, if any. */
  function FirstFailure(cfg: RaceConfig, draws: seq<LapDraws>, from: int): (k: Option<int>)
    requires 1 <= from && cfg.laps <= |draws|
    ensures k.Some? ==> from <= k.value <= cfg.laps
    decreases cfg.laps - from
  {
    if cfg.laps < from then None
    else if FailsOn(cfg, draws, from) then Some(from)
    else FirstFailure(cfg, draws, from + 1)
  }

  /**
   * `FirstFailure` finds the first failing lap from `from` on: the lap it
   * returns fails and none before it does, and it returns nothing exactly
   * when no lap from `from` to the last fails.
   */
  lemma {:induction false} FirstFailureIsFirst(cfg: RaceConfig, draws: seq<LapDraws>, from: int)
    requires 1 <= from && cfg.laps <= |draws|
    ensures var k := FirstFailure(cfg, draws, from);
      && (k.Some? ==> FailsOn(cfg, draws, k.value))
      && (k.Some? ==> forall lap :: from <= lap < k.value ==> !FailsOn(cfg, draws, lap))
      && (k.None? <==> forall lap :: from <= lap <= cfg.laps ==> !FailsOn(cfg, draws, lap))
    decreases cfg.laps - from
  {
    if from <= cfg.laps && !FailsOn(cfg, draws, from) {
      FirstFailureIsFirst(cfg, draws, from + 1);
    }
  }

  /** The records of the first n laps. */
  function Records(cfg: RaceConfig, draws: seq<LapDraws>, n: nat): (rs: seq<LapRecord>)
    requires n <= LapsToRun(cfg) && n <= |draws|
    ensures |rs| == n
  {
    if n == 0 then [] else Records(cfg, draws, n - 1) + [LapRecordAt(cfg, draws, n)]
  }

  /** Entry i of the log of the first n laps is the record of lap i + 1. */
  lemma {:induction false} RecordsAt(cfg: RaceConfig, draws: seq<LapDraws>, n: nat)
    requires n <= LapsToRun(cfg) && n <= |draws|
    ensures forall i :: 0 <= i < n ==> Records(cfg, draws, n)[i] == LapRecordAt(cfg, draws, i + 1)
  {
    if n > 0 {
      RecordsAt(cfg, draws, n - 1);
    }
  }

  /** The lap-time column of a log. */
  function LapTimes(rs: seq<LapRecord>): seq<real>
  {
    seq(|rs|, i requires 0 <= i < |rs| => rs[i].lapTime)
  }

  /** The sum of a log's lap times. */
  function SumLapTimes(rs: seq<LapRecord>): real
  {
    Sum(LapTimes(rs))
  }

  function LapsToRun(cfg: RaceConfig): nat
  {
    if cfg.laps < 0 then 0 else cfg.laps
  }

  /**
   * The outcome of a race: it ends at the first lap whose failure check
   * fires (that lap is not logged) or after all laps; the total is the sum
   * of the logged lap times.
   */
  function Race(cfg: RaceConfig, draws: seq<LapDraws>): (r: RaceOutcome)
    requires cfg.laps <= |draws|
    ensures r.dnf <==> r.dnfLap.Some?
    ensures !r.dnf ==> |r.telemetry| == LapsToRun(cfg)
  {
    match FirstFailure(cfg, draws, 1)
    case Some(k) =>
      var logged := Records(cfg, draws, k - 1);
      RaceOutcome(SumLapTimes(logged), logged, true, Some(k))
    case None =>
      var logged := Records(cfg, draws, LapsToRun(cfg));
      RaceOutcome(SumLapTimes(logged), logged, false, None)
  }

  /**
   * What a race logs: it ends with a DNF exactly when some lap's failure
   * check fires; then it is the first such lap k, and laps 1 .. k - 1 are
   * logged; otherwise every lap is logged. Lap numbers run 1, 2, ... in
   * order, and the total is the sum of the logged lap times.
   */
  lemma RaceOutcomeShape(cfg: RaceConfig, draws: seq<LapDraws>)
    requires cfg.laps <= |draws|
    ensures var r := Race(cfg, draws);
      && (r.dnf <==> exists lap :: 1 <= lap <= cfg.laps && FailsOn(cfg, draws, lap))
      && (r.dnf ==> r.dnfLap.Some? && 1 <= r.dnfLap.value <= cfg.laps
                    && FailsOn(cfg, draws, r.dnfLap.value)
                    && (forall lap :: 1 <= lap < r.dnfLap.value ==> !FailsOn(cfg, draws, lap))
                    && |r.telemetry| == r.dnfLap.value - 1)
      && (!r.dnf ==> r.dnfLap.None? && |r.telemetry| == LapsToRun(cfg))
      && (forall i :: 0 <= i < |r.telemetry| ==> r.telemetry[i].lap == i + 1)
      && r.totalTime == SumLapTimes(r.telemetry)
  {
    var r := Race(cfg, draws);
    FirstFailureIsFirst(cfg, draws, 1);
    match FirstFailure(cfg, draws, 1)
    case Some(k) => RecordsAt(cfg, draws, k - 1);
    case None => RecordsAt(cfg, draws, LapsToRun(cfg));
    forall i | 0 <= i < |r.telemetry| ensures r.telemetry[i].lap == i + 1 {
      assert r.telemetry[i] == LapRecordAt(cfg, draws, i + 1);
    }
  }

  lemma RecordsExtend(cfg: RaceConfig, draws: seq<LapDraws>, n: nat)
    requires n < LapsToRun(cfg) && n < |draws|
    ensures Records(cfg, draws, n + 1) == Records(cfg, draws, n) + [LapRecordAt(cfg, draws, n + 1)]
  {
  }

  lemma SumExtend(rs: seq<LapRecord>, r: LapRecord)
    ensures SumLapTimes(rs + [r]) == SumLapTimes(rs) + r.lapTime
  {
    assert LapTimes(rs + [r]) == LapTimes(rs) + [r.lapTime];
    assert (LapTimes(rs) + [r.lapTime])[..|rs|] == LapTimes(rs);
  }

  /**
   * The safety-car block at the start of a lap: a new period may start only
   * when the safety car is enabled and none is running; a running period
   * then uses up one lap and ends when none is left.
   */
  method AdvanceSafetyCar(cfg: RaceConfig, lap: int, active: bool, remaining: int, d: LapDraws)
    returns (active': bool, remaining': int)
    ensures (active', remaining') == SafetyCarStep(cfg, lap, active, remaining, d)
  {
    active', remaining' := active, remaining;
    if cfg.enableSafetyCar && !active' {
      if SafetyCarCheck(lap, cfg.laps, d.scU) {
        active' := true;
        remaining' := SafetyCarLaps(d.scDuration);
      }
    }
    if active' {
      remaining' := remaining' - 1;
      if remaining' <= 0 {
        active' := false;
      }
    }
  }

  /**
   * One lap of the lap loop, from the state `s` the lap starts in and the
   * lap's draws `d`: safety car, telemetry, fuel and tyres, lap time, the
   * failure check, the pit stop and the wear update. When the failure check
   * fires the lap is abandoned; otherwise the lap hands on `NextState` and
   * logs `RecordOf`.
   */
  method RunLap(cfg: RaceConfig, lap: int, s: LapState, d: LapDraws) returns (failed: bool, next: LapState, record: LapRecord)
    requires 1 <= lap <= cfg.laps
    ensures failed <==> d.dnfU < FailureProbability(cfg.reliability, s.engineDeg)
    ensures !failed ==> next == NextState(cfg, lap, s, d) && record == RecordOf(cfg, lap, s, d)
  {
    var engineDeg := s.engineDeg;
    var stintLap := s.stintLap + 1;

    // Safety car: a new period only when enabled and none is running.
    var scActive, scLapsRemaining := AdvanceSafetyCar(cfg, lap, s.scActive, s.scRemaining, d);

    // Telemetry, fuel and tyres.
    var tel := EngineTelemetry(engineDeg, d.rpmZ, d.throttleU, d.tempZ);
    var power := EnginePower(tel.throttle, tel.rpm, engineDeg);
    var fuelPenalty := FuelEffect(lap, cfg.fuelLoad, BURN_RATE);
    var tyre := TyreDegradation(stintLap, cfg.tyreCompound, cfg.degFactor);

    // Lap time.
    var lapTime: real;
    if scActive {
      lapTime := cfg.baseLap + SAFETY_CAR_DELTA;
    } else {
      lapTime := GreenFlagLapTime(cfg, fuelPenalty, tyre, power, d.lapZ);
    }

    // Engine failure, judged on the wear the lap started with.
    var failureProb := FailureProbability(cfg.reliability, engineDeg);
    failed := d.dnfU < failureProb;
    if failed {
      next, record := s, LapRecord(lap, lapTime, power, tel.rpm, tel.temperature, engineDeg,
                                   fuelPenalty, tyre.penalty, scActive);
      return;
    }

    // Pit stop.
    if lap == cfg.pitLap {
      lapTime := lapTime + cfg.pitLoss;
      stintLap := 0;
    }

    engineDeg := UpdateEngineDeg(engineDeg, cfg.engineStress, lap, cfg.laps, WEAR_NOISE_STD * d.wearZ);
    next := LapState(engineDeg, stintLap, scActive, scLapsRemaining);
    record := LapRecord(lap, lapTime, power, tel.rpm, tel.temperature, engineDeg,
                        fuelPenalty, tyre.penalty, scActive);
  }

  /** Lap `lap` of a race, run from the state the laps before it leave. */
  method RaceLap(cfg: RaceConfig, draws: seq<LapDraws>, lap: int, s: LapState)
    returns (failed: bool, next: LapState, record: LapRecord)
    requires 1 <= lap <= cfg.laps && lap <= |draws|
    requires s == StateAfter(cfg, draws, lap - 1)
    ensures failed <==> FailsOn(cfg, draws, lap)
    ensures !failed ==> next == StateAfter(cfg, draws, lap) && record == LapRecordAt(cfg, draws, lap)
  {
    failed, next, record := RunLap(cfg, lap, s, draws[lap - 1]);
  }

  /**
   * The lap loop's variables after `k` laps that did not fail: the state
   * after lap k, the log of laps 1 .. k and its total; no failure check
   * fired on those laps.
   */
  ghost predicate LapsDone(cfg: RaceConfig, draws: seq<LapDraws>, k: int, state: LapState, telemetry: seq<LapRecord>, totalTime: real)
  {
    && cfg.laps <= |draws|
    && 0 <= k <= LapsToRun(cfg)
    && FirstFailure(cfg, draws, 1) == FirstFailure(cfg, draws, k + 1)
    && state == StateAfter(cfg, draws, k)
    && telemetry == Records(cfg, draws, k)
    && totalTime == SumLapTimes(telemetry)
  }

  /** A lap that does not fail hands on its state, appends its record and adds its time. */
  lemma NextLapDone(cfg: RaceConfig, draws: seq<LapDraws>, lap: int, state: LapState, telemetry: seq<LapRecord>, totalTime: real)
    requires 1 <= lap <= cfg.laps
    requires LapsDone(cfg, draws, lap - 1, state, telemetry, totalTime) && !FailsOn(cfg, draws, lap)
    ensures var record := LapRecordAt(cfg, draws, lap);
      LapsDone(cfg, draws, lap, StateAfter(cfg, draws, lap), telemetry + [record], totalTime + record.lapTime)
  {
    assert FirstFailure(cfg, draws, lap) == FirstFailure(cfg, draws, lap + 1);
    var record := LapRecordAt(cfg, draws, lap);
    RecordsExtend(cfg, draws, lap - 1);
    assert Records(cfg, draws, lap) == telemetry + [record];
    SumExtend(telemetry, record);
  }

  /** When lap `lap` fails after laps 1 .. lap - 1 went through, the race is the DNF at that lap. */
  lemma RaceWhenFailing(cfg: RaceConfig, draws: seq<LapDraws>, lap: int, state: LapState, telemetry: seq<LapRecord>, totalTime: real)
    requires 1 <= lap <= cfg.laps
    requires LapsDone(cfg, draws, lap - 1, state, telemetry, totalTime) && FailsOn(cfg, draws, lap)
    ensures Race(cfg, draws) == RaceOutcome(totalTime, telemetry, true, Some(lap))
  {
  }

  /** When every lap went through, the race is finished with the whole log. */
  lemma RaceWhenComplete(cfg: RaceConfig, draws: seq<LapDraws>, state: LapState, telemetry: seq<LapRecord>, totalTime: real)
    requires LapsDone(cfg, draws, LapsToRun(cfg), state, telemetry, totalTime)
    ensures Race(cfg, draws) == RaceOutcome(totalTime, telemetry, false, None)
  {
  }

  /** The lap loop: simulates one race from its configuration and its draws. */
  method SimulateRace(cfg: RaceConfig, draws: seq<LapDraws>) returns (outcome: RaceOutcome)
    requires cfg.laps <= |draws|
    ensures outcome == Race(cfg, draws)
  {
    var state := START;
    var totalTime := 0.0;
    var telemetry: seq<LapRecord> := [];
    var dnf := false;
    var dnfLap: Option<int> := None;

    var lap := 1;
    while lap <= cfg.laps
      invariant LapsDone(cfg, draws, lap - 1, state, telemetry, totalTime)
      invariant !dnf && dnfLap == None
    {
      var failed, next, record := RaceLap(cfg, draws, lap, state);
      if failed {
        RaceWhenFailing(cfg, draws, lap, state, telemetry, totalTime);
        dnf := true;
        dnfLap := Some(lap);
        break;
      }
      NextLapDone(cfg, draws, lap, state, telemetry, totalTime);
      state := next;
      totalTime := totalTime + record.lapTime;
      telemetry := telemetry + [record];
      lap := lap + 1;
    }
    if !dnf {
      RaceWhenComplete(cfg, draws, state, telemetry, totalTime);
    }
    outcome := RaceOutcome(totalTime, telemetry, dnf, dnfLap);
  }
}
