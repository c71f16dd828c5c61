/**
 * What the lap loop guarantees, stated about the declarative description
 * `Race` / `StateAfter` / `LapRecordAt` that `SimulateRace` is proved to
 * compute: tyre age and the pit stop, engine wear, the failure check, and
 * the safety-car periods.
 */
module RaceProperties {
  import opened EngineModel
  import opened RaceSimulator

  // ---------------------------------------------------------------------
  // Tyre age and the pit stop
  // ---------------------------------------------------------------------

  /** After n laps the tyres are n laps old, or n - pitLap laps old once the pit lap is behind. */
  lemma {:induction false} StintAfter(cfg: RaceConfig, draws: seq<LapDraws>, n: nat)
    requires n <= LapsToRun(cfg) && n <= |draws|
    ensures StateAfter(cfg, draws, n).stintLap == if 1 <= cfg.pitLap <= n then n - cfg.pitLap else n
  {
    if n > 0 {
      StintAfter(cfg, draws, n - 1);
    }
  }

  /**
   * The tyre penalty logged on lap L is that of the race's one compound at
   * stint lap L up to the pit lap and L - pitLap after it.
   */
  lemma TyreAgeOnLap(cfg: RaceConfig, draws: seq<LapDraws>, lap: int)
    requires 1 <= lap <= cfg.laps && lap <= |draws|
    ensures var stint := if 1 <= cfg.pitLap < lap then lap - cfg.pitLap else lap;
      LapRecordAt(cfg, draws, lap).tyreDeg == TyreDegradation(stint, cfg.tyreCompound, cfg.degFactor).penalty
  {
    StintAfter(cfg, draws, lap - 1);
  }

  /** Sum of the lap times of laps 1 .. n without the pit loss. */
  function UnpittedTime(cfg: RaceConfig, draws: seq<LapDraws>, n: nat): real
    requires n <= LapsToRun(cfg) && n <= |draws|
  {
    if n == 0 then 0.0
    else UnpittedTime(cfg, draws, n - 1) + UnpittedLapTime(cfg, n, StateAfter(cfg, draws, n - 1), draws[n - 1])
  }

  /** The first n laps take their unpitted times plus the pit loss exactly once if the pit lap is among them. */
  lemma {:induction false} PitLossChargedOnce(cfg: RaceConfig, draws: seq<LapDraws>, n: nat)
    requires n <= LapsToRun(cfg) && n <= |draws|
    ensures SumLapTimes(Records(cfg, draws, n))
         == UnpittedTime(cfg, draws, n) + (if 1 <= cfg.pitLap <= n then cfg.pitLoss else 0.0)
  {
    if n > 0 {
      PitLossChargedOnce(cfg, draws, n - 1);
      SumExtend(Records(cfg, draws, n - 1), LapRecordAt(cfg, draws, n));
    }
  }

  /** A race's total contains the pit loss exactly when the pit lap was logged, i.e. the race got past it. */
  lemma PitLossInTotal(cfg: RaceConfig, draws: seq<LapDraws>)
    requires cfg.laps <= |draws|
    ensures var r := Race(cfg, draws);
      |r.telemetry| <= LapsToRun(cfg)
      && r.totalTime == UnpittedTime(cfg, draws, |r.telemetry|)
                        + (if 1 <= cfg.pitLap <= |r.telemetry| then cfg.pitLoss else 0.0)
  {
    RaceOutcomeShape(cfg, draws);
    var r := Race(cfg, draws);
    PitLossChargedOnce(cfg, draws, |r.telemetry|);
  }

  // ---------------------------------------------------------------------
  // Engine wear and failure
  // ---------------------------------------------------------------------

  /** The wear logged for lap L is the value after lap L's update, and lies in [0, 1]. */
  lemma LoggedWearIsPostUpdate(cfg: RaceConfig, draws: seq<LapDraws>, lap: int)
    requires 1 <= lap <= cfg.laps && lap <= |draws|
    ensures LapRecordAt(cfg, draws, lap).engineDeg == StateAfter(cfg, draws, lap).engineDeg
    ensures 0.0 <= LapRecordAt(cfg, draws, lap).engineDeg <= 1.0
  {
  }

  /**
   * Lap L's failure check uses the wear the lap started with: none on lap
   * 1, and the value logged for lap L - 1 afterwards.
   */
  lemma FailureUsesWearEnteringLap(cfg: RaceConfig, draws: seq<LapDraws>, lap: int)
    requires 1 <= lap <= cfg.laps && lap <= |draws|
    ensures var entering := if lap == 1 then 0.0 else LapRecordAt(cfg, draws, lap - 1).engineDeg;
      FailsOn(cfg, draws, lap) <==> draws[lap - 1].dnfU < FailureProbability(cfg.reliability, entering)
  {
  }

  /** With reliability 1 and failure draws in [0, 1) the race always finishes and logs every lap. */
  lemma {:induction false} NeverDnfWithFullReliability(cfg: RaceConfig, draws: seq<LapDraws>)
    requires cfg.laps <= |draws| && cfg.reliability == 1.0
    requires forall i :: 0 <= i < |draws| ==> 0.0 <= draws[i].dnfU
    ensures !Race(cfg, draws).dnf && Race(cfg, draws).dnfLap.None?
    ensures |Race(cfg, draws).telemetry| == LapsToRun(cfg)
  {
    forall lap | 1 <= lap <= cfg.laps ensures !FailsOn(cfg, draws, lap) {
      assert 0.0 <= draws[lap - 1].dnfU;
    }
    FirstFailureIsFirst(cfg, draws, 1);
    RaceOutcomeShape(cfg, draws);
  }

  // ---------------------------------------------------------------------
  // Safety car
  // ---------------------------------------------------------------------

  /** A new period starts on a lap only when the safety car is enabled and no period is running. */
  predicate Deploys(cfg: RaceConfig, draws: seq<LapDraws>, lap: int)
    requires 1 <= lap <= cfg.laps && lap <= |draws|
  {
    cfg.enableSafetyCar && !StateAfter(cfg, draws, lap - 1).scActive
    && SafetyCarCheck(lap, cfg.laps, draws[lap - 1].scU)
  }

  /**
   * A period of d laps deployed on lap L flags laps L .. L + d - 2 and no
   * more: j laps after the deployment lap the counter is d - 1 - j, and the
   * period is running while it is positive.
   */
  lemma {:induction false} SafetyCarPeriod(cfg: RaceConfig, draws: seq<LapDraws>, start: int, j: nat)
    requires 1 <= start && start + j <= cfg.laps && start + j <= |draws|
    requires Deploys(cfg, draws, start)
    requires j < SafetyCarLaps(draws[start - 1].scDuration)
    ensures var d := SafetyCarLaps(draws[start - 1].scDuration);
      StateAfter(cfg, draws, start + j).scRemaining == d - 1 - j
      && (StateAfter(cfg, draws, start + j).scActive <==> j < d - 1)
  {
    if j > 0 {
      SafetyCarPeriod(cfg, draws, start, j - 1);
    }
  }

  /** With the safety car disabled no lap is ever flagged. */
  lemma {:induction false} NoSafetyCarWhenDisabled(cfg: RaceConfig, draws: seq<LapDraws>, n: nat)
    requires !cfg.enableSafetyCar
    requires n <= LapsToRun(cfg) && n <= |draws|
    ensures !StateAfter(cfg, draws, n).scActive && StateAfter(cfg, draws, n).scRemaining == 0
    ensures 1 <= n ==> !LapRecordAt(cfg, draws, n).safetyCar
  {
    if n > 0 {
      NoSafetyCarWhenDisabled(cfg, draws, n - 1);
    }
  }

  /** A flagged lap takes the base lap time plus 30 s, plus the pit loss if it is also the pit lap. */
  lemma SafetyCarLapTime(cfg: RaceConfig, draws: seq<LapDraws>, lap: int)
    requires 1 <= lap <= cfg.laps && lap <= |draws|
    requires LapRecordAt(cfg, draws, lap).safetyCar
    ensures LapRecordAt(cfg, draws, lap).lapTime
         == cfg.baseLap + 30.0 + (if lap == cfg.pitLap then cfg.pitLoss else 0.0)
  {
  }
}
