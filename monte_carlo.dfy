/**
 * The Monte Carlo driver: runs the same race configuration many times,
 * each run on its own draws, and keeps one summary row per run.
 */
module MonteCarlo {
  import opened Wrappers
  import opened RaceSimulator
  import opened RaceProperties
  import opened Stats

  /** One run's summary row. Absent values stand for the NaN cells of a DNF. */
  datatype SimSummary = SimSummary(
    simId: int,
    lapsCompleted: int,
    finished: bool,
    totalTime: Option<real>,
    avgLapTime: Option<real>,
    safetyCarLaps: int)

  /** Largest logged lap number, 0 for an empty log. */
  function MaxLap(rs: seq<LapRecord>): int
  {
    if |rs| == 0 then 0
    else var m := MaxLap(rs[..|rs| - 1]); if rs[|rs| - 1].lap > m then rs[|rs| - 1].lap else m
  }

  /** Number of logged laps flagged as safety-car laps. */
  function CountFlagged(rs: seq<LapRecord>): nat
  {
    if |rs| == 0 then 0
    else CountFlagged(rs[..|rs| - 1]) + if rs[|rs| - 1].safetyCar then 1 else 0
  }

  /** Mean of the logged lap times. */
  function MeanLapTime(rs: seq<LapRecord>): real
    requires |rs| > 0
  {
    Mean(LapTimes(rs))
  }

  /**
   * The row for run `simId`: laps completed is the failing lap on a DNF and
   * the largest logged lap otherwise; total and mean lap time only for a
   * finished run. A finished run with an empty log has no lap-time column
   * to average, which `run_monte_carlo` does not survive, so it is excluded
   * here.
   */
  function Summary(simId: int, outcome: RaceOutcome): (row: SimSummary)
    requires outcome.dnf ==> outcome.dnfLap.Some?
    requires !outcome.dnf ==> |outcome.telemetry| > 0
    ensures row.simId == simId && row.finished == !outcome.dnf
    ensures row.totalTime.Some? <==> !outcome.dnf
    ensures row.avgLapTime.Some? <==> !outcome.dnf
    ensures outcome.dnf ==> row.lapsCompleted == outcome.dnfLap.value
    ensures !outcome.dnf ==> row.totalTime.value == outcome.totalTime
    ensures row.safetyCarLaps == |FlaggedRows(outcome.telemetry)|
  {
    CountFlaggedCountsFlags(outcome.telemetry);
    SimSummary(
      simId,
      if outcome.dnf then outcome.dnfLap.value else MaxLap(outcome.telemetry),
      !outcome.dnf,
      if outcome.dnf then None else Some(outcome.totalTime),
      if outcome.dnf then None else Some(MeanLapTime(outcome.telemetry)),
      CountFlagged(outcome.telemetry))
  }

  /** Positions of the log's rows whose safety-car flag is set. */
  function FlaggedRows(rs: seq<LapRecord>): set<int>
  {
    set i | 0 <= i < |rs| && rs[i].safetyCar
  }

  /** Counting flagged laps counts exactly the rows whose flag is set. */
  lemma {:induction false} CountFlaggedCountsFlags(rs: seq<LapRecord>)
    ensures CountFlagged(rs) == |FlaggedRows(rs)|
  {
    if |rs| > 0 {
      var init := rs[..|rs| - 1];
      CountFlaggedCountsFlags(init);
      var last := if rs[|rs| - 1].safetyCar then {|rs| - 1} else {};
      assert FlaggedRows(rs) == FlaggedRows(init) + last by {
        forall i | 0 <= i < |rs| - 1 ensures rs[i] == init[i] { }
      }
      assert |rs| - 1 !in FlaggedRows(init);
    }
  }

  /** A log whose lap numbers run 1, 2, ... has its length as its largest lap number. */
  lemma {:induction false} MaxLapOfNumberedLog(rs: seq<LapRecord>)
    requires forall i :: 0 <= i < |rs| ==> rs[i].lap == i + 1
    ensures MaxLap(rs) == |rs|
  {
    if |rs| > 0 {
      MaxLapOfNumberedLog(rs[..|rs| - 1]);
    }
  }

  /** A log with no flagged row counts no safety-car laps. */
  lemma {:induction false} CountFlaggedIsZeroWhenNoneFlagged(rs: seq<LapRecord>)
    requires forall i :: 0 <= i < |rs| ==> !rs[i].safetyCar
    ensures CountFlagged(rs) == 0
  {
    if |rs| > 0 {
      CountFlaggedIsZeroWhenNoneFlagged(rs[..|rs| - 1]);
    }
  }

  lemma {:induction false} CountFlaggedAtMostLength(rs: seq<LapRecord>)
    ensures CountFlagged(rs) <= |rs|
  {
    if |rs| > 0 {
      CountFlaggedAtMostLength(rs[..|rs| - 1]);
    }
  }

  /**
   * What a run's row says about the race: `finished` is the negated DNF
   * flag; total and mean lap time are present exactly when the race
   * finished, and then the total is the sum of the lap times and the mean
   * is the total over the race distance; laps completed is the failing lap
   * on a DNF (one more than the laps logged) and the race distance
   * otherwise; the safety-car count is the number of flagged rows, between 0 and
   * the laps logged.
   */
  lemma SummaryOfRace(simId: int, cfg: RaceConfig, draws: seq<LapDraws>)
    requires 1 <= cfg.laps <= |draws|
    ensures var r := Race(cfg, draws);
      var row := Summary(simId, r);
      && row.simId == simId
      && row.finished == !r.dnf
      && (row.totalTime.None? <==> r.dnf)
      && (row.avgLapTime.None? <==> r.dnf)
      && (r.dnf ==> row.lapsCompleted == r.dnfLap.value == |r.telemetry| + 1)
      && (!r.dnf ==> row.lapsCompleted == cfg.laps
                     && row.totalTime == Some(SumLapTimes(r.telemetry))
                     && row.avgLapTime == Some(r.totalTime / cfg.laps as real))
      && 0 <= row.safetyCarLaps <= |r.telemetry|
      && row.safetyCarLaps == |set i | 0 <= i < |r.telemetry| && r.telemetry[i].safetyCar|
  {
    RaceOutcomeShape(cfg, draws);
    var r := Race(cfg, draws);
    MaxLapOfNumberedLog(r.telemetry);
    CountFlaggedAtMostLength(r.telemetry);
  }

  /** With the safety car disabled every row reports zero safety-car laps. */
  lemma NoSafetyCarLapsWhenDisabled(simId: int, cfg: RaceConfig, draws: seq<LapDraws>)
    requires 1 <= cfg.laps <= |draws| && !cfg.enableSafetyCar
    ensures Summary(simId, Race(cfg, draws)).safetyCarLaps == 0
  {
    var r := Race(cfg, draws);
    var n := if FirstFailure(cfg, draws, 1).Some? then FirstFailure(cfg, draws, 1).value - 1 else LapsToRun(cfg);
    assert r.telemetry == Records(cfg, draws, n);
    RecordsAt(cfg, draws, n);
    forall i | 0 <= i < n ensures !r.telemetry[i].safetyCar {
      NoSafetyCarWhenDisabled(cfg, draws, i + 1);
    }
    NoFlaggedRows(r.telemetry);
  }

  lemma NoFlaggedRows(rs: seq<LapRecord>)
    requires forall i :: 0 <= i < |rs| ==> !rs[i].safetyCar
    ensures FlaggedRows(rs) == {}
  {
  }

  /**
   * Runs `numSimulations` races of configuration `cfg`, run i on draws
   * `draws[i]`, and returns one summary row per run, in run order.
   */
  method RunMonteCarlo(numSimulations: int, cfg: RaceConfig, draws: seq<seq<LapDraws>>)
    returns (results: seq<SimSummary>)
    requires numSimulations <= 0 || 1 <= cfg.laps
    requires numSimulations <= |draws|
    requires forall i :: 0 <= i < |draws| ==> cfg.laps <= |draws[i]|
    ensures |results| == if numSimulations < 0 then 0 else numSimulations
    ensures forall i :: 0 <= i < |results| ==>
      results[i] == Summary(i, Race(cfg, draws[i]))
  {
    results := [];
    var i := 0;
    while i < numSimulations
      invariant 0 <= i <= if numSimulations < 0 then 0 else numSimulations
      invariant |results| == i
      invariant forall j :: 0 <= j < i ==>
        results[j] == Summary(j, Race(cfg, draws[j]))
    {
      var outcome := SimulateRace(cfg, draws[i]);
      results := results + [Summary(i, outcome)];
      i := i + 1;
    }
  }
}
