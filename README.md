# Race Monte Carlo simulation — a verified Dafny model

This project models the computational core of a Formula 1 race-strategy
simulator:

- the **physics models** (`engine_model.py`): engine power, engine wear per
  lap, the engine telemetry formula, the fuel-weight penalty, the tyre
  compound table with its linear-then-exponential "cliff" degradation, and
  the safety-car deployment check and period length;
- the **race loop** (`race_simulator.py`, `simulate_race`): lap by lap it
  advances the safety car, computes telemetry, fuel, tyre and lap time,
  runs the engine-failure (DNF) check, charges the pit stop, updates the
  engine wear and logs a telemetry row;
- the **strategy optimiser** (`StrategyOptimizer.find_optimal_strategy`):
  for every compound and every second lap of the pit window it runs a batch
  of races, keeps the cells where at least one race finished with their mean
  finishing time, and returns those rows with the first fastest one;
- the **Monte Carlo driver** (`run_monte_carlo`): one summary row per run;
- the **track lookup** (`fastf1_helper.py`, `get_track_constants`): the
  pit loss and the tyre-wear multiplier of a venue, found by a
  case-insensitive substring match against an ordered table, with a default.

Modules:

| file | module | form |
|---|---|---|
| `wrappers.dfy` | `Wrappers` | `Option` |
| `stats.dfy` | `Stats` | sum and mean of a sample of reals, used by the lap log and by the optimiser |
| `engine_model.dfy` | `EngineModel` | functions and lemmas (pure) |
| `race_simulator.dfy` | `RaceSimulator` | the lap loop as a method, proved equal to the declarative `Race` |
| `race_properties.dfy` | `RaceProperties` | lemmas about `Race` and the lap state machine |
| `strategy_optimizer.dfy` | `StrategyOptimizer` | the grid search as nested loops, proved equal to `Optimal` |
| `monte_carlo.dfy` | `MonteCarlo` | the driver loop, proved to produce `Summary` of `Race` per run |
| `track_calibration.dfy` | `TrackCalibration` | the lookup loop, proved equal to `TrackConstantsOf` |

**Randomness.** Every random number the simulator draws becomes an explicit
input. Each lap gets one `LapDraws` record. It holds:

- standard-normal draws, so `normal(m, s)` becomes `m + s * z`;
- uniform draws in [0, 1), so `uniform(85, 100)` becomes `85 + 15 * u`;
- the integer behind `randint(3, 7)`, which becomes `3 + draw % 4`.

A race takes one sequence of such records, one per lap. The Monte Carlo
driver takes one sequence per run. The optimiser takes one per grid cell and
run. Each statement in the model therefore holds for every possible
outcome of the random generator.

**Numbers.** Floating-point numbers are modelled as `real`. Python's
`int(laps * 0.2)` and `int(laps * 0.8)` truncate toward zero; they are
modelled by `TruncFifth(laps)` and `TruncFifth(4 * laps)`. For lap
counts below 2^50 the two agree. The doubles nearest 0.2 and 0.8
lie slightly above them, so a product that should be an integer is never
rounded below it. Below 2^50 the rounding error also stays under the 1/5
gap to the next integer, so a product is never rounded up to it. Above
about 2^50 the float product can round up: for 2008174129877571 laps,
`int(laps * 0.8)` is one more than `TruncFifth(4 * laps)`.

**Where the documentation and the code disagree, the model follows the code:**

- The safety-car check raises the probability for laps `lap >= total_laps - 5`
  (`engine_model.py:168`). That is the last six laps, not the last five
  that the comment mentions. The raised start-of-race probability covers
  laps 1–3, not the first five.
- The safety-car counter is decremented on the lap the car is deployed
  (`race_simulator.py:79-87`). A period of length d therefore flags d − 1
  laps (`SafetyCarPeriod`).
- A DNF summary reports `LapsCompleted` as the lap on which the engine
  failed, one more than the laps logged (`SummaryOfRace`).

**Behaviour worth knowing and representation choices:**

- The track lookup matches table names as substrings, in table order, so
  "Spanish Grand Prix" gets Spa's constants (`SpanishGrandPrixMatchesSpa`).
- Parameters arrive as a Python dict. They are modelled as a `RaceConfig`
  record, and the tyre compound as an enumeration. `CompoundNamed` maps a
  compound name to the table row, falling back to medium as
  `TYRE_COMPOUNDS.get` does.

## Model

| member | source | states |
|---|---|---|
| `EngineModel.EnginePower` | engine_model.py:30-31 | a fully worn engine (degradation 1) produces no power; non-negative throttle and rpm with degradation at most 1 give non-negative power |
| `EngineModel.PowerScalesWithHealth` | engine_model.py:31 | power is the power of a new engine scaled by the remaining health `1 - degradation` |
| `EngineModel.StressFactor` | engine_model.py:49 | for stress in the documented range [0.5, 2] the stress multiplier lies in [0.75, 1.5] |
| `EngineModel.ProgressionFactor` | engine_model.py:52-53 | from the start of the race on (lap ≥ 0 of a positive distance) the progress multiplier is at least 1 |
| `EngineModel.WearIncrement` | engine_model.py:48-55 | for stress in [0.5, 2] and a lap within the race the wear added per lap is strictly positive |
| `EngineModel.UpdateEngineDeg` | engine_model.py:48-58 | the new wear always lies in [0, 1]; it is the old wear plus increment plus noise, clamped to 0 below and 1 above |
| `EngineModel.WearNeverDecreasesWithoutNoise` | engine_model.py:48-58 | with zero noise, wear never decreases, and it strictly increases unless it has reached the cap of 1 |
| `EngineModel.WearIncrementGrowsWithLap` | engine_model.py:52-55 | the wear increment grows with race progress: a later lap wears the engine at least as much |
| `EngineModel.EngineTelemetry` | engine_model.py:68-71 | throttle lies in [85, 100) for a uniform draw in [0, 1); the noise-free temperature lies in [90, 310] for wear in [0, 1] |
| `EngineModel.TemperatureRisesWithWear` | engine_model.py:70 | with the same noise, more wear gives a strictly higher temperature |
| `EngineModel.FuelEffect` | engine_model.py:95-97 | the fuel penalty is never negative, and it is zero exactly when the fuel burnt by this lap reaches the starting load |
| `EngineModel.FuelEffectNonIncreasing` | engine_model.py:95-97 | with a non-negative burn rate, later laps never carry a larger fuel penalty |
| `EngineModel.CompoundRow` | engine_model.py:104-108 | every compound's wear rate is in [0.010, 0.030] and its cliff lap in [12, 35]; only hard has a positive grip term (slower) |
| `EngineModel.CompoundNamed` | engine_model.py:125 | a known compound name selects its table row, and any other name selects the medium row |
| `EngineModel.PowerBernoulli` | engine_model.py:138 | 1.2 to the n is at least 1 + 0.2 n, so the cliff penalty grows at least linearly in the laps past the cliff |
| `EngineModel.PowerMonotone` | engine_model.py:138 | powers of 1.2 grow with the exponent |
| `EngineModel.TyreDegradation` | engine_model.py:111-141 | the grip term returned is the compound's table value, whatever the stint lap; the tyre penalty is never negative for a non-negative stint lap and track factor |
| `EngineModel.TyreLinearBeforeCliff` | engine_model.py:130-132 | up to the cliff lap the tyre penalty is the compound rate times the track factor times the stint lap |
| `EngineModel.TyreCliffIsContinuous` | engine_model.py:130-139 | the penalty has no jump at the cliff: the cliff formula evaluated at the cliff lap itself (0 laps over) gives the linear penalty |
| `EngineModel.TyreCliffAboveLinear` | engine_model.py:130-139 | past the cliff the penalty is at least what linear wear would have reached at that stint lap |
| `EngineModel.SoftCliffTight` | engine_model.py:105-139 | on stint lap 13 a soft tyre's penalty equals exactly what linear wear would give, so the linear bound past the cliff is tight |
| `EngineModel.TyrePenaltyMonotone` | engine_model.py:130-139 | for a non-negative track factor the tyre penalty never decreases as the stint gets longer |
| `EngineModel.SafetyCarProbability` | engine_model.py:163-169 | the deployment probability is 3.5 % on laps 1–3, 2 % on the later laps from total − 5 on (six laps, not five), and 1.2 % on every lap in between |
| `EngineModel.SafetyCarCheck` | engine_model.py:163-171 | the car is deployed exactly when the draw is below the lap's threshold: 3.5 % on laps 1–3, 2 % from lap total − 5 on, 1.2 % otherwise |
| `EngineModel.SafetyCarLaps` | engine_model.py:174-179 | a safety-car period lasts 3 to 6 laps, and every length in that range occurs |
| `RaceSimulator.FailureProbability` | race_simulator.py:114 | a car of reliability 1 never fails |
| `RaceSimulator.FailureRiskGrowsWithWear` | race_simulator.py:114 | for reliability at most 1 the failure probability never decreases as wear grows |
| `RaceSimulator.PowerSetsPace` | race_simulator.py:104-111 | without noise, an engine at the reference 900 hp leaves the green-flag lap at base + fuel + tyre + grip; with the same noise, more power never makes the lap slower |
| `RaceSimulator.SafetyCarStep` | race_simulator.py:79-87 | a flagged lap has a positive counter; a running period counts down by one and ends on the lap its counter reaches 0; a deployment flags the lap and sets the counter to the drawn length − 1; otherwise nothing changes |
| `RaceSimulator.UnpittedLapTime` | race_simulator.py:89-111 | a lap under the safety car takes the base lap time plus 30 s, whatever the fuel, tyres, power or noise |
| `RaceSimulator.NextState` | race_simulator.py:76-126 | wear after the lap lies in [0, 1]; the tyres are one lap older, or new (age 0) after the pit lap; the safety-car counter stays in 0 … 5 with a period running exactly while it is positive |
| `RaceSimulator.RecordOf` | race_simulator.py:89-140 | the logged row carries the lap's number, a wear in [0, 1] and a non-negative fuel penalty; a flagged lap logs base + 30 s plus the pit loss on the pit lap |
| `RaceSimulator.StateAfter` | race_simulator.py:63-126 | after every lap the wear lies in [0, 1], the tyre age lies between 0 and the laps run, and the safety-car counter lies in 0 … 5 with a period running exactly while it is positive |
| `RaceSimulator.FirstFailure` | race_simulator.py:113-118 | the failing lap found from lap `from` on lies between `from` and the last lap |
| `RaceSimulator.FirstFailureIsFirst` | race_simulator.py:113-118 | the lap found fails and no earlier lap fails; no lap is found exactly when no lap fails |
| `RaceSimulator.Records` | race_simulator.py:129-140 | the first n laps give exactly n rows |
| `RaceSimulator.RecordsAt` | race_simulator.py:129-140 | row i of the log is the record of lap i + 1 |
| `RaceSimulator.RecordsExtend` | race_simulator.py:129-140 | one more lap appends its record to the log |
| `RaceSimulator.SumExtend` | race_simulator.py:127 | the total grows by the lap time of each appended row |
| `RaceSimulator.Race` | race_simulator.py:75-143 | the race is a DNF exactly when a DNF lap is reported; a finished race logs every lap |
| `RaceSimulator.RaceOutcomeShape` | race_simulator.py:75-143 | a race is a DNF exactly when some lap's failure check fires; the DNF lap is then the first such lap, and only the laps before it are logged (its time is not in the total); otherwise every lap is logged; log rows are numbered 1, 2, … in order; the total is the sum of the logged lap times |
| `RaceSimulator.AdvanceSafetyCar` | race_simulator.py:79-87 | computes the safety-car flag and counter after the start-of-lap check and decrement |
| `RaceSimulator.RunLap` | race_simulator.py:76-140 | the lap fails exactly when the failure draw is below the risk of the wear the lap started with; otherwise it returns the next state and the lap's record |
| `RaceSimulator.RaceLap` | race_simulator.py:76-140 | run from the state after lap − 1, the lap fails exactly when that lap's failure check fires; otherwise it yields the state after the lap and the lap's record |
| `RaceSimulator.NextLapDone` | race_simulator.py:119-140 | a lap whose failure check does not fire hands on the state after that lap, appends that lap's record to the log and adds its time to the total |
| `RaceSimulator.RaceWhenFailing` | race_simulator.py:113-118 | when laps 1 … k − 1 went through and lap k's failure check fires, the race is the DNF at k, with the log and total of those k − 1 laps |
| `RaceSimulator.RaceWhenComplete` | race_simulator.py:75-143 | when every lap went through, the race is finished, with the log and total of all its laps |
| `RaceSimulator.SimulateRace` | race_simulator.py:63-143 | the loop's outcome (total, log, DNF flag, DNF lap) is `Race` for the same configuration and draws |
| `RaceProperties.StintAfter` | race_simulator.py:76-123 | after n laps the tyres are n laps old, or n − pit lap laps old once the pit lap has passed |
| `RaceProperties.TyreAgeOnLap` | race_simulator.py:76-123 | lap L's tyre penalty is taken at stint lap L up to the pit lap and at L − pit lap after it |
| `RaceProperties.PitLossChargedOnce` | race_simulator.py:121-127 | the first n laps take their unpitted times plus the pit loss exactly once if the pit lap is among them |
| `RaceProperties.PitLossInTotal` | race_simulator.py:113-127 | a race's total contains the pit loss exactly when the pit lap was logged, i.e. the car did not fail on or before it |
| `RaceProperties.LoggedWearIsPostUpdate` | race_simulator.py:126-136 | the wear logged for lap L is the value after lap L's update, and lies in [0, 1] |
| `RaceProperties.FailureUsesWearEnteringLap` | race_simulator.py:113-126 | lap L's failure check uses the wear lap L started with: none on lap 1, else the wear logged for lap L − 1 |
| `RaceProperties.NeverDnfWithFullReliability` | race_simulator.py:113-118 | with reliability 1 (and failure draws in [0, 1)) the race always finishes and logs every lap |
| `RaceProperties.SafetyCarPeriod` | race_simulator.py:79-87 | a period of d laps deployed on lap L has counter d − 1 − j after lap L + j and flags laps L … L + d − 2, no more |
| `RaceProperties.NoSafetyCarWhenDisabled` | race_simulator.py:79-87 | with the safety car disabled no period ever starts and no lap is flagged |
| `RaceProperties.SafetyCarLapTime` | race_simulator.py:100-122 | a flagged lap takes the base lap time plus 30 s, plus the pit loss if it is the pit lap |
| `MonteCarlo.Summary` | race_simulator.py:206-219 | a row keeps the run id; finished is "not DNF"; total and mean lap time are present exactly when the race finished, the total then being the race total; a DNF reports its failing lap as laps completed; the safety-car count is the number of flagged log rows |
| `MonteCarlo.CountFlaggedCountsFlags` | race_simulator.py:210 | the safety-car lap count is the number of log rows whose flag is set |
| `MonteCarlo.MaxLapOfNumberedLog` | race_simulator.py:206 | the largest lap number of a log numbered 1, 2, … is its length |
| `MonteCarlo.CountFlaggedIsZeroWhenNoneFlagged` | race_simulator.py:210 | a log without flagged laps counts zero safety-car laps |
| `MonteCarlo.CountFlaggedAtMostLength` | race_simulator.py:210 | the safety-car lap count never exceeds the laps logged |
| `MonteCarlo.SummaryOfRace` | race_simulator.py:204-219 | a run's row: finished is "not DNF"; total and mean lap time are present exactly when the race finished, and then equal the sum of lap times and that sum over the distance; laps completed is the failing lap (logged laps + 1) on a DNF and the distance otherwise; the safety-car count is the number of flagged rows of the race's log, between 0 and the laps logged |
| `MonteCarlo.NoSafetyCarLapsWhenDisabled` | race_simulator.py:204-219 | with the safety car disabled every row reports zero safety-car laps |
| `MonteCarlo.RunMonteCarlo` | race_simulator.py:190-221 | one row per run, in run order; row i is the summary of the race on run i's draws |
| `StrategyOptimizer.TruncFifth` | race_simulator.py:158-159 | the quotient truncated toward zero: 5q ≤ x < 5q + 5 for x ≥ 0 and 5q − 5 < x ≤ 5q below |
| `StrategyOptimizer.MinPit` | race_simulator.py:158 | the window starts at the larger of lap 5 and a fifth of the race |
| `StrategyOptimizer.MaxPit` | race_simulator.py:159 | the window ends at the smaller of five laps before the end and four fifths of the race |
| `StrategyOptimizer.PitLapsShape` | race_simulator.py:162 | the candidate pit laps are lo, lo + 2, … up to hi: (hi − lo) / 2 + 1 of them, none when hi < lo |
| `StrategyOptimizer.PitWindowInsideRace` | race_simulator.py:158-162 | every candidate pit lap lies in [5, laps − 5] and between a fifth and four fifths of the race |
| `StrategyOptimizer.NoWindowForShortRace` | race_simulator.py:158-162 | a race of fewer than 10 laps has no candidate pit lap |
| `StrategyOptimizer.RowStartMonotone` | race_simulator.py:161-162 | rows of the grid start in compound order |
| `StrategyOptimizer.GridRowsLength` | race_simulator.py:161-162 | the first k compound rows hold k × window cells |
| `StrategyOptimizer.GridRowsAt` | race_simulator.py:161-165 | cell j of compound row i pairs compound i with the j-th pit lap |
| `StrategyOptimizer.GridAt` | race_simulator.py:161-165 | in search order, cell j of row i of the grid pairs compound i (soft, medium, hard) with pit lap j of the window |
| `StrategyOptimizer.GridEnd` | race_simulator.py:161-162 | the grid holds three rows of window size, and every cell's pit lap is in the window |
| `StrategyOptimizer.GridCellsFromWindow` | race_simulator.py:162-165 | every cell's pit lap comes from the window |
| `StrategyOptimizer.CellConfigKeepsTheRest` | race_simulator.py:163-166 | a cell's race differs from the caller's configuration only in compound, pit lap and the safety car, which is switched off |
| `StrategyOptimizer.CellRunsHaveNoSafetyCar` | race_simulator.py:166 | no lap of an optimiser race is a safety-car lap |
| `StrategyOptimizer.Batch` | race_simulator.py:169-170 | a batch of n runs yields n outcomes |
| `StrategyOptimizer.BatchStep` | race_simulator.py:169-170 | one more run appends its race to the batch |
| `StrategyOptimizer.FinishTimesAppend` | race_simulator.py:170-172 | a finished run appends its total to the finishing times, a DNF appends nothing |
| `StrategyOptimizer.FinishTimesNonEmpty` | race_simulator.py:168-172 | there are finishing times exactly when some run finished; never more times than runs |
| `StrategyOptimizer.FinishTimesAreFinishers` | race_simulator.py:168-172 | every finishing time is the total of a run that finished |
| `Stats.SumBounds` | race_simulator.py:175 | a sum of values in [lo, hi] lies between n·lo and n·hi |
| `Stats.MeanBetweenBounds` | race_simulator.py:175 | the mean of values in [lo, hi] lies in [lo, hi] |
| `StrategyOptimizer.Table` | race_simulator.py:161-172 | there is one batch of outcomes per grid cell |
| `StrategyOptimizer.TableRow` | race_simulator.py:163-172 | cell i's batch is the batch of races of cell i's configuration on cell i's draws |
| `StrategyOptimizer.TableEntry` | race_simulator.py:163-172 | run r of cell i is the race of cell i's configuration on its draws |
| `StrategyOptimizer.CellRow` | race_simulator.py:174-180 | a cell yields a row exactly when some run finished (not all are DNFs), and the row names the cell's compound and pit lap |
| `StrategyOptimizer.CellKeptIffSomeRunFinished` | race_simulator.py:174-180 | a cell is kept exactly when some run finished, and its expected time then lies between the slowest and fastest finishing totals |
| `StrategyOptimizer.Rows` | race_simulator.py:174-180 | one optional row per grid cell |
| `StrategyOptimizer.KeptNonEmptyIff` | race_simulator.py:174-183 | the rows kept from the first n cells are non-empty exactly when one of those cells has a row |
| `StrategyOptimizer.ArgMin` | race_simulator.py:186 | the chosen index lies within the rows |
| `StrategyOptimizer.ArgMinIsFirstMinimum` | race_simulator.py:185-187 | the chosen row is no slower than any row, and every row before it is strictly slower (the first minimum, as `idxmin` returns) |
| `StrategyOptimizer.Optimal` | race_simulator.py:151-187 | when there is an answer, its best row is one of the kept rows and no kept row has a smaller expected time |
| `StrategyOptimizer.OptimalIsFirstFastest` | race_simulator.py:174-187 | there is an answer exactly when some cell has a row; the best row is then a kept row that no kept row beats |
| `StrategyOptimizer.SomeRunFinishes` | race_simulator.py:168-174 | a cell's runs are not all DNFs exactly when one of its races finishes |
| `StrategyOptimizer.AnswerIffSomeRaceFinishes` | race_simulator.py:168-183 | the optimiser has an answer exactly when some race of some grid cell finishes, i.e. it returns None exactly when every race it runs is a DNF |
| `StrategyOptimizer.AnswerWithFullReliability` | race_simulator.py:113-183 | with reliability 1, failure draws in [0, 1), at least one run per cell and a non-empty window, the optimiser always returns an answer |
| `StrategyOptimizer.RunBatch` | race_simulator.py:168-172 | the collected times are the finishing totals of the batch, in run order |
| `StrategyOptimizer.EvaluateCell` | race_simulator.py:168-180 | the cell's result is the row its batch yields (none when all runs fail) |
| `StrategyOptimizer.SearchCell` | race_simulator.py:163-180 | after visiting grid cell idx the results are the rows kept from cells 0 … idx |
| `StrategyOptimizer.SearchRow` | race_simulator.py:162-180 | after one compound's pit laps the results are the rows kept from every cell up to the end of that compound's row |
| `StrategyOptimizer.FindOptimalStrategy` | race_simulator.py:151-187 | the answer (kept rows and best row, or None) is `Optimal` for the configuration, batch size and draws |
| `TrackCalibration.LowerChar` | fastf1_helper.py:96 | lower-casing leaves no capital, maps A–Z to a–z and keeps every other character |
| `TrackCalibration.LowerIsIdempotent` | fastf1_helper.py:96 | a lower-cased string has no capitals, and lower-casing it again changes nothing |
| `TrackCalibration.FirstMatch` | fastf1_helper.py:95-100 | when every row of the table is in range, so is the lookup's result |
| `TrackCalibration.FirstMatchIsFirst` | fastf1_helper.py:95-100 | the result is the first matching entry in table order, and the default when no entry matches |
| `TrackCalibration.FirstMatchIsARow` | fastf1_helper.py:83-100 | the result is always some table row's constants or the default |
| `TrackCalibration.TrackConstantsOf` | fastf1_helper.py:83-100 | every venue, known or not, gets a pit loss in [18, 28] s and a degradation factor in [0.7, 1.4] |
| `TrackCalibration.CaseInsensitive` | fastf1_helper.py:96 | venue names that agree after lower-casing get the same constants |
| `TrackCalibration.PrefixMatches` | fastf1_helper.py:96 | a venue that starts with an entry's name matches that entry |
| `TrackCalibration.AbsentLetter` | fastf1_helper.py:96 | a venue without one of a name's letters does not match it |
| `TrackCalibration.MonacoGrandPrix` | fastf1_helper.py:84-97 | "Monaco Grand Prix" gets Monaco's constants (25 s, 0.8) |
| `TrackCalibration.SpanishGrandPrixSkipsEarlierEntries` | fastf1_helper.py:84-97 | none of the four entries ahead of Spa matches "Spanish Grand Prix" |
| `TrackCalibration.SpanishGrandPrixMatchesSpa` | fastf1_helper.py:84-97 | "Spanish Grand Prix" gets Spa's constants (21 s, 1.0), since "spa" is a substring of it |
| `TrackCalibration.GetTrackConstants` | fastf1_helper.py:76-100 | the loop returns the constants of the first entry, in table order, whose lower-cased name occurs in the lower-cased venue, and the default when none does |

## Left out

- Data loading from FastF1, the Streamlit UI (`app.py`) and the charts (`visuals.py`): these are I/O and presentation. `fastf1_helper.py` apart from `get_track_constants` is not part of this model.
- Random number generation: distributions, seeding and the order in which numpy's stream is consumed are not modelled. Every draw is an input (`LapDraws`). A lap ignores the draws its path does not use, where the simulator would not consume them.
- Floating-point rounding: all arithmetic is on `real`. The truncation `int(laps * 0.2)` / `int(laps * 0.8)` is modelled exactly for lap counts below 2^50. Above that the float product can round up to the next integer, and the model's pit window can then end one lap earlier than the simulator's. For a negative lap count the float product is not modelled, but the pit window is empty either way.
- pandas: DataFrames are sequences of records. `idxmin` is the first minimum (`ArgMin`). A summary's NaN cells are `None`.
- The parameter dictionary: `sim_params.copy()` and `**sim_params` become the value record `RaceConfig`, so the caller's configuration cannot change (`CellConfig`). A missing key (a `KeyError`) cannot occur in the model.
- `RaceConfig.tyreCompound` is a `Compound`, not a string. The `.get(compound, 'medium')` fallback for unknown names is modelled separately, by `CompoundNamed`.
- `TrackCalibration.LowerChar`: Python's `str.lower()` folds all of Unicode; the model lower-cases ASCII capitals only.
- `MonteCarlo.RunMonteCarlo` requires at least one lap per race when any run is made. A race of zero laps that finishes has an empty DataFrame, and `race_df['LapTime']` then raises `KeyError` in `run_monte_carlo`; that crash is not modelled.
- `RaceSimulator.GreenFlagLapTime`: numpy's `normal(0, lap_std)` raises `ValueError` for a negative `lap_std` on every green-flag lap (`race_simulator.py:110`); the model computes `lapStd * z` and does not model that exception. The other draws use fixed, valid parameters and raise nothing.
- `EngineModel.EngineTelemetry`: the temperature bound is stated for the noise-free part, because the normal noise term is unbounded.
- `StrategyOptimizer.FindOptimalStrategy`: the result rows are records, not a DataFrame with a positional index. The best row is returned as a value, not as `df.loc[best_idx]`.
