/**
 * The pit-strategy optimiser: a grid over compound (soft, medium, hard, in
 * that order) and pit lap (every second lap of a window), a batch of races
 * per cell with the safety car switched off, the mean finishing time of
 * each cell in which some race finished, and the first cell with the
 * smallest mean.
 */
module StrategyOptimizer {
  import opened Wrappers
  import opened EngineModel
  import opened RaceSimulator
  import opened RaceProperties
  import opened Stats

  /** The order in which compounds are tried. */
  const COMPOUND_ORDER: seq<Compound> := [Soft, Medium, Hard]

  /**
   * A fifth of x rounded toward zero, as converting x * 0.2 to an integer
   * does. For 0 <= x < 2^50 the floating-point product neither falls below
   * an integer it should reach nor rounds up to the next one, so there
   * this is exact; for larger x the float product can round up.
   */
  function TruncFifth(x: int): (q: int)
    ensures 0 <= x ==> 5 * q <= x < 5 * q + 5
    ensures x < 0 ==> 5 * q - 5 < x <= 5 * q
  {
    if 0 <= x then x / 5 else -((-x) / 5)
  }

  /** First pit lap tried: the larger of 5 and a fifth of the race distance. */
  function MinPit(laps: int): (p: int)
    ensures 5 <= p && TruncFifth(laps) <= p
    ensures p == 5 || p == TruncFifth(laps)
  {
    if TruncFifth(laps) > 5 then TruncFifth(laps) else 5
  }

  /** Last pit lap allowed: the smaller of laps - 5 and four fifths of the race distance. */
  function MaxPit(laps: int): (p: int)
    ensures p <= laps - 5 && p <= TruncFifth(4 * laps)
    ensures p == laps - 5 || p == TruncFifth(4 * laps)
  {
    if laps - 5 < TruncFifth(4 * laps) then laps - 5 else TruncFifth(4 * laps)
  }

  /** lo, lo + 2, lo + 4, ... up to hi. */
  function PitLaps(lo: int, hi: int): seq<int>
    decreases hi - lo
  {
    if hi < lo then [] else [lo] + PitLaps(lo + 2, hi)
  }

  /** The pit laps are lo + 2i for i = 0, 1, ..., none past hi, and there are (hi - lo) / 2 + 1 of them. */
  lemma {:induction false} PitLapsShape(lo: int, hi: int)
    ensures |PitLaps(lo, hi)| == if hi < lo then 0 else (hi - lo) / 2 + 1
    ensures forall i :: 0 <= i < |PitLaps(lo, hi)| ==> PitLaps(lo, hi)[i] == lo + 2 * i <= hi
    decreases hi - lo
  {
    if lo <= hi {
      PitLapsShape(lo + 2, hi);
      var rest := PitLaps(lo + 2, hi);
      assert PitLaps(lo, hi) == [lo] + rest;
      forall i | 1 <= i < |PitLaps(lo, hi)| ensures PitLaps(lo, hi)[i] == lo + 2 * i <= hi {
        assert PitLaps(lo, hi)[i] == rest[i - 1];
      }
    }
  }

  /** The pit laps tried for a race of `laps` laps. */
  function PitWindow(laps: int): seq<int>
  {
    PitLaps(MinPit(laps), MaxPit(laps))
  }

  /** Every pit lap tried lies in the window [5, laps - 5], so the stop happens during the race. */
  lemma PitWindowInsideRace(laps: int)
    ensures forall i :: 0 <= i < |PitWindow(laps)| ==>
      5 <= PitWindow(laps)[i] <= laps - 5
      && TruncFifth(laps) <= PitWindow(laps)[i] <= TruncFifth(4 * laps)
  {
    PitLapsShape(MinPit(laps), MaxPit(laps));
  }

  /** A short race leaves no pit lap to try: under 10 laps the window is empty. */
  lemma NoWindowForShortRace(laps: int)
    requires laps < 10
    ensures PitWindow(laps) == []
  {
  }

  datatype GridCell = GridCell(compound: Compound, pitLap: int)

  /** Index of the first cell of row ci in a grid with rows of n cells. */
  function RowStart(ci: nat, n: nat): nat
  {
    if ci == 0 then 0 else RowStart(ci - 1, n) + n
  }

  /** Rows start in order: row ci + 1 starts n cells after row ci, so row ci's cells come before row cj's when ci < cj. */
  lemma {:induction false} RowStartMonotone(ci: nat, cj: nat, n: nat)
    requires ci <= cj
    ensures RowStart(ci, n) <= RowStart(cj, n)
    ensures ci < cj ==> RowStart(ci, n) + n <= RowStart(cj, n)
    decreases cj
  {
    if ci < cj {
      RowStartMonotone(ci, cj - 1, n);
    }
  }

  /** The first k rows of the grid: compound k - 1 paired with every pit lap, after the rows before it. */
  function GridRows(k: nat, pits: seq<int>): seq<GridCell>
    requires k <= |COMPOUND_ORDER|
  {
    if k == 0 then []
    else
      GridRows(k - 1, pits)
      + seq(|pits|, j requires 0 <= j < |pits| => GridCell(COMPOUND_ORDER[k - 1], pits[j]))
  }

  /** The grid in the order it is searched: by compound, then by pit lap. */
  function Grid(laps: int): seq<GridCell>
  {
    GridRows(|COMPOUND_ORDER|, PitWindow(laps))
  }

  lemma {:induction false} GridRowsLength(k: nat, pits: seq<int>)
    requires k <= |COMPOUND_ORDER|
    ensures |GridRows(k, pits)| == RowStart(k, |pits|)
  {
    if k > 0 {
      GridRowsLength(k - 1, pits);
    }
  }

  /** Cell pj of row ci pairs compound ci with pit lap pj. */
  lemma {:induction false} GridRowsAt(k: nat, pits: seq<int>, ci: nat, pj: nat)
    requires ci < k <= |COMPOUND_ORDER| && pj < |pits|
    ensures RowStart(ci, |pits|) + pj < |GridRows(k, pits)|
    ensures GridRows(k, pits)[RowStart(ci, |pits|) + pj] == GridCell(COMPOUND_ORDER[ci], pits[pj])
  {
    GridRowsLength(k - 1, pits);
    GridRowsLength(k, pits);
    if ci < k - 1 {
      GridRowsAt(k - 1, pits, ci, pj);
    }
  }

  /** Cell pj of row ci of the grid pairs compound ci with pit lap pj of the window. */
  lemma GridAt(laps: int, ci: nat, pj: nat)
    requires ci < |COMPOUND_ORDER| && pj < |PitWindow(laps)|
    ensures var n := |PitWindow(laps)|;
      RowStart(ci, n) + pj < |Grid(laps)|
      && Grid(laps)[RowStart(ci, n) + pj] == GridCell(COMPOUND_ORDER[ci], PitWindow(laps)[pj])
  {
    GridRowsAt(|COMPOUND_ORDER|, PitWindow(laps), ci, pj);
  }

  /** The last row ends the grid, which holds every compound with every pit lap of the window. */
  lemma GridEnd(laps: int)
    ensures |Grid(laps)| == RowStart(|COMPOUND_ORDER|, |PitWindow(laps)|)
    ensures forall idx :: 0 <= idx < |Grid(laps)| ==> Grid(laps)[idx].pitLap in PitWindow(laps)
  {
    GridRowsLength(|COMPOUND_ORDER|, PitWindow(laps));
    GridCellsFromWindow(|COMPOUND_ORDER|, PitWindow(laps));
  }

  lemma {:induction false} GridCellsFromWindow(k: nat, pits: seq<int>)
    requires k <= |COMPOUND_ORDER|
    ensures forall idx :: 0 <= idx < |GridRows(k, pits)| ==> GridRows(k, pits)[idx].pitLap in pits
  {
    if k > 0 {
      GridCellsFromWindow(k - 1, pits);
    }
  }

  /** A cell's race: the caller's configuration with the cell's compound and pit lap, safety car off. */
  function CellConfig(cfg: RaceConfig, cell: GridCell): RaceConfig
  {
    cfg.(tyreCompound := cell.compound, pitLap := cell.pitLap, enableSafetyCar := false)
  }

  /** A cell's configuration differs from the caller's only in compound, pit lap and safety car. */
  lemma CellConfigKeepsTheRest(cfg: RaceConfig, cell: GridCell)
    ensures CellConfig(cfg, cell).(tyreCompound := cfg.tyreCompound, pitLap := cfg.pitLap,
                                   enableSafetyCar := cfg.enableSafetyCar) == cfg
    ensures CellConfig(cfg, cell).laps == cfg.laps && !CellConfig(cfg, cell).enableSafetyCar
  {
  }

  /** The number of runs a batch of `numSims` performs. */
  function RunCount(numSims: int): nat
  {
    if numSims < 0 then 0 else numSims
  }

  /** The outcomes of the first n runs of `cfg`, run r on draws `runs[r]`. */
  function Batch(cfg: RaceConfig, runs: seq<seq<LapDraws>>, n: nat): (os: seq<RaceOutcome>)
    requires n <= |runs|
    requires forall r :: 0 <= r < |runs| ==> cfg.laps <= |runs[r]|
    ensures |os| == n
  {
    seq(n, r requires 0 <= r < n => Race(cfg, runs[r]))
  }

  lemma BatchStep(cfg: RaceConfig, runs: seq<seq<LapDraws>>, n: nat)
    requires n < |runs|
    requires forall r :: 0 <= r < |runs| ==> cfg.laps <= |runs[r]|
    ensures Batch(cfg, runs, n + 1) == Batch(cfg, runs, n) + [Race(cfg, runs[n])]
  {
  }

  /** The finishing times of a batch, in run order; runs that end in a DNF are skipped. */
  function FinishTimes(os: seq<RaceOutcome>): seq<real>
  {
    if |os| == 0 then []
    else
      var last := os[|os| - 1];
      FinishTimes(os[..|os| - 1]) + if last.dnf then [] else [last.totalTime]
  }

  /** Appending a run appends its time exactly when it finished. */
  lemma FinishTimesAppend(os: seq<RaceOutcome>, o: RaceOutcome)
    ensures FinishTimes(os + [o]) == FinishTimes(os) + if o.dnf then [] else [o.totalTime]
  {
    assert (os + [o])[..|os|] == os;
  }

  /** Every run of the batch ended in a DNF. */
  predicate AllDnf(os: seq<RaceOutcome>)
  {
    forall r :: 0 <= r < |os| ==> os[r].dnf
  }

  /**
   * A batch yields no finishing time exactly when every run ended in a DNF,
   * and never more times than runs.
   */
  lemma {:induction false} FinishTimesNonEmpty(os: seq<RaceOutcome>)
    ensures |FinishTimes(os)| == 0 <==> AllDnf(os)
    ensures |FinishTimes(os)| <= |os|
  {
    if |os| > 0 {
      var init := os[..|os| - 1];
      FinishTimesNonEmpty(init);
      if AllDnf(os) {
        assert forall r :: 0 <= r < |init| ==> init[r] == os[r];
      }
      if !AllDnf(init) {
        var r :| 0 <= r < |init| && !init[r].dnf;
        assert !os[r].dnf;
      }
    }
  }

  /** Every finishing time is the total of a run of the batch that finished. */
  lemma {:induction false} FinishTimesAreFinishers(os: seq<RaceOutcome>, i: int)
    requires 0 <= i < |FinishTimes(os)|
    ensures exists r :: 0 <= r < |os| && !os[r].dnf && FinishTimes(os)[i] == os[r].totalTime
  {
    var init := os[..|os| - 1];
    if i < |FinishTimes(init)| {
      FinishTimesAreFinishers(init, i);
      var r :| 0 <= r < |init| && !init[r].dnf && FinishTimes(init)[i] == init[r].totalTime;
      assert os[r] == init[r];
    } else {
      assert !os[|os| - 1].dnf && FinishTimes(os)[i] == os[|os| - 1].totalTime;
    }
  }

  datatype StrategyCell = StrategyCell(compound: Compound, pitLap: int, expectedTime: real)

  /** The draws cover every run of every cell. */
  predicate DrawsCover(cfg: RaceConfig, numSims: int, draws: seq<seq<seq<LapDraws>>>)
  {
    && |Grid(cfg.laps)| <= |draws|
    && (forall c :: 0 <= c < |draws| ==> RunCount(numSims) <= |draws[c]|)
    && (forall c, r :: 0 <= c < |draws| && 0 <= r < |draws[c]| ==> cfg.laps <= |draws[c][r]|)
  }

  /** The outcomes of every batch of the search: row idx holds grid cell idx's runs. */
  function Table(cfg: RaceConfig, numSims: int, draws: seq<seq<seq<LapDraws>>>): (t: seq<seq<RaceOutcome>>)
    requires DrawsCover(cfg, numSims, draws)
    ensures |t| == |Grid(cfg.laps)|
  {
    var grid := Grid(cfg.laps);
    seq(|grid|, idx requires 0 <= idx < |grid| =>
      Batch(CellConfig(cfg, grid[idx]), draws[idx], RunCount(numSims)))
  }

  /** Row idx of the table is the batch of grid cell idx on its draws. */
  lemma TableRow(cfg: RaceConfig, numSims: int, draws: seq<seq<seq<LapDraws>>>, idx: int)
    requires DrawsCover(cfg, numSims, draws)
    requires 0 <= idx < |Grid(cfg.laps)|
    ensures Table(cfg, numSims, draws)[idx] == Batch(CellConfig(cfg, Grid(cfg.laps)[idx]), draws[idx], RunCount(numSims))
  {
  }

  /** Run r of cell idx is the race of that cell's configuration on its draws. */
  lemma TableEntry(cfg: RaceConfig, numSims: int, draws: seq<seq<seq<LapDraws>>>, idx: int, r: int)
    requires DrawsCover(cfg, numSims, draws)
    requires 0 <= idx < |Grid(cfg.laps)| && 0 <= r < RunCount(numSims)
    ensures |Table(cfg, numSims, draws)[idx]| == RunCount(numSims)
    ensures Table(cfg, numSims, draws)[idx][r] == Race(CellConfig(cfg, Grid(cfg.laps)[idx]), draws[idx][r])
  {
  }

  /**
   * A cell's row: present exactly when some run finished, naming the cell's
   * compound and pit lap and holding the mean finishing time.
   */
  function CellRow(cell: GridCell, os: seq<RaceOutcome>): (row: Option<StrategyCell>)
    ensures row.None? <==> AllDnf(os)
    ensures row.Some? ==> row.value.compound == cell.compound && row.value.pitLap == cell.pitLap
  {
    var times := FinishTimes(os);
    FinishTimesNonEmpty(os);
    if |times| == 0 then None else Some(StrategyCell(cell.compound, cell.pitLap, Mean(times)))
  }

  /**
   * A cell is kept exactly when one of its runs finished; it then names its
   * grid cell, and its expected time is the mean of its finishing times,
   * which lies between the fastest and the slowest finishing run.
   */
  lemma CellKeptIffSomeRunFinished(cell: GridCell, os: seq<RaceOutcome>, lo: real, hi: real)
    requires forall r :: 0 <= r < |os| && !os[r].dnf ==> lo <= os[r].totalTime <= hi
    ensures CellRow(cell, os).None? <==> AllDnf(os)
    ensures CellRow(cell, os).Some? ==>
      && CellRow(cell, os).value.compound == cell.compound
      && CellRow(cell, os).value.pitLap == cell.pitLap
      && lo <= CellRow(cell, os).value.expectedTime <= hi
  {
    FinishTimesNonEmpty(os);
    var times := FinishTimes(os);
    if |times| > 0 {
      forall i | 0 <= i < |times| ensures lo <= times[i] <= hi {
        FinishTimesAreFinishers(os, i);
      }
      MeanBetweenBounds(times, lo, hi);
    }
  }

  /** The rows a cell contributes: its row if it has one. */
  function RowOf(row: Option<StrategyCell>): seq<StrategyCell>
  {
    match row
    case Some(r) => [r]
    case None => []
  }

  /** Every cell's row, in grid order: cell idx with the outcomes of its batch. */
  function Rows(grid: seq<GridCell>, table: seq<seq<RaceOutcome>>): (rows: seq<Option<StrategyCell>>)
    requires |grid| <= |table|
    ensures |rows| == |grid|
  {
    seq(|grid|, idx requires 0 <= idx < |grid| => CellRow(grid[idx], table[idx]))
  }

  /** The rows of the first n cells, in grid order, skipping cells without a row. */
  function Kept(rows: seq<Option<StrategyCell>>, n: nat): seq<StrategyCell>
    requires n <= |rows|
  {
    if n == 0 then [] else Kept(rows, n - 1) + RowOf(rows[n - 1])
  }

  /** Some row is kept exactly when one of the first n cells has a row. */
  lemma {:induction false} KeptNonEmptyIff(rows: seq<Option<StrategyCell>>, n: nat)
    requires n <= |rows|
    ensures |Kept(rows, n)| > 0 <==> exists idx :: 0 <= idx < n && rows[idx].Some?
  {
    if n > 0 {
      KeptNonEmptyIff(rows, n - 1);
      var last := rows[n - 1];
      assert |Kept(rows, n)| == |Kept(rows, n - 1)| + |RowOf(last)|;
      if last.Some? {
        assert |RowOf(last)| == 1 && rows[n - 1].Some?;
      } else {
        assert |RowOf(last)| == 0;
        if idx :| 0 <= idx < n && rows[idx].Some? {
          assert idx < n - 1;
        }
      }
    }
  }

  /** The index of the first row with the smallest expected time. */
  function ArgMin(rows: seq<StrategyCell>): (k: nat)
    requires |rows| > 0
    ensures k < |rows|
  {
    if |rows| == 1 then 0
    else
      var k := ArgMin(rows[..|rows| - 1]);
      if rows[|rows| - 1].expectedTime < rows[k].expectedTime then |rows| - 1 else k
  }

  /** ArgMin picks a row no other row beats, and every row before it is strictly slower. */
  lemma {:induction false} ArgMinIsFirstMinimum(rows: seq<StrategyCell>)
    requires |rows| > 0
    ensures forall i :: 0 <= i < |rows| ==> rows[ArgMin(rows)].expectedTime <= rows[i].expectedTime
    ensures forall i :: 0 <= i < ArgMin(rows) ==> rows[ArgMin(rows)].expectedTime < rows[i].expectedTime
  {
    if |rows| > 1 {
      var init := rows[..|rows| - 1];
      ArgMinIsFirstMinimum(init);
      assert forall i :: 0 <= i < |init| ==> init[i] == rows[i];
    }
  }

  datatype Strategy = Strategy(cells: seq<StrategyCell>, best: StrategyCell)

  /** The answer for the cells' rows: none when no row is kept, else the kept rows and the first best one. */
  function OptimalOf(rows: seq<Option<StrategyCell>>): Option<Strategy>
  {
    var kept := Kept(rows, |rows|);
    if |kept| == 0 then None else Some(Strategy(kept, kept[ArgMin(kept)]))
  }

  /** The optimiser's answer for a configuration, a batch size and the draws of every run. */
  function Optimal(cfg: RaceConfig, numSims: int, draws: seq<seq<seq<LapDraws>>>): (o: Option<Strategy>)
    requires DrawsCover(cfg, numSims, draws)
    ensures o.Some? ==> o.value.best in o.value.cells
    ensures o.Some? ==> forall c :: c in o.value.cells ==> o.value.best.expectedTime <= c.expectedTime
  {
    var rows := Rows(Grid(cfg.laps), Table(cfg, numSims, draws));
    OptimalIsFirstFastest(rows);
    OptimalOf(rows)
  }

  /**
   * There is an answer exactly when some cell has a row; the best row is
   * then one of the kept rows, no kept row is faster, and every kept row
   * before it in grid order is strictly slower.
   */
  lemma OptimalIsFirstFastest(rows: seq<Option<StrategyCell>>)
    ensures OptimalOf(rows).Some? <==> exists idx :: 0 <= idx < |rows| && rows[idx].Some?
    ensures var o := OptimalOf(rows);
      o.Some? ==>
        exists k :: 0 <= k < |o.value.cells| && o.value.best == o.value.cells[k]
          && (forall i :: 0 <= i < |o.value.cells| ==> o.value.best.expectedTime <= o.value.cells[i].expectedTime)
          && (forall i :: 0 <= i < k ==> o.value.best.expectedTime < o.value.cells[i].expectedTime)
  {
    KeptNonEmptyIff(rows, |rows|);
    var o := OptimalOf(rows);
    if o.Some? {
      ArgMinIsFirstMinimum(o.value.cells);
      var k := ArgMin(o.value.cells);
      assert o.value.best == o.value.cells[k];
    }
  }

  /** The optimiser has an answer exactly when some race of some cell finished. */
  lemma AnswerIffSomeRaceFinishes(cfg: RaceConfig, numSims: int, draws: seq<seq<seq<LapDraws>>>)
    requires DrawsCover(cfg, numSims, draws)
    ensures var grid := Grid(cfg.laps);
      Optimal(cfg, numSims, draws).Some?
      <==> exists idx, r :: 0 <= idx < |grid| && 0 <= r < RunCount(numSims)
             && !Race(CellConfig(cfg, grid[idx]), draws[idx][r]).dnf
  {
    var grid := Grid(cfg.laps);
    var table := Table(cfg, numSims, draws);
    var rows := Rows(grid, table);
    OptimalIsFirstFastest(rows);
    forall idx | 0 <= idx < |grid|
      ensures rows[idx].Some? <==> exists r :: 0 <= r < RunCount(numSims)
                                    && !Race(CellConfig(cfg, grid[idx]), draws[idx][r]).dnf
    {
      SomeRunFinishes(cfg, numSims, draws, idx);
    }
  }

  /** A cell's batch is not all DNFs exactly when one of its races finished. */
  lemma SomeRunFinishes(cfg: RaceConfig, numSims: int, draws: seq<seq<seq<LapDraws>>>, idx: int)
    requires DrawsCover(cfg, numSims, draws)
    requires 0 <= idx < |Grid(cfg.laps)|
    ensures !AllDnf(Table(cfg, numSims, draws)[idx])
        <==> exists r :: 0 <= r < RunCount(numSims)
               && !Race(CellConfig(cfg, Grid(cfg.laps)[idx]), draws[idx][r]).dnf
  {
    var os := Table(cfg, numSims, draws)[idx];
    TableRow(cfg, numSims, draws, idx);
    assert |os| == RunCount(numSims);
    forall r | 0 <= r < RunCount(numSims)
      ensures os[r] == Race(CellConfig(cfg, Grid(cfg.laps)[idx]), draws[idx][r])
    {
      TableEntry(cfg, numSims, draws, idx, r);
    }
  }

  /** With reliability 1 every cell's runs finish, so the optimiser always has an answer. */
  lemma AnswerWithFullReliability(cfg: RaceConfig, numSims: int, draws: seq<seq<seq<LapDraws>>>)
    requires DrawsCover(cfg, numSims, draws) && cfg.reliability == 1.0
    requires forall c, r, l :: 0 <= c < |draws| && 0 <= r < |draws[c]| && 0 <= l < |draws[c][r]|
               ==> 0.0 <= draws[c][r][l].dnfU
    requires 1 <= numSims && 0 < |Grid(cfg.laps)|
    ensures Optimal(cfg, numSims, draws).Some?
  {
    var grid := Grid(cfg.laps);
    TableEntry(cfg, numSims, draws, 0, 0);
    NeverDnfWithFullReliability(CellConfig(cfg, grid[0]), draws[0][0]);
    AnswerIffSomeRaceFinishes(cfg, numSims, draws);
  }

  /** No race the optimiser runs ever flags a safety-car lap. */
  lemma CellRunsHaveNoSafetyCar(cfg: RaceConfig, cell: GridCell, draws: seq<LapDraws>, lap: int)
    requires 1 <= lap <= cfg.laps && lap <= |draws|
    ensures !LapRecordAt(CellConfig(cfg, cell), draws, lap).safetyCar
  {
    NoSafetyCarWhenDisabled(CellConfig(cfg, cell), draws, lap);
  }

  /** One cell's batch: `numSims` races of `cellCfg`, keeping the finishing times. */
  method RunBatch(cellCfg: RaceConfig, numSims: int, runs: seq<seq<LapDraws>>) returns (simTimes: seq<real>)
    requires RunCount(numSims) <= |runs|
    requires forall r :: 0 <= r < |runs| ==> cellCfg.laps <= |runs[r]|
    ensures simTimes == FinishTimes(Batch(cellCfg, runs, RunCount(numSims)))
  {
    simTimes := [];
    ghost var outcomes: seq<RaceOutcome> := [];
    var run := 0;
    while run < numSims
      invariant 0 <= run <= RunCount(numSims)
      invariant outcomes == Batch(cellCfg, runs, run)
      invariant simTimes == FinishTimes(outcomes)
    {
      var outcome := SimulateRace(cellCfg, runs[run]);
      FinishTimesAppend(outcomes, outcome);
      BatchStep(cellCfg, runs, run);
      if !outcome.dnf {
        simTimes := simTimes + [outcome.totalTime];
      }
      outcomes := outcomes + [outcome];
      run := run + 1;
    }
  }

  /** One cell of the search: its batch, and its row when some run finished. */
  method EvaluateCell(cellCfg: RaceConfig, cell: GridCell, numSims: int, runs: seq<seq<LapDraws>>)
    returns (row: Option<StrategyCell>)
    requires RunCount(numSims) <= |runs|
    requires forall r :: 0 <= r < |runs| ==> cellCfg.laps <= |runs[r]|
    ensures row == CellRow(cell, Batch(cellCfg, runs, RunCount(numSims)))
  {
    var simTimes := RunBatch(cellCfg, numSims, runs);
    if |simTimes| > 0 {
      row := Some(StrategyCell(cell.compound, cell.pitLap, Mean(simTimes)));
    } else {
      row := None;
    }
  }

  /**
   * One cell of the grid search, compound ci with pit lap pj of the window:
   * its batch runs on the draws at its grid index, and its row is appended
   * when some run finished.
   */
  method SearchCell(cfg: RaceConfig, numSims: int, draws: seq<seq<seq<LapDraws>>>, ci: nat, pits: seq<int>, pj: nat,
                    results0: seq<StrategyCell>, idx: nat)
    returns (results: seq<StrategyCell>)
    requires DrawsCover(cfg, numSims, draws)
    requires ci < |COMPOUND_ORDER| && pits == PitWindow(cfg.laps) && pj < |pits|
    requires idx == RowStart(ci, |pits|) + pj < |Grid(cfg.laps)|
    requires results0 == Kept(Rows(Grid(cfg.laps), Table(cfg, numSims, draws)), idx)
    ensures results == Kept(Rows(Grid(cfg.laps), Table(cfg, numSims, draws)), idx + 1)
  {
    ghost var grid := Grid(cfg.laps);
    ghost var table := Table(cfg, numSims, draws);
    var compound := COMPOUND_ORDER[ci];
    var pitLap := pits[pj];
    GridAt(cfg.laps, ci, pj);
    var testCfg := cfg.(tyreCompound := compound, pitLap := pitLap, enableSafetyCar := false);
    assert CellConfig(cfg, grid[idx]) == testCfg;
    TableRow(cfg, numSims, draws, idx);
    var row := EvaluateCell(testCfg, GridCell(compound, pitLap), numSims, draws[idx]);
    results := results0 + RowOf(row);
  }

  /** One row of the grid search: compound ci with every pit lap of the window in turn. */
  method SearchRow(cfg: RaceConfig, numSims: int, draws: seq<seq<seq<LapDraws>>>, ci: nat, pits: seq<int>,
                   results0: seq<StrategyCell>, idx0: nat)
    returns (results: seq<StrategyCell>, idx: nat)
    requires DrawsCover(cfg, numSims, draws)
    requires ci < |COMPOUND_ORDER| && pits == PitWindow(cfg.laps)
    requires |Grid(cfg.laps)| == RowStart(|COMPOUND_ORDER|, |pits|)
    requires idx0 == RowStart(ci, |pits|) <= |Grid(cfg.laps)|
    requires results0 == Kept(Rows(Grid(cfg.laps), Table(cfg, numSims, draws)), idx0)
    ensures idx == RowStart(ci + 1, |pits|) <= |Grid(cfg.laps)|
    ensures results == Kept(Rows(Grid(cfg.laps), Table(cfg, numSims, draws)), idx)
  {
    RowStartMonotone(ci + 1, |COMPOUND_ORDER|, |pits|);
    results, idx := results0, idx0;
    for pj := 0 to |pits|
      invariant idx == RowStart(ci, |pits|) + pj <= |Grid(cfg.laps)|
      invariant results == Kept(Rows(Grid(cfg.laps), Table(cfg, numSims, draws)), idx)
    {
      results := SearchCell(cfg, numSims, draws, ci, pits, pj, results, idx);
      idx := idx + 1;
    }
  }

  /**
   * The grid search: for each compound in order, for each pit lap of the
   * window, a batch of races on that cell's draws (cell index = compound
   * position times window size plus pit-lap position); then no answer when
   * no cell was kept, else the kept rows and the first fastest one.
   */
  method FindOptimalStrategy(cfg: RaceConfig, numSims: int, draws: seq<seq<seq<LapDraws>>>)
    returns (result: Option<Strategy>)
    requires DrawsCover(cfg, numSims, draws)
    ensures result == Optimal(cfg, numSims, draws)
  {
    var results: seq<StrategyCell> := [];
    var laps := cfg.laps;
    var fifth, fourFifths := TruncFifth(laps), TruncFifth(4 * laps);
    var minPit := if fifth > 5 then fifth else 5;
    var maxPit := if laps - 5 < fourFifths then laps - 5 else fourFifths;
    var pits := PitLaps(minPit, maxPit);  // minPit, minPit + 2, ... up to maxPit
    assert minPit == MinPit(laps) && maxPit == MaxPit(laps);
    GridEnd(laps);

    var idx := 0;  // position of the current cell in the grid, which selects its draws
    for ci := 0 to |COMPOUND_ORDER|
      invariant idx == RowStart(ci, |pits|) <= |Grid(laps)|
      invariant results == Kept(Rows(Grid(laps), Table(cfg, numSims, draws)), idx)
    {
      results, idx := SearchRow(cfg, numSims, draws, ci, pits, results, idx);
      RowStartMonotone(ci + 1, |COMPOUND_ORDER|, |pits|);
    }

    if |results| == 0 {
      return None;
    }
    var bestIdx := ArgMin(results);
    result := Some(Strategy(results, results[bestIdx]));
  }
}
