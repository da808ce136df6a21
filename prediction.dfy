// The list and index arithmetic of `generate_state_prediction`: the drawn
// parameter samples are simulated, each simulated series becomes a
// cumulative forecast that continues the observed totals, and one row per
// simulated day after the data collects the forecasts of all draws.  The
// statistics of each row (mean, standard deviation, percentiles) and the
// dates are not modelled.
module Prediction {
  import opened Wrappers
  import opened PyLists
  import opened ParamNames
  import opened ApproxTypes
  import opened Simulation
  import opened Samples
  import opened MovingWindow

  /** `start_ind_sol = len(data_new_tested) + burn_in`: the first simulated
      day after the observations. */
  function StartIndSol(nData: nat, burnIn: nat): nat {
    nData + burnIn
  }

  /** `start_ind_data = start_ind_sol - 1 - burn_in`. */
  function StartIndData(nData: nat, burnIn: nat): int {
    StartIndSol(nData, burnIn) - 1 - burnIn
  }

  /** `np.cumsum(data)[start_ind_data]`; `None` is the IndexError. */
  function DataAtStart(data: seq<real>, startIndData: int): Option<real> {
    PyIndex(CumSum(data), startIndData)
  }

  /** The data index is the last observed day, so the value at the start is
      the total of a series as long as the tested series, and there is none
      for an empty one. */
  lemma DataAtStartIsTotal(data: seq<real>, nData: nat, burnIn: nat)
    requires |data| == nData
    ensures StartIndData(nData, burnIn) == nData - 1
    ensures DataAtStart(data, StartIndData(nData, burnIn)).Some? <==> nData > 0
    ensures DataAtStart(data, StartIndData(nData, burnIn)).Some? ==>
      DataAtStart(data, StartIndData(nData, burnIn)).value == Sum(data)
  {
    if nData > 0 {
      assert data[..nData - 1 + 1] == data;
    }
  }

  /** `xs[start:]`. */
  function Tail<T>(xs: seq<T>, start: nat): (r: seq<T>)
    ensures |r| == Max(|xs| - start, 0)
    ensures forall k :: 0 <= k < |r| ==> r[k] == xs[start + k]
  {
    if start <= |xs| then xs[start..] else []
  }

  /** `[0] * start_ind_sol + [at_start + v for v in np.cumsum(new[start_ind_sol:])]`. */
  function CumulativeForecast(newVals: seq<real>, start: nat, atStart: real): seq<real> {
    var range := CumSum(Tail(newVals, start));
    seq(start, _ => 0.0) + seq(|range|, k requires 0 <= k < |range| => atStart + range[k])
  }

  /** The forecast is as long as the simulated series (or the padding, if
      that is longer), zero up to the start, and from the start on the total
      at the start plus the simulated new values since the start. */
  lemma CumulativeForecastShape(newVals: seq<real>, start: nat, atStart: real)
    ensures |CumulativeForecast(newVals, start, atStart)| == Max(start, |newVals|)
    ensures forall k :: 0 <= k < start ==> CumulativeForecast(newVals, start, atStart)[k] == 0.0
    ensures forall k :: start <= k < |newVals| ==>
      CumulativeForecast(newVals, start, atStart)[k] == atStart + Sum(newVals[start..k + 1])
  {
    var t := Tail(newVals, start);
    forall k | start <= k < |newVals|
      ensures CumulativeForecast(newVals, start, atStart)[k] == atStart + Sum(newVals[start..k + 1])
    {
      assert t[..k - start + 1] == newVals[start..k + 1];
    }
  }

  /** Adding non-negative values never lowers a running sum. */
  lemma {:induction false} PrefixSumsGrow(xs: seq<real>, j: nat, k: nat)
    requires j <= k <= |xs|
    requires forall i :: 0 <= i < |xs| ==> xs[i] >= 0.0
    ensures Sum(xs[..j]) <= Sum(xs[..k])
    decreases k - j
  {
    if j < k {
      PrefixSumsGrow(xs, j, k - 1);
      assert xs[..k][..k - 1] == xs[..k - 1];
    }
  }

  /** With non-negative simulated values the forecast never falls below the
      total at the start and never decreases after it. */
  lemma ForecastMonotone(newVals: seq<real>, start: nat, atStart: real, j: nat, k: nat)
    requires start <= j <= k < |newVals|
    requires forall i :: start <= i < |newVals| ==> newVals[i] >= 0.0
    ensures atStart <= CumulativeForecast(newVals, start, atStart)[j] <= CumulativeForecast(newVals, start, atStart)[k]
  {
    var t := Tail(newVals, start);
    var f := CumulativeForecast(newVals, start, atStart);
    assert f[j] == atStart + Sum(t[..j - start + 1]);
    assert f[k] == atStart + Sum(t[..k - start + 1]);
    PrefixSumsGrow(t, 0, j - start + 1);
    PrefixSumsGrow(t, j - start + 1, k - start + 1);
  }

  /** The four lists built from the simulated draws: new and cumulative
      values of both series. */
  datatype Forecasts = Forecasts(newTested: seq<seq<real>>, newDead: seq<seq<real>>,
                                 tested: seq<seq<real>>, dead: seq<seq<real>>)

  /** What the loop over the simulated draws appends. */
  function ForecastsOf(sols: seq<Solution>, start: nat, testedAtStart: real, deadAtStart: real): Forecasts {
    Forecasts(
      seq(|sols|, i requires 0 <= i < |sols| => sols[i].positive),
      seq(|sols|, i requires 0 <= i < |sols| => sols[i].deceased),
      seq(|sols|, i requires 0 <= i < |sols| => CumulativeForecast(sols[i].positive, start, testedAtStart)),
      seq(|sols|, i requires 0 <= i < |sols| => CumulativeForecast(sols[i].deceased, start, deadAtStart)))
  }

  /** The loop `for sol in sols_to_plot`, appending to the four lists. */
  method AssembleForecasts(sols: seq<Solution>, start: nat, testedAtStart: real, deadAtStart: real)
    returns (f: Forecasts)
    ensures f == ForecastsOf(sols, start, testedAtStart, deadAtStart)
  {
    var newTested, newDead, tested, dead := [], [], [], [];
    var i := 0;
    while i < |sols|
      invariant 0 <= i <= |sols|
      invariant |newTested| == |newDead| == |tested| == |dead| == i
      invariant forall k :: 0 <= k < i ==>
        (&& newTested[k] == sols[k].positive && newDead[k] == sols[k].deceased
         && tested[k] == CumulativeForecast(sols[k].positive, start, testedAtStart)
         && dead[k] == CumulativeForecast(sols[k].deceased, start, deadAtStart))
    {
      newTested := newTested + [sols[i].positive];
      newDead := newDead + [sols[i].deceased];
      tested := tested + [CumulativeForecast(sols[i].positive, start, testedAtStart)];
      dead := dead + [CumulativeForecast(sols[i].deceased, start, deadAtStart)];
      i := i + 1;
    }
    f := Forecasts(newTested, newDead, tested, dead);
  }

  /** One output row: the strategy's long name, the day, and the values of
      every draw on that day, from which the row's statistics are taken. */
  datatype PredictionRow = PredictionRow(modelType: string, dateInd: nat,
                                         newTested: seq<real>, newDead: seq<real>,
                                         tested: seq<real>, dead: seq<real>)

  /** `[xs[d] for xs in lists]`; `None` is the IndexError of a list that is
      too short. */
  function Column(lists: seq<seq<real>>, d: nat): (r: Option<seq<real>>)
    ensures r.Some? <==> forall i :: 0 <= i < |lists| ==> d < |lists[i]|
    ensures r.Some? ==> |r.value| == |lists| && forall i :: 0 <= i < |lists| ==> r.value[i] == lists[i][d]
  {
    if forall i :: 0 <= i < |lists| ==> d < |lists[i]| then
      Some(seq(|lists|, i requires 0 <= i < |lists| => lists[i][d]))
    else None
  }

  /** The row of day `d`. */
  function RowAt(modelType: string, f: Forecasts, d: nat): Option<PredictionRow> {
    var nt :- Column(f.newTested, d);
    var nd :- Column(f.newDead, d);
    var t :- Column(f.tested, d);
    var dd :- Column(f.dead, d);
    Some(PredictionRow(modelType, d, nt, nd, t, dd))
  }

  /** The rows of the days `range(start_ind_sol, len(sols_to_plot_tested[0]))`;
      `None` is the IndexError of an empty list of draws or of a list too
      short for a day. */
  function RowsOf(modelType: string, f: Forecasts, start: nat): Option<seq<PredictionRow>> {
    if |f.tested| == 0 then None
    else
      var days := Range(start, |f.tested[0]|);
      CollectSome(seq(|days|, j requires 0 <= j < |days| => RowAt(modelType, f, days[j])))
  }

  /** The loop `for date_ind in range(...)` appending one row per day. */
  method PredictionRows(modelType: string, f: Forecasts, start: nat) returns (r: Option<seq<PredictionRow>>)
    ensures r == RowsOf(modelType, f, start)
  {
    if |f.tested| == 0 {
      return None;
    }
    var days := Range(start, |f.tested[0]|);
    ghost var each := seq(|days|, j requires 0 <= j < |days| => RowAt(modelType, f, days[j]));
    assert RowsOf(modelType, f, start) == CollectSome(each);
    var rows: seq<PredictionRow> := [];
    var j := 0;
    while j < |days|
      invariant 0 <= j <= |days| && |rows| == j
      invariant forall k :: 0 <= k < j ==> each[k] == Some(rows[k])
    {
      var row := RowAt(modelType, f, days[j]);
      if row.None? {
        assert each[j].None?;
        return None;
      }
      rows := rows + [row.value];
      j := j + 1;
    }
    assert RowsOf(modelType, f, start).value == rows;
    return Some(rows);
  }

  /** When every draw's new values are `n` long and its cumulative values as
      long as the forecast makes them, there is one row per day from the
      start to `n`, and row `j` holds day `start + j` of every list. */
  lemma RowsCover(modelType: string, f: Forecasts, start: nat, n: nat, j: nat, i: nat)
    requires |f.tested| > 0
    requires |f.newTested| == |f.newDead| == |f.tested| == |f.dead|
    requires forall k :: 0 <= k < |f.tested| ==> |f.newTested[k]| == n && |f.newDead[k]| == n
    requires forall k :: 0 <= k < |f.tested| ==> |f.tested[k]| == Max(start, n) && |f.dead[k]| == Max(start, n)
    ensures RowsOf(modelType, f, start).Some?
    ensures |RowsOf(modelType, f, start).value| == Max(n - start, 0)
    ensures j < Max(n - start, 0) && i < |f.tested| ==>
      var row := RowsOf(modelType, f, start).value[j];
      && row.modelType == modelType && row.dateInd == start + j
      && |row.tested| == |f.tested| && row.tested[i] == f.tested[i][start + j]
      && |row.dead| == |f.dead| && row.dead[i] == f.dead[i][start + j]
      && |row.newTested| == |f.newTested| && row.newTested[i] == f.newTested[i][start + j]
      && |row.newDead| == |f.newDead| && row.newDead[i] == f.newDead[i][start + j]
  {
    var days := Range(start, |f.tested[0]|);
    var each := seq(|days|, j requires 0 <= j < |days| => RowAt(modelType, f, days[j]));
    forall k | 0 <= k < |days| ensures each[k].Some? {
      assert start <= days[k] < n;
    }
  }

  /** Every index is one of a list of `n`. */
  predicate IndicesBelow(chosen: seq<nat>, n: nat) {
    forall k :: 0 <= k < |chosen| ==> chosen[k] < n
  }

  /** The parameter indices `np.random.choice(range(len(params)),
      min(n_samples, len(params)), replace=False)` may return. */
  predicate IsDraw(chosen: seq<nat>, nSamples: nat, nParams: nat) {
    && |chosen| == Min(nSamples, nParams)
    && IndicesBelow(chosen, nParams)
    && (forall a, b :: 0 <= a < b < |chosen| ==> chosen[a] != chosen[b])
  }

  /** A model's simulation of a parameter vector, as a value. */
  type Simulator = seq<real> -> Option<Solution>

  /** The simulations of the chosen samples, in order, or `None` for the
      KeyError of one the simulation rejects. */
  function SimulatedDraws(sim: Simulator, params: seq<seq<real>>, chosen: seq<nat>): Option<seq<Solution>>
    requires IndicesBelow(chosen, |params|)
    decreases |chosen|
  {
    if |chosen| == 0 then Some([])
    else
      var init :- SimulatedDraws(sim, params, chosen[..|chosen| - 1]);
      var last :- sim(params[chosen[|chosen| - 1]]);
      Some(init + [last])
  }

  /** The simulations exist exactly when every chosen sample simulates,
      and then there is one per index, the simulation of that sample. */
  lemma {:induction false} SimulatedDrawsAll(sim: Simulator, params: seq<seq<real>>, chosen: seq<nat>)
    requires IndicesBelow(chosen, |params|)
    ensures SimulatedDraws(sim, params, chosen).Some? <==>
      forall k :: 0 <= k < |chosen| ==> sim(params[chosen[k]]).Some?
    ensures SimulatedDraws(sim, params, chosen).Some? ==>
      (&& |SimulatedDraws(sim, params, chosen).value| == |chosen|
       && forall k :: 0 <= k < |chosen| ==>
            sim(params[chosen[k]]) == Some(SimulatedDraws(sim, params, chosen).value[k]))
    decreases |chosen|
  {
    if |chosen| > 0 {
      var init := chosen[..|chosen| - 1];
      SimulatedDrawsAll(sim, params, init);
      assert forall k :: 0 <= k < |init| ==> init[k] == chosen[k];
    }
  }

  /** Once a prefix of the draw fails, the whole draw fails. */
  lemma {:induction false} SimulatedDrawsPrefix(sim: Simulator, params: seq<seq<real>>, chosen: seq<nat>, k: nat)
    requires IndicesBelow(chosen, |params|)
    requires k <= |chosen| && SimulatedDraws(sim, params, chosen[..k]).None?
    ensures SimulatedDraws(sim, params, chosen).None?
    decreases |chosen| - k
  {
    if k < |chosen| {
      assert chosen[..k + 1][..k] == chosen[..k];
      SimulatedDrawsPrefix(sim, params, chosen, k + 1);
    } else {
      assert chosen[..k] == chosen;
    }
  }

  /** The loop appending `run_simulation(params[ind])` for every drawn
      index. */
  method SimulateDraws(m: MovingWindowModel, params: seq<seq<real>>, chosen: seq<nat>) returns (r: Option<seq<Solution>>)
    requires IndicesBelow(chosen, |params|)
    ensures r == SimulatedDraws(m.SimulationOf, params, chosen)
  {
    var sols: seq<Solution> := [];
    var k := 0;
    while k < |chosen|
      invariant 0 <= k <= |chosen|
      invariant SimulatedDraws(m.SimulationOf, params, chosen[..k]) == Some(sols)
    {
      var sol := m.RunSimulation(params[chosen[k]]);
      assert chosen[..k + 1][..k] == chosen[..k];
      if sol.None? {
        SimulatedDrawsPrefix(m.SimulationOf, params, chosen, k + 1);
        return None;
      }
      sols := sols + [sol.value];
      k := k + 1;
    }
    assert chosen[..k] == chosen;
    return Some(sols);
  }

  /** The rows forecast from the simulated draws; `None` is the IndexError
      of no draws or of no observations. */
  function ForecastRows(base: BayesFields, approx: ApproxType, sols: seq<Solution>): Option<seq<PredictionRow>> {
    var start := StartIndSol(|base.dataNewTested|, base.burnIn);
    var startData := StartIndData(|base.dataNewTested|, base.burnIn);
    var testedAtStart :- DataAtStart(base.dataNewTested, startData);
    var deadAtStart :- DataAtStart(base.dataNewDead, startData);
    RowsOf(approx.LongName(), ForecastsOf(sols, start, testedAtStart, deadAtStart), start)
  }

  /** The cumulative sums at the start, the loop over the solutions and the
      loop over the days. */
  method RowsFromDraws(base: BayesFields, approx: ApproxType, sols: seq<Solution>) returns (r: Option<seq<PredictionRow>>)
    ensures r == ForecastRows(base, approx, sols)
  {
    var start := StartIndSol(|base.dataNewTested|, base.burnIn);
    var startData := StartIndData(|base.dataNewTested|, base.burnIn);
    var testedAtStart := DataAtStart(base.dataNewTested, startData);
    var deadAtStart := DataAtStart(base.dataNewDead, startData);
    if testedAtStart.None? || deadAtStart.None? {
      return None;
    }
    var f := AssembleForecasts(sols, start, testedAtStart.value, deadAtStart.value);
    r := PredictionRows(approx.LongName(), f, start);
  }

  /** The rows of one model and one strategy, given its simulation, the
      samples the strategy returned and the indices drawn from them. */
  function DrawnRows(sim: Simulator, base: BayesFields, approx: ApproxType, params: seq<seq<real>>, chosen: seq<nat>)
    : Option<seq<PredictionRow>>
    requires IndicesBelow(chosen, |params|)
  {
    var sols :- SimulatedDraws(sim, params, chosen);
    ForecastRows(base, approx, sols)
  }

  /** The body of the loop over a model's strategies in
      `generate_state_prediction`, from the samples on. */
  method PredictStrategy(m: MovingWindowModel, approx: ApproxType, params: seq<seq<real>>, nSamples: nat,
                         chosen: seq<nat>) returns (r: Option<seq<PredictionRow>>)
    requires IsDraw(chosen, nSamples, |params|)
    ensures r == DrawnRows(m.SimulationOf, m.base, approx, params, chosen)
  {
    var sols := SimulateDraws(m, params, chosen);
    if sols.None? {
      return None;
    }
    r := RowsFromDraws(m.base, approx, sols.value);
  }

  /** From simulated draws as long as the time grid, of a model with
      observations and as many deaths as cases, there is one row per
      simulated day after the data, and row `j` holds for draw `i` the
      observed total plus the simulated new values from the first day after
      the data to day `start + j`, in both series. */
  lemma ForecastRowsCover(base: BayesFields, approx: ApproxType, sols: seq<Solution>, j: nat, i: nat)
    requires |sols| > 0
    requires |base.dataNewTested| > 0 && |base.dataNewDead| == |base.dataNewTested|
    requires forall k :: 0 <= k < |sols| ==> |sols[k].positive| == |base.tVals| && |sols[k].deceased| == |base.tVals|
    ensures ForecastRows(base, approx, sols).Some?
    ensures var start := StartIndSol(|base.dataNewTested|, base.burnIn);
      |ForecastRows(base, approx, sols).value| == Max(|base.tVals| - start, 0)
    ensures var start := StartIndSol(|base.dataNewTested|, base.burnIn);
      j < Max(|base.tVals| - start, 0) && i < |sols| ==>
      var row := ForecastRows(base, approx, sols).value[j];
      && start + j < |sols[i].positive| && start + j < |sols[i].deceased|
      && row.modelType == approx.LongName() && row.dateInd == start + j
      && |row.tested| == |sols| && |row.dead| == |sols|
      && row.tested[i] == Sum(base.dataNewTested) + Sum(sols[i].positive[start..start + j + 1])
      && row.dead[i] == Sum(base.dataNewDead) + Sum(sols[i].deceased[start..start + j + 1])
  {
    var nData := |base.dataNewTested|;
    var start := StartIndSol(nData, base.burnIn);
    var n := |base.tVals|;
    DataAtStartIsTotal(base.dataNewTested, nData, base.burnIn);
    DataAtStartIsTotal(base.dataNewDead, nData, base.burnIn);
    var tAt, dAt := Sum(base.dataNewTested), Sum(base.dataNewDead);
    var f := ForecastsOf(sols, start, tAt, dAt);
    assert ForecastRows(base, approx, sols) == RowsOf(approx.LongName(), f, start);
    ForecastsShape(sols, start, tAt, dAt, n);
    RowsCover(approx.LongName(), f, start, n, j, i);
    if j < Max(n - start, 0) && i < |sols| {
      var row := RowsOf(approx.LongName(), f, start).value[j];
      CumulativeForecastShape(sols[i].positive, start, tAt);
      CumulativeForecastShape(sols[i].deceased, start, dAt);
      assert start + j < n;
      assert row.tested[i] == CumulativeForecast(sols[i].positive, start, tAt)[start + j]
                           == tAt + Sum(sols[i].positive[start..start + j + 1]);
      assert row.dead[i] == CumulativeForecast(sols[i].deceased, start, dAt)[start + j]
                         == dAt + Sum(sols[i].deceased[start..start + j + 1]);
      assert ForecastRows(base, approx, sols).value[j] == row;
    }
  }

  /** The four lists have one entry per draw; the new values are the
      simulation's, and the cumulative ones as long as the forecast makes
      them. */
  lemma ForecastsShape(sols: seq<Solution>, start: nat, tAt: real, dAt: real, n: nat)
    requires forall k :: 0 <= k < |sols| ==> |sols[k].positive| == n && |sols[k].deceased| == n
    ensures var f := ForecastsOf(sols, start, tAt, dAt);
      && |f.newTested| == |f.newDead| == |f.tested| == |f.dead| == |sols|
      && (forall k :: 0 <= k < |f.tested| ==> |f.newTested[k]| == n && |f.newDead[k]| == n)
      && (forall k :: 0 <= k < |f.tested| ==> |f.tested[k]| == Max(start, n) && |f.dead[k]| == Max(start, n))
  {
    var f := ForecastsOf(sols, start, tAt, dAt);
    forall k | 0 <= k < |sols| ensures |f.tested[k]| == Max(start, n) && |f.dead[k]| == Max(start, n) {
      CumulativeForecastShape(sols[k].positive, start, tAt);
      CumulativeForecastShape(sols[k].deceased, start, dAt);
    }
  }

  /** The rows of draws that all simulate, each as long as the time grid,
      are those of `ForecastRowsCover` over their simulations. */
  lemma DrawnRowsCover(sim: Simulator, base: BayesFields, approx: ApproxType, params: seq<seq<real>>,
                       chosen: seq<nat>, j: nat, i: nat)
    requires IndicesBelow(chosen, |params|) && |chosen| > 0
    requires |base.dataNewTested| > 0 && |base.dataNewDead| == |base.dataNewTested|
    requires forall k :: 0 <= k < |chosen| ==>
      (&& sim(params[chosen[k]]).Some?
       && |sim(params[chosen[k]]).value.positive| == |base.tVals|
       && |sim(params[chosen[k]]).value.deceased| == |base.tVals|)
    ensures DrawnRows(sim, base, approx, params, chosen).Some?
    ensures var start := StartIndSol(|base.dataNewTested|, base.burnIn);
      |DrawnRows(sim, base, approx, params, chosen).value| == Max(|base.tVals| - start, 0)
    ensures var start := StartIndSol(|base.dataNewTested|, base.burnIn);
      j < Max(|base.tVals| - start, 0) && i < |chosen| ==>
      var row := DrawnRows(sim, base, approx, params, chosen).value[j];
      var sol := sim(params[chosen[i]]).value;
      && start + j < |sol.positive| && start + j < |sol.deceased|
      && row.modelType == approx.LongName() && row.dateInd == start + j
      && |row.tested| == |chosen| && |row.dead| == |chosen|
      && row.tested[i] == Sum(base.dataNewTested) + Sum(sol.positive[start..start + j + 1])
      && row.dead[i] == Sum(base.dataNewDead) + Sum(sol.deceased[start..start + j + 1])
  {
    SimulatedDrawsAll(sim, params, chosen);
    var sols := SimulatedDraws(sim, params, chosen).value;
    assert forall k :: 0 <= k < |sols| ==> sim(params[chosen[k]]).value == sols[k];
    ForecastRowsCover(base, approx, sols, j, i);
  }

  /** A simulation the model accepts is as long as its time grid. */
  lemma SimulationLength(m: MovingWindowModel, inParams: seq<real>)
    requires m.SimulationOf(inParams).Some?
    ensures |m.SimulationOf(inParams).value.positive| == |m.base.tVals|
    ensures |m.SimulationOf(inParams).value.deceased| == |m.base.tVals|
  {
    var p := VectorToDict(inParams, IndexMap(m.base.sortedNames)).value + m.base.staticParams;
    SimulateShape(m.exp, p, m.base.tVals, m.base.logOffset, m.AnchorDay(), Positive);
  }

  /** The `params` of one iteration: the strategy's own samples for the
      statsmodels and PyMC3 strategies, the previous ones otherwise. */
  function CurrentSamples(t: ApproxType, sm: seq<seq<real>>, pymc3: seq<seq<real>>,
                          prev: Option<seq<seq<real>>>): Option<seq<seq<real>>> {
    match t
    case SM => Some(sm)
    case PyMC3 => Some(pymc3)
    case _ => prev
  }

  /** The samples each strategy's rows are computed from, as the loop over
      `model_approx_types` is written: the statsmodels and PyMC3 strategies
      fetch their own, and any other strategy reuses the `params` of the
      previous iteration; the first one with no previous iteration is the
      UnboundLocalError. */
  function SamplesAsWritten(types: seq<ApproxType>, sm: seq<seq<real>>, pymc3: seq<seq<real>>,
                            prev: Option<seq<seq<real>>>): Option<seq<seq<seq<real>>>>
    decreases |types|
  {
    if |types| == 0 then Some([])
    else
      var cur := CurrentSamples(types[0], sm, pymc3, prev);
      if cur.None? then None
      else
        var rest :- SamplesAsWritten(types[1..], sm, pymc3, cur);
        Some([cur.value] + rest)
  }

  /** For a model that runs every strategy the loop fails on its first
      strategy, the Hessian one, before any row is produced; and a
      strategy listed after the statsmodels one would be predicted from the
      statsmodels samples under its own name. */
  lemma PredictionLoopAsWritten(sm: seq<seq<real>>, pymc3: seq<seq<real>>)
    ensures ApproxTypesFor(false)[0] == Hess
    ensures SamplesAsWritten(ApproxTypesFor(false), sm, pymc3, None) == None
    ensures SamplesAsWritten([SM, BS], sm, pymc3, None) == Some([sm, sm])
  {
    var t := [BS];
    assert CurrentSamples(t[0], sm, pymc3, Some(sm)) == Some(sm);
    assert t[1..] == [] && [sm] + [] == [sm];
    assert SamplesAsWritten(t, sm, pymc3, Some(sm)) == Some([sm]);
    var ts := [SM, BS];
    assert ts[1..] == t && [sm] + [sm] == [sm, sm];
  }

  /** The strategies with a sampler of their own. */
  predicate HasSampler(t: ApproxType) {
    t == SM || t == PyMC3
  }

  /** The strategies the prediction is meant to cover: those with a
      sampler, in their order. */
  function PredictedStrategies(types: seq<ApproxType>): (r: seq<ApproxType>)
    ensures forall t :: t in r <==> t in types && HasSampler(t)
    ensures forall k :: 0 <= k < |r| ==> HasSampler(r[k])
  {
    if |types| == 0 then []
    else if HasSampler(types[0]) then [types[0]] + PredictedStrategies(types[1..])
    else PredictedStrategies(types[1..])
  }

  /** The samples of a strategy with a sampler. */
  function SamplesFor(t: ApproxType, sm: seq<seq<real>>, pymc3: seq<seq<real>>): seq<seq<real>>
    requires HasSampler(t)
  {
    if t == SM then sm else pymc3
  }

  /** Over the strategies with a sampler the loop never fails and each
      strategy is predicted from its own samples. */
  lemma {:induction false} PredictedStrategiesOwnSamples(types: seq<ApproxType>, sm: seq<seq<real>>,
                                                         pymc3: seq<seq<real>>, prev: Option<seq<seq<real>>>)
    ensures SamplesAsWritten(PredictedStrategies(types), sm, pymc3, prev).Some?
    ensures var ts := PredictedStrategies(types);
      var r := SamplesAsWritten(ts, sm, pymc3, prev).value;
      |r| == |ts| && forall k :: 0 <= k < |ts| ==> HasSampler(ts[k]) && r[k] == SamplesFor(ts[k], sm, pymc3)
    decreases |types|
  {
    if |types| > 0 {
      var ts := PredictedStrategies(types);
      var tail := PredictedStrategies(types[1..]);
      if HasSampler(types[0]) {
        var cur := SamplesFor(types[0], sm, pymc3);
        PredictedStrategiesOwnSamples(types[1..], sm, pymc3, Some(cur));
        assert ts == [types[0]] + tail && ts[1..] == tail;
        assert CurrentSamples(ts[0], sm, pymc3, prev) == Some(cur);
        var rest := SamplesAsWritten(tail, sm, pymc3, Some(cur)).value;
        assert SamplesAsWritten(ts, sm, pymc3, prev) == Some([cur] + rest);
        forall k | 0 <= k < |ts|
          ensures HasSampler(ts[k]) && ([cur] + rest)[k] == SamplesFor(ts[k], sm, pymc3)
        {
          if k > 0 {
            assert ts[k] == tail[k - 1] && ([cur] + rest)[k] == rest[k - 1];
          }
        }
      } else {
        assert ts == tail;
        PredictedStrategiesOwnSamples(types[1..], sm, pymc3, prev);
      }
    }
  }

  /** One draw of indices per strategy, each strategy one with a sampler
      and each draw within that sampler's samples. */
  predicate DrawsFit(ts: seq<ApproxType>, sm: seq<seq<real>>, pymc3: seq<seq<real>>, chosen: seq<seq<nat>>) {
    && |chosen| == |ts|
    && forall k :: 0 <= k < |ts| ==> HasSampler(ts[k]) && IndicesBelow(chosen[k], |SamplesFor(ts[k], sm, pymc3)|)
  }

  /** The rows of one model over the strategies with a sampler, one draw of
      indices per strategy. */
  function StateRows(sim: Simulator, base: BayesFields, ts: seq<ApproxType>, sm: seq<seq<real>>,
                     pymc3: seq<seq<real>>, chosen: seq<seq<nat>>): Option<seq<PredictionRow>>
    requires DrawsFit(ts, sm, pymc3, chosen)
    decreases |ts|
  {
    if |ts| == 0 then Some([])
    else
      var first :- DrawnRows(sim, base, ts[0], SamplesFor(ts[0], sm, pymc3), chosen[0]);
      var rest :- StateRows(sim, base, ts[1..], sm, pymc3, chosen[1..]);
      Some(first + rest)
  }

  /** `rows` followed by the rows of `rest`, if there are. */
  function Prepend(rows: seq<PredictionRow>, rest: Option<seq<PredictionRow>>): Option<seq<PredictionRow>> {
    if rest.None? then None else Some(rows + rest.value)
  }

  /** No rows before the rest are the rest. */
  lemma PrependNothing(rest: Option<seq<PredictionRow>>)
    ensures Prepend([], rest) == rest
  {
    if rest.Some? {
      assert [] + rest.value == rest.value;
    }
  }

  /** One strategy more: its rows are appended, or its failure fails the
      whole. */
  lemma StateRowsStep(sim: Simulator, base: BayesFields, ts: seq<ApproxType>, sm: seq<seq<real>>,
                      pymc3: seq<seq<real>>, chosen: seq<seq<nat>>, rows: seq<PredictionRow>, k: nat)
    requires k < |ts| == |chosen| && DrawsFit(ts[k..], sm, pymc3, chosen[k..])
    ensures DrawsFit(ts[k + 1..], sm, pymc3, chosen[k + 1..])
    ensures HasSampler(ts[k]) && IndicesBelow(chosen[k], |SamplesFor(ts[k], sm, pymc3)|)
    ensures var part := DrawnRows(sim, base, ts[k], SamplesFor(ts[k], sm, pymc3), chosen[k]);
      Prepend(rows, StateRows(sim, base, ts[k..], sm, pymc3, chosen[k..]))
      == if part.None? then None
         else Prepend(rows + part.value, StateRows(sim, base, ts[k + 1..], sm, pymc3, chosen[k + 1..]))
  {
    assert ts[k..][0] == ts[k] && chosen[k..][0] == chosen[k];
    assert ts[k..][1..] == ts[k + 1..] && chosen[k..][1..] == chosen[k + 1..];
    var rest := StateRows(sim, base, ts[k + 1..], sm, pymc3, chosen[k + 1..]);
    var part := DrawnRows(sim, base, ts[k], SamplesFor(ts[k], sm, pymc3), chosen[k]);
    if part.Some? && rest.Some? {
      assert rows + (part.value + rest.value) == rows + part.value + rest.value;
    }
  }

  /** The loop over one model's strategies, corrected to the strategies
      with a sampler, extending the list of rows. */
  method PredictState(m: MovingWindowModel, sm: seq<seq<real>>, pymc3: seq<seq<real>>, nSamples: nat,
                      chosen: seq<seq<nat>>) returns (r: Option<seq<PredictionRow>>)
    requires |chosen| == |PredictedStrategies(m.modelApproxTypes)|
    requires forall k :: 0 <= k < |chosen| ==>
      IsDraw(chosen[k], nSamples, |SamplesFor(PredictedStrategies(m.modelApproxTypes)[k], sm, pymc3)|)
    ensures DrawsFit(PredictedStrategies(m.modelApproxTypes), sm, pymc3, chosen)
    ensures r == StateRows(m.SimulationOf, m.base, PredictedStrategies(m.modelApproxTypes), sm, pymc3, chosen)
  {
    var ts := PredictedStrategies(m.modelApproxTypes);
    var rows: seq<PredictionRow> := [];
    var k := 0;
    assert ts[k..] == ts && chosen[k..] == chosen;
    PrependNothing(StateRows(m.SimulationOf, m.base, ts, sm, pymc3, chosen));
    while k < |ts|
      invariant 0 <= k <= |ts|
      invariant DrawsFit(ts[k..], sm, pymc3, chosen[k..])
      invariant StateRows(m.SimulationOf, m.base, ts, sm, pymc3, chosen)
             == Prepend(rows, StateRows(m.SimulationOf, m.base, ts[k..], sm, pymc3, chosen[k..]))
    {
      StateRowsStep(m.SimulationOf, m.base, ts, sm, pymc3, chosen, rows, k);
      var part := PredictStrategy(m, ts[k], SamplesFor(ts[k], sm, pymc3), nSamples, chosen[k]);
      if part.None? {
        return None;
      }
      rows := rows + part.value;
      k := k + 1;
    }
    assert ts[k..] == [] && chosen[k..] == [] && rows + [] == rows;
    return Some(rows);
  }
}
