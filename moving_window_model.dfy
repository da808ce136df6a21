// The `MovingWindowModel` class: a log-linear trend per series over the last
// `moving_window_size` days with one multiplier per day of the week.  The
// fields its constructor sets, the simulation, the likelihood precursor, the
// two fits (with the regression and the sampler as inputs) and the two
// samplers are modelled; plotting and caching are not.
module MovingWindow {
  import opened Wrappers
  import opened PyLists
  import opened ParamNames
  import opened ApproxTypes
  import opened Simulation
  import opened Windows
  import opened Regression
  import opened Covariance
  import opened Samples

  /** The attributes the base class `BayesModel` sets up before the
      constructor of the moving-window model runs. */
  datatype BayesFields = BayesFields(
    burnIn: nat,
    logOffset: real,
    tVals: seq<real>,
    sortedNames: seq<string>,
    logarithmicParams: seq<string>,
    staticParams: map<string, real>,
    dataNewTested: seq<real>,
    dataNewDead: seq<real>,
    seriesLength: nat,
    dayOfThresholdMetCase: int,
    dayOfThresholdMetDeath: int,
    maxDateInDays: int,
    optCalc: bool,
    optForceCalc: bool)

  /** The ordinary least-squares fit of one series' logged observations on
      the design rows, as statsmodels returns it: coefficients, standard
      errors and a square covariance over the named columns. */
  type Ols = f: (seq<DesignRow>, Series) -> OlsResult
    | forall rows, s :: IsSquare(f(rows, s).cov, |f(rows, s).columns|)
    witness (rows: seq<DesignRow>, s: Series) => OlsResult(map[], map[], [], [])

  /** The PyMC3 sampling of one series on the PyMC3 table: its trace as one
      dictionary per draw. */
  type Sampler = (seq<PyMC3Row>, Series) -> seq<map<string, real>>

  /** The strategies the model runs: the statsmodels fit alone when
      simplified, all six otherwise. */
  function ApproxTypesFor(optSimplified: bool): (r: seq<ApproxType>)
    ensures SM in r
    ensures PyMC3 in r <==> !optSimplified
  {
    if optSimplified then [SM] else [Hess, BS, LS, MCMC, SM, PyMC3]
  }

  /** What `render_statsmodels_fit` leaves in the three attributes it sets,
      `None` for one it does not reach. */
  datatype StatsmodelsOutcome = StatsmodelsOutcome(
    positive: Option<Mvn>, params: Option<map<string, real>>, deceased: Option<Mvn>)

  /** The four lists both samplers return: samples, the same samples again,
      weights and log-probabilities. */
  type WeightedSamples = (seq<seq<real>>, seq<seq<real>>, seq<int>, seq<real>)

  class MovingWindowModel {
    const exp: Exp
    const log: Log
    const base: BayesFields
    const movingWindowSize: nat
    const optSimplified: bool
    const modelApproxTypes: seq<ApproxType>
    const casesIndices: seq<int>
    const deathsIndices: seq<int>
    // The fitted names of each series and the regression's name mappings,
    // which the source rebuilds in each method from the sorted names and
    // two literal tables; they never change, so they are computed once.
    const positiveNames: seq<string>
    const deceasedNames: seq<string>
    const nameMappingPositive: seq<(string, string)>
    const nameMappingDeceased: seq<(string, string)>

    var statsmodelsModelPositive: Option<Mvn>
    var statsmodelsModelDeceased: Option<Mvn>
    var statsmodelsParams: Option<map<string, real>>
    var loadedPyMC3: bool
    var allPyMC3SamplesAsList: Option<seq<seq<real>>>
    var allPyMC3LogProbsAsList: Option<seq<real>>

    /** The index windows are the trailing windows of the series and the
        strategies follow the simplification flag. */
    predicate Valid() {
      && casesIndices == TrailingWindow(base.dayOfThresholdMetCase, base.seriesLength, movingWindowSize)
      && deathsIndices == TrailingWindow(base.dayOfThresholdMetDeath, base.seriesLength, movingWindowSize)
      && modelApproxTypes == ApproxTypesFor(optSimplified)
      && positiveNames == FittedNames(base.sortedNames, Positive)
      && deceasedNames == FittedNames(base.sortedNames, Deceased)
      && nameMappingPositive == NameMapping(Positive)
      && nameMappingDeceased == NameMapping(Deceased)
    }

    constructor(exp: Exp, log: Log, base: BayesFields, movingWindowSize: nat, optSimplified: bool)
      ensures Valid()
      ensures this.exp == exp && this.log == log && this.base == base
      ensures this.movingWindowSize == movingWindowSize && this.optSimplified == optSimplified
      ensures statsmodelsModelPositive.None? && statsmodelsModelDeceased.None? && statsmodelsParams.None?
      ensures !loadedPyMC3 && allPyMC3SamplesAsList.None? && allPyMC3LogProbsAsList.None?
    {
      this.exp := exp;
      this.log := log;
      this.base := base;
      this.movingWindowSize := movingWindowSize;
      this.optSimplified := optSimplified;
      modelApproxTypes := ApproxTypesFor(optSimplified);
      var n := base.seriesLength;
      var cases := Range(Max(base.dayOfThresholdMetCase, n - movingWindowSize), n);
      var deaths := Range(Max(base.dayOfThresholdMetDeath, n - movingWindowSize), n);
      assert cases == TrailingWindow(base.dayOfThresholdMetCase, n, movingWindowSize);
      assert deaths == TrailingWindow(base.dayOfThresholdMetDeath, n, movingWindowSize);
      casesIndices, deathsIndices := cases, deaths;
      positiveNames := FittedNames(base.sortedNames, Positive);
      deceasedNames := FittedNames(base.sortedNames, Deceased);
      nameMappingPositive := NameMapping(Positive);
      nameMappingDeceased := NameMapping(Deceased);
      statsmodelsModelPositive, statsmodelsModelDeceased, statsmodelsParams := None, None, None;
      loadedPyMC3 := false;
      allPyMC3SamplesAsList, allPyMC3LogProbsAsList := None, None;
    }

    /** The day the curves are anchored at: the start of the window. */
    function AnchorDay(): int {
      base.maxDateInDays - movingWindowSize
    }

    /** The solution for a parameter vector in the order of the sorted
        names, merged with the static parameters. */
    function SimulationOf(inParams: seq<real>): Option<Solution> {
      var params :- VectorToDict(inParams, IndexMap(base.sortedNames));
      Simulate(exp, params + base.staticParams, base.tVals, base.logOffset, AnchorDay())
    }

    /** `run_simulation`: the vector read into a dictionary by the sorted
        names and merged with the static parameters, then simulated. */
    method RunSimulation(inParams: seq<real>) returns (sol: Option<Solution>)
      ensures sol == SimulationOf(inParams)
    {
      var p := VectorToDict(inParams, IndexMap(base.sortedNames));
      if p.None? {
        return None;
      }
      sol := SimulateInPlace(exp, p.value + base.staticParams, base.tVals, base.logOffset, AnchorDay());
    }

    /** `_get_log_likelihood_precursor`: every argument left out takes its
        default, the model's data and the last `moving_window_size` entries
        of its windows.  The result is the precursor and the solution it was
        computed from; `None` is the exception raised on the way. */
    function LogLikelihoodPrecursor(inParams: seq<real>, dataNewTested: Option<seq<real>>, dataNewDead: Option<seq<real>>,
                                    casesBootstrapIndices: Option<seq<int>>, deathsBootstrapIndices: Option<seq<int>>)
      : Option<(Precursor, Solution)>
    {
      var tested := dataNewTested.GetOr(base.dataNewTested);
      var dead := dataNewDead.GetOr(base.dataNewDead);
      var casesIdx := casesBootstrapIndices.GetOr(LastN(casesIndices, movingWindowSize));
      var deathsIdx := deathsBootstrapIndices.GetOr(LastN(deathsIndices, movingWindowSize));
      var sol :- SimulationOf(inParams);
      var p :- LikelihoodPrecursor(log, sol, tested, dead, casesIdx, deathsIdx, base.burnIn, base.logOffset);
      Some((p, sol))
    }

    /** With the default arguments, thresholds that are days of the series
        and a time grid that covers the series after the burn-in, the
        precursor exists for every parameter vector the simulation accepts,
        and it compares observation `i` of every day `i` of each trailing
        window with simulated day `i + burn_in`. */
    lemma DefaultPrecursorAligned(inParams: seq<real>)
      requires Valid()
      requires base.dayOfThresholdMetCase >= 0 && base.dayOfThresholdMetDeath >= 0
      requires base.seriesLength <= |base.dataNewTested| && base.seriesLength <= |base.dataNewDead|
      requires base.seriesLength + base.burnIn <= |base.tVals|
      requires SimulationOf(inParams).Some?
      ensures LogLikelihoodPrecursor(inParams, None, None, None, None).Some?
      ensures var (p, sol) := LogLikelihoodPrecursor(inParams, None, None, None, None).value;
        && PairsUp(log, sol.positive, base.dataNewTested, casesIndices, base.burnIn, base.logOffset,
                   p.newTestedDists, p.testedVals)
        && PairsUp(log, sol.deceased, base.dataNewDead, deathsIndices, base.burnIn, base.logOffset,
                   p.newDeadDists, p.deceasedVals)
    {
      var n := base.seriesLength;
      DefaultIndicesAreWindow(base.dayOfThresholdMetCase, n, movingWindowSize);
      DefaultIndicesAreWindow(base.dayOfThresholdMetDeath, n, movingWindowSize);
      TrailingWindowInRange(base.dayOfThresholdMetCase, n, movingWindowSize);
      TrailingWindowInRange(base.dayOfThresholdMetDeath, n, movingWindowSize);
      var params := VectorToDict(inParams, IndexMap(base.sortedNames)).value + base.staticParams;
      SimulateShape(exp, params, base.tVals, base.logOffset, AnchorDay(), Positive);
      var sol := SimulationOf(inParams).value;
      PrecursorAligned(log, sol, base.dataNewTested, base.dataNewDead, casesIndices, deathsIndices,
                       base.burnIn, base.logOffset);
    }

    /** The design rows both fits are built on, over the trailing window
        clamped at day 0; for a series at least as long as the window these
        are the rows as written (`DesignRowsAsWritten`). */
    function Rows(): Option<seq<DesignRow>> {
      AlignedDesignRows(base.dataNewTested, base.dataNewDead, movingWindowSize, base.burnIn)
    }

    /** The positive fit: canonical coefficients and normal. */
    function PositiveFit(ols: Ols, rows: seq<DesignRow>): Option<(map<string, real>, Mvn)> {
      SeriesFit(ols(rows, Positive), nameMappingPositive, positiveNames)
    }

    /** The deceased fit up to its normal: canonical coefficients, means and
        reordered covariance. */
    function DeceasedMoments(ols: Ols, rows: seq<DesignRow>): Option<(map<string, real>, seq<real>, Matrix)> {
      SeriesMoments(ols(rows, Deceased), nameMappingDeceased, deceasedNames)
    }

    /** The canonical coefficients of both fits, the deceased ones last. */
    function FittedParams(ols: Ols): Option<map<string, real>> {
      var rows :- Rows();
      var pos :- PositiveFit(ols, rows);
      var dec :- DeceasedMoments(ols, rows);
      Some(pos.0 + dec.0)
    }

    /** What `render_statsmodels_fit` sets, stage by stage: the positive
        normal, then the merged coefficients with the logarithmic parameters
        other than the scale parameters exponentiated, then the deceased
        normal. */
    function StatsmodelsFit(ols: Ols): StatsmodelsOutcome {
      var rows := Rows();
      if rows.None? then StatsmodelsOutcome(None, None, None)
      else
        var pos := PositiveFit(ols, rows.value);
        if pos.None? then StatsmodelsOutcome(None, None, None)
        else
          var dec := DeceasedMoments(ols, rows.value);
          if dec.None? then StatsmodelsOutcome(Some(pos.value.1), None, None)
          else
            var tmp := ExpListed(exp, pos.value.0 + dec.value.0, base.logarithmicParams, true);
            if tmp.None? then StatsmodelsOutcome(Some(pos.value.1), None, None)
            else StatsmodelsOutcome(Some(pos.value.1), tmp, MakeMvn(dec.value.1, dec.value.2))
    }

    /** `render_statsmodels_fit` without its plots: each attribute is set
        when its stage is reached and keeps its old value otherwise; `ok` is
        whether the method returns normally. */
    method RenderStatsmodelsFit(ols: Ols) returns (ok: bool)
      modifies this
      ensures var o := StatsmodelsFit(ols);
        && ok == o.deceased.Some?
        && statsmodelsModelPositive == (if o.positive.Some? then o.positive else old(statsmodelsModelPositive))
        && statsmodelsParams == (if o.params.Some? then o.params else old(statsmodelsParams))
        && statsmodelsModelDeceased == (if o.deceased.Some? then o.deceased else old(statsmodelsModelDeceased))
      ensures loadedPyMC3 == old(loadedPyMC3)
      ensures allPyMC3SamplesAsList == old(allPyMC3SamplesAsList)
      ensures allPyMC3LogProbsAsList == old(allPyMC3LogProbsAsList)
    {
      var rows := Rows();
      if rows.None? {
        return false;
      }
      var pos := PositiveFit(ols, rows.value);
      if pos.None? {
        return false;
      }
      statsmodelsModelPositive := Some(pos.value.1);
      var dec := DeceasedMoments(ols, rows.value);
      if dec.None? {
        return false;
      }
      var tmp := ExponentiateListed(exp, pos.value.0 + dec.value.0, base.logarithmicParams, true);
      if tmp.None? {
        return false;
      }
      statsmodelsParams := tmp;
      var mvn := MakeMvn(dec.value.1, dec.value.2);
      if mvn.None? {
        return false;
      }
      statsmodelsModelDeceased := mvn;
      return true;
    }

    /** The parameters the statsmodels fit stores are the canonical
        coefficients of both fits with each logarithmic parameter that is
        not a scale parameter exponentiated exactly once and every other
        coefficient as fitted; they are stored exactly when both fits
        succeed and every such parameter is among the coefficients. */
    lemma StatsmodelsParamsOnce(ols: Ols)
      requires forall a, b :: 0 <= a < b < |base.logarithmicParams| ==> base.logarithmicParams[a] != base.logarithmicParams[b]
      ensures StatsmodelsFit(ols).params.Some? <==>
        (FittedParams(ols).Some? && Listed(base.logarithmicParams, true) <= FittedParams(ols).value.Keys)
      ensures StatsmodelsFit(ols).params.Some? ==>
        StatsmodelsFit(ols).params.value == ExpKeys(exp, FittedParams(ols).value, Listed(base.logarithmicParams, true))
    {
      var rows := Rows();
      if rows.Some? && PositiveFit(ols, rows.value).Some? && DeceasedMoments(ols, rows.value).Some? {
        var fp := PositiveFit(ols, rows.value).value.0 + DeceasedMoments(ols, rows.value).value.0;
        assert FittedParams(ols) == Some(fp);
        assert StatsmodelsFit(ols).params == ExpListed(exp, fp, base.logarithmicParams, true);
        ExpListedOnce(exp, fp, base.logarithmicParams, true);
      } else {
        assert FittedParams(ols).None? && StatsmodelsFit(ols).params.None?;
      }
    }

    /** The samples of the statsmodels sampler for `n` draw pairs. */
    function Drawn(drawsPos: seq<seq<real>>, drawsDec: seq<seq<real>>, n: nat): Option<seq<seq<real>>> {
      StatsmodelsSamples(exp, drawsPos, drawsDec, n, positiveNames, deceasedNames,
                         base.sortedNames, base.logarithmicParams)
    }

    /** `get_weighted_samples_via_statsmodels` on the draws of the two
        normals: each draw pair becomes a full parameter vector, every
        weight is 1 and each log-probability is the likelihood of its
        sample.  `None` is the exception raised on the way, including the
        AttributeError of a normal the fit has not set. */
    method GetWeightedSamplesViaStatsmodels(nSamples: nat, drawsPos: seq<seq<real>>, drawsDec: seq<seq<real>>,
                                            logLik: seq<real> -> real)
      returns (r: Option<WeightedSamples>)
      ensures statsmodelsModelPositive.None? || statsmodelsModelDeceased.None? ==> r.None?
      ensures statsmodelsModelPositive.Some? && statsmodelsModelDeceased.Some? ==>
        (r.Some? <==> Drawn(drawsPos, drawsDec, nSamples).Some?)
      ensures r.Some? ==>
        var samples := Drawn(drawsPos, drawsDec, nSamples).value;
        && r.value.0 == samples && r.value.1 == samples
        && |r.value.2| == nSamples && (forall k :: 0 <= k < nSamples ==> r.value.2[k] == 1)
        && |r.value.3| == nSamples && (forall k :: 0 <= k < nSamples ==> r.value.3[k] == logLik(samples[k]))
    {
      if statsmodelsModelPositive.None? || statsmodelsModelDeceased.None? {
        return None;
      }
      var drawn := DrawSamples(SampleOf(exp, positiveNames, deceasedNames, base.sortedNames, base.logarithmicParams),
                               drawsPos, drawsDec, nSamples);
      if drawn.None? {
        return None;
      }
      var samples := drawn.value;
      var logProbs := seq(nSamples, k requires 0 <= k < nSamples => logLik(samples[k]));
      return Some((samples, samples, seq(nSamples, _ => 1), logProbs));
    }

    /** `get_weighted_samples_via_PyMC3` with the indices `np.random.choice`
        drew: the stored samples and log-probabilities at those indices, with
        weights of 1.  `None` is the AttributeError of lists the PyMC3 fit
        has not stored, or the IndexError of an index past them. */
    function WeightedSamplesViaPyMC3(sampledInd: seq<nat>): (r: Option<WeightedSamples>)
      reads this
      ensures r.Some? <==>
        (&& allPyMC3SamplesAsList.Some? && allPyMC3LogProbsAsList.Some?
         && forall k :: 0 <= k < |sampledInd| ==>
              sampledInd[k] < |allPyMC3SamplesAsList.value| && sampledInd[k] < |allPyMC3LogProbsAsList.value|)
      ensures r.Some? ==>
        && |r.value.0| == |sampledInd| && r.value.1 == r.value.0
        && |r.value.2| == |sampledInd| && |r.value.3| == |sampledInd|
        && forall k :: 0 <= k < |sampledInd| ==>
             && r.value.0[k] == allPyMC3SamplesAsList.value[sampledInd[k]]
             && r.value.2[k] == 1
             && r.value.3[k] == allPyMC3LogProbsAsList.value[sampledInd[k]]
    {
      if allPyMC3SamplesAsList.None? || allPyMC3LogProbsAsList.None? then None
      else
        var picked :- Resample(allPyMC3SamplesAsList.value, allPyMC3LogProbsAsList.value, sampledInd);
        Some((picked.0, picked.0, seq(|picked.0|, _ => 1), picked.1))
    }

    /** The logarithmic parameters as the PyMC3 fit tests them, by
        membership. */
    function LogNameSet(): set<string> {
      set n | n in base.logarithmicParams
    }

    /** The merged and exponentiated trace dictionaries of the PyMC3 fit. */
    function TraceDicts(posTrace: seq<map<string, real>>, decTrace: seq<map<string, real>>)
      : (r: seq<map<string, real>>)
      ensures |r| == Min(|posTrace|, |decTrace|)
    {
      seq(Min(|posTrace|, |decTrace|), i requires 0 <= i < Min(|posTrace|, |decTrace|) =>
        ExpKeys(exp, posTrace[i] + decTrace[i], LogNameSet()))
    }

    /** What the PyMC3 fit stores, from the cached lists when they loaded
        and no recomputation is forced, and otherwise from the two traces
        the sampler produces on the PyMC3 table; `None` is the exception
        raised on the way, including the UnboundLocalError of a failed load
        that is not recomputed. */
    function PyMC3Outcome(loaded: Option<(seq<seq<real>>, seq<real>)>, sample: Sampler,
                          logLik: map<string, real> -> real): Option<(seq<seq<real>>, seq<real>)>
    {
      if (loaded.None? && base.optCalc) || base.optForceCalc then PyMC3Computed(sample, logLik)
      else loaded
    }

    /** The lists recomputed from the two traces the sampler produces on
        the PyMC3 table. */
    function PyMC3Computed(sample: Sampler, logLik: map<string, real> -> real)
      : Option<(seq<seq<real>>, seq<real>)>
    {
      var rows :- Rows();
      var table := PyMC3Rows(log, rows, base.logOffset);
      var dicts := TraceDicts(sample(table, Positive), sample(table, Deceased));
      var samples :- DictsToVectors(dicts, base.sortedNames);
      Some((samples, seq(|dicts|, i requires 0 <= i < |dicts| => logLik(dicts[i]))))
    }

    /** The recomputation of `render_PyMC3_fit`: the table, both traces
        merged draw by draw with the logarithmic parameters exponentiated,
        the draws as vectors and their log-probabilities. */
    method ComputePyMC3Fit(sample: Sampler, logLik: map<string, real> -> real)
      returns (r: Option<(seq<seq<real>>, seq<real>)>)
      ensures r == PyMC3Computed(sample, logLik)
    {
      var rows := Rows();
      if rows.None? {
        return None;
      }
      var table := PyMC3Rows(log, rows.value, base.logOffset);
      var dicts := AssembleTrace(exp, sample(table, Positive), sample(table, Deceased), LogNameSet());
      assert dicts == TraceDicts(sample(table, Positive), sample(table, Deceased));
      var vectors := DictsToVectors(dicts, base.sortedNames);
      if vectors.None? {
        return None;
      }
      r := Some((vectors.value, seq(|dicts|, i requires 0 <= i < |dicts| => logLik(dicts[i]))));
    }

    /** A computed PyMC3 fit pairs the draws of the two traces up to the
        shorter one; sample `i` holds, for each sorted name, the value of
        draw `i` (the deceased one when both traces have it) exponentiated
        exactly when the name is a logarithmic parameter, and its
        log-probability is the likelihood of that draw. */
    lemma PyMC3OutcomeComputed(loaded: Option<(seq<seq<real>>, seq<real>)>, sample: Sampler,
                               logLik: map<string, real> -> real, i: nat, j: nat)
      requires (loaded.None? && base.optCalc) || base.optForceCalc
      requires PyMC3Outcome(loaded, sample, logLik).Some?
      ensures Rows().Some?
      ensures var table := PyMC3Rows(log, Rows().value, base.logOffset);
        var posTrace, decTrace := sample(table, Positive), sample(table, Deceased);
        var (samples, logProbs) := PyMC3Outcome(loaded, sample, logLik).value;
        && |samples| == |logProbs| == Min(|posTrace|, |decTrace|)
        && (i < |samples| && j < |base.sortedNames| ==>
              var d := posTrace[i] + decTrace[i];
              var n := base.sortedNames[j];
              && n in d && |samples[i]| == |base.sortedNames|
              && samples[i][j] == (if n in base.logarithmicParams then exp(d[n]) else d[n])
              && logProbs[i] == logLik(ExpKeys(exp, d, LogNameSet())))
    {
      var table := PyMC3Rows(log, Rows().value, base.logOffset);
      var posTrace, decTrace := sample(table, Positive), sample(table, Deceased);
      var dicts := TraceDicts(posTrace, decTrace);
      var samples := DictsToVectors(dicts, base.sortedNames).value;
      if i < |samples| && j < |base.sortedNames| {
        var d := posTrace[i] + decTrace[i];
        var n := base.sortedNames[j];
        assert Some(samples[i]) == DictToVector(dicts[i], base.sortedNames);
        assert n in dicts[i];
        ExpKeysOnce(exp, d, LogNameSet(), n);
      }
    }

    /** `render_PyMC3_fit` without its plots and with the cache as inputs:
        `loaded` is what the cache held, if it could be read.  It records
        whether the load succeeded, and stores the lists exactly when it
        returns normally. */
    method RenderPyMC3Fit(loaded: Option<(seq<seq<real>>, seq<real>)>, sample: Sampler,
                          logLik: map<string, real> -> real) returns (ok: bool)
      modifies this
      ensures loadedPyMC3 == loaded.Some?
      ensures var o := PyMC3Outcome(loaded, sample, logLik);
        && ok == o.Some?
        && (ok ==> allPyMC3SamplesAsList == Some(o.value.0) && allPyMC3LogProbsAsList == Some(o.value.1))
        && (!ok ==> allPyMC3SamplesAsList == old(allPyMC3SamplesAsList)
                    && allPyMC3LogProbsAsList == old(allPyMC3LogProbsAsList))
      ensures statsmodelsModelPositive == old(statsmodelsModelPositive)
      ensures statsmodelsModelDeceased == old(statsmodelsModelDeceased)
      ensures statsmodelsParams == old(statsmodelsParams)
    {
      loadedPyMC3 := loaded.Some?;
      var r: Option<(seq<seq<real>>, seq<real>)>;
      if (loaded.None? && base.optCalc) || base.optForceCalc {
        r := ComputePyMC3Fit(sample, logLik);
      } else {
        r := loaded;
      }
      if r.None? {
        return false;
      }
      allPyMC3SamplesAsList := Some(r.value.0);
      allPyMC3LogProbsAsList := Some(r.value.1);
      return true;
    }
  }
}
