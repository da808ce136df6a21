// The tables handed to the two regressions of the moving-window model: the
// design rows of the statsmodels fit and the PyMC3 rows with one-hot
// day-of-week columns.  The fits themselves are not part of this model.
module Regression {
  import opened Wrappers
  import opened PyLists
  import opened Simulation
  import opened Windows

  /** One design row: position `x` in the table, the simulation day
      `orig_ind = i + burn_in` of observation day `i`, the two observations
      and the day-of-week label `orig_ind % 7`. */
  datatype DesignRow = DesignRow(x: nat, origInd: int, newPositive: real, newDeceased: real, dow: nat)

  /** `(orig_ind + ind_offset) % 7` with `ind_offset = 0`.  For a positive
      divisor Python's `%` is the Euclidean remainder, as here. */
  function DayOfWeek(origInd: int): (d: nat)
    ensures d < 7
  {
    origInd % 7
  }

  /** The rows over the observation days `days`, numbered from 0; `None` is
      the IndexError of a day outside the data. */
  function RowsOver(days: seq<int>, dataTested: seq<real>, dataDead: seq<real>, burnIn: nat)
    : (r: Option<seq<DesignRow>>)
    ensures r.Some? ==> |r.value| == |days|
  {
    var tested :- Gather(dataTested, days, 0);
    var dead :- Gather(dataDead, days, 0);
    Some(seq(|days|, k requires 0 <= k < |days| =>
      DesignRow(k, days[k] + burnIn, tested[k], dead[k], DayOfWeek(days[k] + burnIn))))
  }

  /** The rows as `render_statsmodels_fit` and `render_PyMC3_fit` build
      them: over the days `range(n - w, n)` of `n` observations, read with
      Python's indexing, so that a window longer than the series wraps
      around to the end of the data. */
  function DesignRows(dataTested: seq<real>, dataDead: seq<real>, w: nat, burnIn: nat): Option<seq<DesignRow>> {
    RowsOver(Range(|dataTested| - w, |dataTested|), dataTested, dataDead, burnIn)
  }

  /** The rows over the same trailing window clamped at day 0, which is
      what the rows are meant to be. */
  function AlignedDesignRows(dataTested: seq<real>, dataDead: seq<real>, w: nat, burnIn: nat): Option<seq<DesignRow>> {
    RowsOver(Range(Max(0, |dataTested| - w), |dataTested|), dataTested, dataDead, burnIn)
  }

  /** Whenever the series is at least as long as the window the rows as
      written are the aligned rows. */
  lemma DesignRowsAsWritten(dataTested: seq<real>, dataDead: seq<real>, w: nat, burnIn: nat)
    requires w <= |dataTested|
    ensures DesignRows(dataTested, dataDead, w, burnIn) == AlignedDesignRows(dataTested, dataDead, w, burnIn)
  {
  }

  /** With a series shorter than the window the rows as written read some
      observations twice under different day-of-week labels: for 10
      observations and a 14-day window, rows 0 and 10 both hold observation
      6, labelled 3 and 6, and only 6 is the residue of the simulated day
      that observation is compared against. */
  lemma ShortSeriesMislabelled(dataTested: seq<real>, dataDead: seq<real>)
    requires |dataTested| == 10 && |dataDead| == 10
    ensures DesignRows(dataTested, dataDead, 14, 0).Some?
    ensures var rows := DesignRows(dataTested, dataDead, 14, 0).value;
      && |rows| == 14
      && rows[0].newPositive == dataTested[6] && rows[0].dow == 3
      && rows[10].newPositive == dataTested[6] && rows[10].dow == 6
      && Residue(6, 10) == 6
  {
    var days := Range(-4, 10);
    assert days[0] == -4 && days[10] == 6;
    var tested := Gather(dataTested, days, 0);
    assert tested.Some?;
    assert Some(tested.value[0]) == PyIndex(dataTested, -4);
    assert Some(tested.value[10]) == PyIndex(dataTested, 6);
  }

  /** The aligned rows always exist when both series are equally long,
      and there is one per day of the clamped window. */
  lemma AlignedRowsExist(dataTested: seq<real>, dataDead: seq<real>, w: nat, burnIn: nat)
    requires |dataDead| == |dataTested|
    ensures AlignedDesignRows(dataTested, dataDead, w, burnIn).Some?
    ensures |AlignedDesignRows(dataTested, dataDead, w, burnIn).value| == Min(w, |dataTested|)
  {
    var days := Range(Max(0, |dataTested| - w), |dataTested|);
    assert Gather(dataTested, days, 0).Some?;
    assert Gather(dataDead, days, 0).Some?;
  }

  /** Row `k` of the aligned rows is table position `k` and holds
      observation `lo + k` of both series, where `lo = max(0, n - w)`,
      labelled with the day of week of simulation day `lo + k + burn_in`. */
  lemma AlignedRowAt(dataTested: seq<real>, dataDead: seq<real>, w: nat, burnIn: nat, k: nat)
    requires |dataDead| == |dataTested| && k < Min(w, |dataTested|)
    ensures AlignedDesignRows(dataTested, dataDead, w, burnIn).Some?
    ensures var row := AlignedDesignRows(dataTested, dataDead, w, burnIn).value[k];
      var i := Max(0, |dataTested| - w) + k;
      && row.x == k && row.origInd == i + burnIn
      && i < |dataTested| && row.newPositive == dataTested[i] && row.newDeceased == dataDead[i]
      && row.dow == DayOfWeek(i + burnIn)
  {
    AlignedRowsExist(dataTested, dataDead, w, burnIn);
    var days := Range(Max(0, |dataTested| - w), |dataTested|);
    var tested := Gather(dataTested, days, 0).value;
    var dead := Gather(dataDead, days, 0).value;
    assert Some(tested[k]) == PyIndex(dataTested, days[k]);
    assert Some(dead[k]) == PyIndex(dataDead, days[k]);
  }

  /** The day-of-week label of a row is the residue that selects the
      multiplier of the simulated day the likelihood compares its
      observation against: row `k` holds observation `i = lo + k`, the
      likelihood reads simulated day `i + burn_in`, and the multiplier loop
      scales that day by the multiplier of residue `dow`. */
  lemma RowLabelMatchesSimulation(dataTested: seq<real>, dataDead: seq<real>, w: nat, burnIn: nat,
                                  c: seq<real>, mult: seq<real>, k: nat)
    requires |dataDead| == |dataTested|
    requires |mult| == Min(7, |c|) && |c| >= |dataTested| + burnIn
    requires k < Min(w, |dataTested|)
    ensures AlignedDesignRows(dataTested, dataDead, w, burnIn).Some?
    ensures var row := AlignedDesignRows(dataTested, dataDead, w, burnIn).value[k];
      && 0 <= row.origInd < |c| && row.dow < |mult|
      && ApplyMultipliers(c, mult)[row.origInd] == c[row.origInd] * mult[row.dow]
  {
    AlignedRowAt(dataTested, dataDead, w, burnIn, k);
    var row := AlignedDesignRows(dataTested, dataDead, w, burnIn).value[k];
    MultiplierAt(c, mult, row.origInd);
  }

  /** `day1` … `day6` of a PyMC3 row: `1 if dow == d else 0`. */
  function DayIndicators(dow: nat): (r: seq<int>)
    ensures |r| == 6
  {
    seq(6, j => if dow == j + 1 then 1 else 0)
  }

  /** The indicator columns are one-hot: column `d - 1` is set exactly for
      label `d`, so at most one is set, and none is set exactly for label
      0, the baseline day. */
  lemma DayIndicatorsOneHot(dow: nat)
    requires dow < 7
    ensures forall j :: 0 <= j < 6 ==> DayIndicators(dow)[j] == 0 || DayIndicators(dow)[j] == 1
    ensures forall j :: 0 <= j < 6 ==> (DayIndicators(dow)[j] == 1 <==> dow == j + 1)
    ensures forall i, j :: 0 <= i < j < 6 ==> DayIndicators(dow)[i] == 0 || DayIndicators(dow)[j] == 0
    ensures (forall j :: 0 <= j < 6 ==> DayIndicators(dow)[j] == 0) <==> dow == 0
  {
    if dow > 0 {
      assert DayIndicators(dow)[dow - 1] == 1;
    }
  }

  /** The day-of-week term of the PyMC3 mean,
      `day1_mult * day1 + … + day6_mult * day6`. */
  function DayEffect(mult: seq<real>, ind: seq<int>): real
    requires |mult| == 6 && |ind| == 6
  {
    mult[0] * ind[0] as real + mult[1] * ind[1] as real + mult[2] * ind[2] as real
    + mult[3] * ind[3] as real + mult[4] * ind[4] as real + mult[5] * ind[5] as real
  }

  /** The day term picks the one multiplier of the row's label, and nothing
      on the baseline day. */
  lemma DayEffectSelects(mult: seq<real>, dow: nat)
    requires |mult| == 6 && dow < 7
    ensures DayEffect(mult, DayIndicators(dow)) == if dow == 0 then 0.0 else mult[dow - 1]
  {
    var ind := DayIndicators(dow);
    assert ind == [if dow == 1 then 1 else 0, if dow == 2 then 1 else 0, if dow == 3 then 1 else 0,
                   if dow == 4 then 1 else 0, if dow == 5 then 1 else 0, if dow == 6 then 1 else 0];
  }

  /** A row of the PyMC3 table: the design row, the logged observations and
      the six indicator columns. */
  datatype PyMC3Row = PyMC3Row(row: DesignRow, logNewTested: real, logNewDead: real, days: seq<int>)

  /** The PyMC3 table over given design rows. */
  function PyMC3Rows(log: Log, rows: seq<DesignRow>, logOffset: real): (r: seq<PyMC3Row>)
    ensures |r| == |rows|
    ensures forall k :: 0 <= k < |r| ==> r[k].row == rows[k] && |r[k].days| == 6
  {
    seq(|rows|, k requires 0 <= k < |rows| =>
      PyMC3Row(rows[k], log(rows[k].newPositive + logOffset), log(rows[k].newDeceased + logOffset),
               DayIndicators(rows[k].dow)))
  }

  /** The mean of the PyMC3 likelihood for one row:
      `intercept + x_coeff * x + day1_mult * day1 + … + day6_mult * day6`. */
  function PyMC3Mean(intercept: real, slope: real, mult: seq<real>, r: PyMC3Row): real
    requires |mult| == 6 && |r.days| == 6
  {
    intercept + slope * r.row.x as real + DayEffect(mult, r.days)
  }

  /** On every row the mean is the log-linear trend plus the multiplier of
      the row's day of week, with none on the baseline day. */
  lemma PyMC3MeanByDay(log: Log, rows: seq<DesignRow>, logOffset: real, intercept: real, slope: real,
                       mult: seq<real>, k: nat)
    requires |mult| == 6 && k < |rows| && rows[k].dow < 7
    ensures PyMC3Mean(intercept, slope, mult, PyMC3Rows(log, rows, logOffset)[k])
         == intercept + slope * rows[k].x as real + (if rows[k].dow == 0 then 0.0 else mult[rows[k].dow - 1])
  {
    DayEffectSelects(mult, rows[k].dow);
  }
}
