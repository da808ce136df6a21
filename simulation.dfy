// What `MovingWindowModel.run_simulation` computes: per series, an
// exponential curve anchored at the start of the moving window, clamped at
// zero, then scaled by one of seven day-of-week multipliers per grid day.
module Simulation {
  import opened Wrappers
  import opened PyLists
  import opened ParamNames

  /** `np.exp`: all the model relies on is that it is positive. */
  type Exp = f: real -> real | forall x :: f(x) > 0.0 witness (x: real) => 1.0

  /** `np.log`, left uninterpreted. */
  type Log = real -> real

  /** The three rows of the simulated solution: an unused `contagious` row
      of `None`s, then the positive and deceased series. */
  datatype Solution = Solution(contagious: seq<Option<real>>, positive: seq<real>, deceased: seq<real>)

  /** One grid day of the curve before the multipliers:
      `max(exp(t * slope) * ((intercept - log_offset) / exp(anchor * slope)), 0)`. */
  function Curve(exp: Exp, t: real, slope: real, intercept: real, logOffset: real, anchor: real): (r: real)
    ensures r >= 0.0
    ensures r > 0.0 <==> intercept > logOffset
  {
    var e1, e2 := exp(t * slope), exp(anchor * slope);
    var v := e1 * ((intercept - logOffset) / e2);
    assert v > 0.0 <==> intercept > logOffset by {
      assert e1 > 0.0 && e2 > 0.0;
      if intercept > logOffset {
        assert (intercept - logOffset) / e2 > 0.0;
      } else {
        assert (intercept - logOffset) / e2 <= 0.0;
      }
    }
    if v >= 0.0 then v else 0.0
  }

  /** At the anchor day the curve is the intercept less the logarithm
      offset: the intercept is the level at the start of the window. */
  lemma CurveAtAnchor(exp: Exp, slope: real, intercept: real, logOffset: real, anchor: real)
    requires intercept >= logOffset
    ensures Curve(exp, anchor, slope, intercept, logOffset, anchor) == intercept - logOffset
  {
    var e := exp(anchor * slope);
    var x := intercept - logOffset;
    assert e > 0.0;
    assert e * (x / e) == x;
  }

  /** The parameters of one series as `run_simulation` reads them: slope,
      intercept, and the multipliers of the residues modulo 7 that occur on
      the grid. */
  datatype SeriesParams = SeriesParams(slope: real, intercept: real, multipliers: seq<real>)

  /** The multiplier keys the loop of `run_simulation` reads for one series
      on a grid of `n` days: those of the residues that occur. */
  predicate MultipliersPresent(params: map<string, real>, s: Series, n: nat) {
    forall k :: 0 <= k < Min(7, n) ==> Multiplier(k, s) in params
  }

  /** The multipliers of those residues, by residue. */
  function Multipliers(params: map<string, real>, s: Series, n: nat): (r: seq<real>)
    requires MultipliersPresent(params, s, n)
    ensures |r| == Min(7, n)
    ensures forall k :: 0 <= k < Min(7, n) ==> r[k] == params[Multiplier(k, s)]
  {
    seq(Min(7, n), k requires 0 <= k < Min(7, n) => params[Multiplier(k, s)])
  }

  /** The keys `run_simulation` reads for one series on a grid of `n` days. */
  predicate SeriesKeysPresent(params: map<string, real>, s: Series, n: nat) {
    && Slope(s) in params
    && Intercept(s) in params
    && MultipliersPresent(params, s, n)
  }

  /** Reading one series' parameters out of the dictionary; `None` is the
      KeyError of a key that is read but missing. */
  function ReadSeries(params: map<string, real>, s: Series, n: nat): (r: Option<SeriesParams>)
    ensures r.Some? <==> SeriesKeysPresent(params, s, n)
    ensures r.Some? ==> && r.value.slope == params[Slope(s)]
                        && r.value.intercept == params[Intercept(s)]
                        && r.value.multipliers == Multipliers(params, s, n)
  {
    if SeriesKeysPresent(params, s, n) then
      Some(SeriesParams(params[Slope(s)], params[Intercept(s)], Multipliers(params, s, n)))
    else None
  }

  /** The clamped curve of one series on the whole grid: never negative,
      and positive on every day exactly when the intercept is above the
      logarithm offset. */
  function SeriesCurve(exp: Exp, slope: real, intercept: real, tVals: seq<real>, logOffset: real, anchor: real)
    : (r: seq<real>)
    ensures |r| == |tVals|
    ensures forall i :: 0 <= i < |r| ==> r[i] >= 0.0 && (r[i] > 0.0 <==> intercept > logOffset)
  {
    seq(|tVals|, i requires 0 <= i < |tVals| => Curve(exp, tVals[i], slope, intercept, logOffset, anchor))
  }

  /** The residue modulo 7 of day `i`, which selects its multiplier; on a
      grid of `n` days it is one of the first `min(7, n)` residues. */
  function Residue(i: nat, n: nat): (r: nat)
    requires i < n
    ensures r == i % 7 && r < Min(7, n)
  {
    assert i % 7 <= i;
    i % 7
  }

  /** The multiplier loop: day `i` is scaled by the multiplier of its
      residue modulo 7. */
  function ApplyMultipliers(c: seq<real>, mult: seq<real>): (r: seq<real>)
    requires |mult| == Min(7, |c|)
    ensures |r| == |c|
  {
    seq(|c|, i requires 0 <= i < |c| => c[i] * mult[Residue(i, |c|)])
  }

  /** `day0_<series>_multiplier` … `day6_<series>_multiplier`, by
      residue. */
  function MultiplierNames(s: Series): (r: seq<string>)
    ensures |r| == 7 && forall k :: 0 <= k < 7 ==> r[k] == Multiplier(k, s)
  {
    seq(7, k requires 0 <= k < 7 => Multiplier(k, s))
  }

  /** The multipliers of the residues that occur on a grid of `n` days as
      far as they are in `params`, with 1 standing in for a missing one;
      `keys` are the series' multiplier names. */
  function MultipliersOr1(params: map<string, real>, keys: seq<string>, n: nat): (r: seq<real>)
    requires |keys| == 7
    ensures |r| == Min(7, n)
  {
    seq(Min(7, n), k requires 0 <= k < Min(7, n) => if keys[k] in params then params[keys[k]] else 1.0)
  }

  /** The loop `for i in range(len(positive))` of `run_simulation`: day `i`
      of both series is multiplied in place by the multiplier of residue
      `i % 7` of its own series; `false` is the KeyError of a multiplier
      that is read but missing, and then the arrays are left half done.
      `kp` and `kd` are the multiplier names of the two series. */
  method MultiplyByDay(positive: array<real>, deceased: array<real>, params: map<string, real>,
                       kp: seq<string>, kd: seq<string>) returns (ok: bool)
    requires positive.Length == deceased.Length && positive != deceased
    requires |kp| == 7 && |kd| == 7
    modifies positive, deceased
    ensures ok <==> forall k :: 0 <= k < Min(7, positive.Length) ==> kp[k] in params && kd[k] in params
    ensures ok ==> positive[..] == ApplyMultipliers(old(positive[..]), MultipliersOr1(params, kp, positive.Length))
    ensures ok ==> deceased[..] == ApplyMultipliers(old(deceased[..]), MultipliersOr1(params, kd, deceased.Length))
  {
    var n := positive.Length;
    ghost var c, e := positive[..], deceased[..];
    ghost var tp := ApplyMultipliers(c, MultipliersOr1(params, kp, n));
    ghost var td := ApplyMultipliers(e, MultipliersOr1(params, kd, n));
    var i := 0;
    while i < n
      invariant 0 <= i <= n
      invariant forall j :: 0 <= j < i ==> kp[Residue(j, n)] in params && kd[Residue(j, n)] in params
      invariant forall j :: 0 <= j < i ==> positive[j] == tp[j] && deceased[j] == td[j]
      invariant forall j :: i <= j < n ==> positive[j] == c[j] && deceased[j] == e[j]
    {
      var r := Residue(i, n);
      if kp[r] !in params {
        return false;
      }
      assert tp[i] == c[i] * params[kp[r]];
      positive[i] := positive[i] * params[kp[r]];
      if kd[r] !in params {
        return false;
      }
      assert td[i] == e[i] * params[kd[r]];
      deceased[i] := deceased[i] * params[kd[r]];
      i := i + 1;
    }
    assert positive[..] == tp && deceased[..] == td;
    forall k | 0 <= k < Min(7, n) ensures kp[k] in params && kd[k] in params {
      assert Residue(k, n) == k;
    }
    return true;
  }

  /** When every multiplier that occurs is there, the multipliers the loop
      applies are the series' multipliers. */
  lemma MultipliersOr1Agree(params: map<string, real>, s: Series, n: nat)
    ensures MultipliersPresent(params, s, n) <==>
      forall k :: 0 <= k < Min(7, n) ==> MultiplierNames(s)[k] in params
    ensures MultipliersPresent(params, s, n) ==>
      MultipliersOr1(params, MultiplierNames(s), n) == Multipliers(params, s, n)
  {
    var names := MultiplierNames(s);
    assert forall k :: 0 <= k < Min(7, n) ==> names[k] == Multiplier(k, s);
    if MultipliersPresent(params, s, n) {
      var a, b := MultipliersOr1(params, names, n), Multipliers(params, s, n);
      assert forall k :: 0 <= k < Min(7, n) ==> a[k] == b[k];
    }
  }

  /** One series of the solution. */
  function SimulateSeries(exp: Exp, sp: SeriesParams, tVals: seq<real>, logOffset: real, anchor: real): (r: seq<real>)
    requires |sp.multipliers| == Min(7, |tVals|)
    ensures |r| == |tVals|
  {
    ApplyMultipliers(SeriesCurve(exp, sp.slope, sp.intercept, tVals, logOffset, anchor), sp.multipliers)
  }

  /** The solution `run_simulation` returns for the merged parameters, or
      `None` for the KeyError of a parameter it reads but is not there.  The
      anchor is the day `max_date_in_days - moving_window_size`. */
  function Simulate(exp: Exp, params: map<string, real>, tVals: seq<real>, logOffset: real, anchor: int): Option<Solution> {
    var pos := ReadSeries(params, Positive, |tVals|);
    var dec := ReadSeries(params, Deceased, |tVals|);
    if pos.Some? && dec.Some? then
      Some(Solution(
        seq(|tVals|, _ => None),
        SimulateSeries(exp, pos.value, tVals, logOffset, anchor as real),
        SimulateSeries(exp, dec.value, tVals, logOffset, anchor as real)))
    else None
  }

  /** The body of `run_simulation` after the parameters are merged: both
      clamped curves over the time grid, then the multiplier loop over them
      in place. */
  method SimulateInPlace(exp: Exp, params: map<string, real>, tVals: seq<real>, logOffset: real, anchor: int)
    returns (sol: Option<Solution>)
    ensures sol == Simulate(exp, params, tVals, logOffset, anchor)
  {
    if || Slope(Positive) !in params || Slope(Deceased) !in params
       || Intercept(Positive) !in params || Intercept(Deceased) !in params {
      return None;
    }
    var n := |tVals|;
    var cP := SeriesCurve(exp, params[Slope(Positive)], params[Intercept(Positive)], tVals, logOffset, anchor as real);
    var cD := SeriesCurve(exp, params[Slope(Deceased)], params[Intercept(Deceased)], tVals, logOffset, anchor as real);
    var positive := new real[n](j requires 0 <= j < n => cP[j]);
    var deceased := new real[n](j requires 0 <= j < n => cD[j]);
    assert positive[..] == cP && deceased[..] == cD;
    var ok := MultiplyByDay(positive, deceased, params, MultiplierNames(Positive), MultiplierNames(Deceased));
    MultipliersOr1Agree(params, Positive, n);
    MultipliersOr1Agree(params, Deceased, n);
    if !ok {
      return None;
    }
    sol := Some(Solution(seq(n, _ => None), positive[..], deceased[..]));
  }

  /** The row of series `s` in a solution. */
  function Row(sol: Solution, s: Series): seq<real> {
    match s
    case Positive => sol.positive
    case Deceased => sol.deceased
  }

  /** The solution exists exactly when both series' keys are there; it has
      three rows, each as long as the time grid, and the row of a series is
      computed from that series' parameters alone. */
  lemma SimulateShape(exp: Exp, params: map<string, real>, tVals: seq<real>, logOffset: real, anchor: int, s: Series)
    ensures Simulate(exp, params, tVals, logOffset, anchor).Some? <==>
      SeriesKeysPresent(params, Positive, |tVals|) && SeriesKeysPresent(params, Deceased, |tVals|)
    ensures Simulate(exp, params, tVals, logOffset, anchor).Some? ==>
      var sol := Simulate(exp, params, tVals, logOffset, anchor).value;
      && |sol.contagious| == |sol.positive| == |sol.deceased| == |tVals|
      && Row(sol, s) == SimulateSeries(exp, ReadSeries(params, s, |tVals|).value, tVals, logOffset, anchor as real)
  {
  }

  /** Day `i` after the multiplier loop is its curve value times the
      multiplier of residue `i mod 7`. */
  lemma MultiplierAt(c: seq<real>, mult: seq<real>, i: nat)
    requires |mult| == Min(7, |c|) && i < |c|
    ensures i % 7 < |mult|
    ensures ApplyMultipliers(c, mult)[i] == c[i] * mult[i % 7]
  {
    var r := Residue(i, |c|);
  }

  /** Exactly one multiplier acts on day `i`: changing the multiplier of any
      residue other than `i mod 7` leaves the day alone, while the
      multiplier of residue `i mod 7` scales its curve value. */
  lemma DayMultiplierApplied(c: seq<real>, mult: seq<real>, i: nat, k: nat, v: real)
    requires |mult| == Min(7, |c|) && i < |c| && k < |mult|
    ensures k != i % 7 ==> ApplyMultipliers(c, mult[k := v])[i] == ApplyMultipliers(c, mult)[i]
    ensures k == i % 7 ==> ApplyMultipliers(c, mult[k := v])[i] == c[i] * v
  {
    MultiplierAt(c, mult, i);
    MultiplierAt(c, mult[k := v], i);
  }

  lemma MulNonNegative(x: real, y: real)
    requires x >= 0.0 && y >= 0.0
    ensures x * y >= 0.0
  {
  }

  /** Non-negative multipliers keep a non-negative curve non-negative. */
  lemma MultipliersKeepNonNegative(c: seq<real>, mult: seq<real>)
    requires |mult| == Min(7, |c|)
    requires forall i :: 0 <= i < |c| ==> c[i] >= 0.0
    requires forall k :: 0 <= k < |mult| ==> mult[k] >= 0.0
    ensures forall i :: 0 <= i < |c| ==> ApplyMultipliers(c, mult)[i] >= 0.0
  {
    forall i | 0 <= i < |c| ensures ApplyMultipliers(c, mult)[i] >= 0.0 {
      MultiplierAt(c, mult, i);
      MulNonNegative(c[i], mult[i % 7]);
    }
  }

  /** A day whose curve value is zero stays zero, whatever its multiplier. */
  lemma MultipliersKeepZero(c: seq<real>, mult: seq<real>, i: nat)
    requires |mult| == Min(7, |c|) && i < |c|
    requires c[i] == 0.0
    ensures ApplyMultipliers(c, mult)[i] == 0.0
  {
    MultiplierAt(c, mult, i);
  }

  /** With non-negative multipliers every simulated count is non-negative. */
  lemma SimulateNonNegative(exp: Exp, sp: SeriesParams, tVals: seq<real>, logOffset: real, anchor: real)
    requires |sp.multipliers| == Min(7, |tVals|)
    requires forall k :: 0 <= k < |sp.multipliers| ==> sp.multipliers[k] >= 0.0
    ensures forall i :: 0 <= i < |tVals| ==> SimulateSeries(exp, sp, tVals, logOffset, anchor)[i] >= 0.0
  {
    MultipliersKeepNonNegative(SeriesCurve(exp, sp.slope, sp.intercept, tVals, logOffset, anchor), sp.multipliers);
  }

  /** An intercept at or below the logarithm offset clamps the whole series
      to zero, and the multipliers keep it there. */
  lemma SimulateZeroAtOffset(exp: Exp, sp: SeriesParams, tVals: seq<real>, logOffset: real, anchor: real)
    requires |sp.multipliers| == Min(7, |tVals|)
    requires sp.intercept <= logOffset
    ensures forall i :: 0 <= i < |tVals| ==> SimulateSeries(exp, sp, tVals, logOffset, anchor)[i] == 0.0
  {
    var c := SeriesCurve(exp, sp.slope, sp.intercept, tVals, logOffset, anchor);
    forall i | 0 <= i < |tVals| ensures ApplyMultipliers(c, sp.multipliers)[i] == 0.0 {
      MultipliersKeepZero(c, sp.multipliers, i);
    }
  }
}
