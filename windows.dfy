// The index bookkeeping of the moving-window fit: which observation days of
// a series enter the likelihood, and how each observation is paired with the
// simulated day it is compared against.
module Windows {
  import opened Wrappers
  import opened PyLists
  import opened Simulation

  /** `list(range(max(threshold, n - w), n))`: the trailing window of one
      series of `n` observations. */
  function TrailingWindow(threshold: int, n: nat, w: nat): (r: seq<int>)
    ensures |r| == Max(n - Max(threshold, n - w), 0)
    ensures forall k :: 0 <= k < |r| ==> r[k] == Max(threshold, n - w) + k
  {
    Range(Max(threshold, n - w), n)
  }

  /** The window holds exactly the days at or after the threshold day among
      the last `w` of the series, in increasing order; it never has more
      than `w` entries and is empty once the threshold is not met by day
      `n - 1`. */
  lemma TrailingWindowContents(threshold: int, n: nat, w: nat)
    ensures forall i :: i in TrailingWindow(threshold, n, w) <==> threshold <= i < n && n - w <= i
    ensures |TrailingWindow(threshold, n, w)| <= w
    ensures threshold >= n ==> TrailingWindow(threshold, n, w) == []
    ensures forall a, b :: 0 <= a < b < |TrailingWindow(threshold, n, w)| ==>
      TrailingWindow(threshold, n, w)[a] < TrailingWindow(threshold, n, w)[b]
  {
    var r := TrailingWindow(threshold, n, w);
    var lo := Max(threshold, n - w);
    forall i ensures i in r <==> threshold <= i < n && n - w <= i {
      if lo <= i < n {
        assert r[i - lo] == i;
      }
    }
  }

  /** The default likelihood indices `window[-w:]` are the whole window,
      because the window never has more than `w` entries. */
  lemma DefaultIndicesAreWindow(threshold: int, n: nat, w: nat)
    ensures LastN(TrailingWindow(threshold, n, w), w) == TrailingWindow(threshold, n, w)
  {
    TrailingWindowContents(threshold, n, w);
  }

  /** With a threshold day that is not negative, every window index is a
      valid observation day. */
  lemma TrailingWindowInRange(threshold: int, n: nat, w: nat)
    requires threshold >= 0
    ensures forall k :: 0 <= k < |TrailingWindow(threshold, n, w)| ==> 0 <= TrailingWindow(threshold, n, w)[k] < n
  {
  }

  /** `[xs[i + shift] for i in idx]` with Python's indexing; `None` is the
      IndexError of an index that falls outside `xs`. */
  function Gather(xs: seq<real>, idx: seq<int>, shift: int): (r: Option<seq<real>>)
    ensures r.Some? <==> forall k :: 0 <= k < |idx| ==> -|xs| <= idx[k] + shift < |xs|
    ensures r.Some? ==> |r.value| == |idx|
    ensures r.Some? ==> forall k :: 0 <= k < |idx| ==> Some(r.value[k]) == PyIndex(xs, idx[k] + shift)
  {
    if |idx| == 0 then Some([])
    else
      var init := idx[..|idx| - 1];
      var rest := Gather(xs, init, shift);
      var last := PyIndex(xs, idx[|idx| - 1] + shift);
      assert forall k :: 0 <= k < |init| ==> init[k] == idx[k];
      if rest.Some? && last.Some? then Some(rest.value + [last.value]) else None
  }

  /** `[log(x + log_offset) for x in xs]`. */
  function Logged(log: Log, xs: seq<real>, logOffset: real): (r: seq<real>)
    ensures |r| == |xs|
  {
    seq(|xs|, k requires 0 <= k < |xs| => log(xs[k] + logOffset))
  }

  /** `[predicted[i] - actual[i] for i in range(len(predicted))]`. */
  function Dists(predicted: seq<real>, actual: seq<real>): (r: seq<real>)
    requires |actual| >= |predicted|
    ensures |r| == |predicted|
  {
    seq(|predicted|, k requires 0 <= k < |predicted| => predicted[k] - actual[k])
  }

  /** What `_get_log_likelihood_precursor` returns besides the solution it
      was given: residuals, the (empty) other errors, the raw observations
      and the logged series on both sides. */
  datatype Precursor = Precursor(
    newTestedDists: seq<real>, newDeadDists: seq<real>, otherErrs: seq<real>,
    testedVals: seq<real>, deceasedVals: seq<real>,
    predictedTested: seq<real>, actualTested: seq<real>,
    predictedDead: seq<real>, actualDead: seq<real>)

  /** The likelihood precursor for a simulated solution: observation `i` of
      each index list is compared with simulated day `i + burn_in`; `None`
      is the IndexError of an index outside the data or the solution. */
  function LikelihoodPrecursor(log: Log, sol: Solution, dataTested: seq<real>, dataDead: seq<real>,
                               casesIdx: seq<int>, deathsIdx: seq<int>, burnIn: nat, logOffset: real)
    : Option<Precursor>
  {
    var actT :- Gather(dataTested, casesIdx, 0);
    var simT :- Gather(sol.positive, casesIdx, burnIn);
    var actD :- Gather(dataDead, deathsIdx, 0);
    var simD :- Gather(sol.deceased, deathsIdx, burnIn);
    var actualTested, predictedTested := Logged(log, actT, logOffset), Logged(log, simT, logOffset);
    var actualDead, predictedDead := Logged(log, actD, logOffset), Logged(log, simD, logOffset);
    Some(Precursor(
      Dists(predictedTested, actualTested), Dists(predictedDead, actualDead), [],
      actT, actD, predictedTested, actualTested, predictedDead, actualDead))
  }

  /** The residual of observation `i` of one series: the logged simulated
      day `i + burn_in` less the logged observation `i`. */
  function Residual(log: Log, sim: seq<real>, data: seq<real>, i: int, burnIn: nat, logOffset: real): real
    requires 0 <= i < |data| && i + burnIn < |sim|
  {
    log(sim[i + burnIn] + logOffset) - log(data[i] + logOffset)
  }

  /** One precursor series, entry by entry: it is as long as its index list,
      entry `k` is the residual of observation `idx[k]` against simulated day
      `idx[k] + burn_in`, and the raw value is observation `idx[k]`. */
  predicate PairsUp(log: Log, sim: seq<real>, data: seq<real>, idx: seq<int>, burnIn: nat, logOffset: real,
                    dists: seq<real>, vals: seq<real>)
  {
    && |dists| == |idx| && |vals| == |idx|
    && forall k :: 0 <= k < |idx| ==>
         && 0 <= idx[k] < |data| && idx[k] + burnIn < |sim|
         && dists[k] == Residual(log, sim, data, idx[k], burnIn, logOffset)
         && vals[k] == data[idx[k]]
  }

  /** For index lists of valid observation days, the precursor exists
      exactly when the solution reaches the last compared day, and then
      pairs observation `i` with simulated day `i + burn_in` in both
      series. */
  lemma PrecursorAligned(log: Log, sol: Solution, dataTested: seq<real>, dataDead: seq<real>,
                         casesIdx: seq<int>, deathsIdx: seq<int>, burnIn: nat, logOffset: real)
    requires forall k :: 0 <= k < |casesIdx| ==> 0 <= casesIdx[k] < |dataTested|
    requires forall k :: 0 <= k < |deathsIdx| ==> 0 <= deathsIdx[k] < |dataDead|
    ensures LikelihoodPrecursor(log, sol, dataTested, dataDead, casesIdx, deathsIdx, burnIn, logOffset).Some?
      <==> ((forall k :: 0 <= k < |casesIdx| ==> casesIdx[k] + burnIn < |sol.positive|)
            && (forall k :: 0 <= k < |deathsIdx| ==> deathsIdx[k] + burnIn < |sol.deceased|))
    ensures LikelihoodPrecursor(log, sol, dataTested, dataDead, casesIdx, deathsIdx, burnIn, logOffset).Some? ==>
      var p := LikelihoodPrecursor(log, sol, dataTested, dataDead, casesIdx, deathsIdx, burnIn, logOffset).value;
      && PairsUp(log, sol.positive, dataTested, casesIdx, burnIn, logOffset, p.newTestedDists, p.testedVals)
      && PairsUp(log, sol.deceased, dataDead, deathsIdx, burnIn, logOffset, p.newDeadDists, p.deceasedVals)
      && p.otherErrs == []
  {
    var r := LikelihoodPrecursor(log, sol, dataTested, dataDead, casesIdx, deathsIdx, burnIn, logOffset);
    if r.Some? {
      var p := r.value;
      var simT := Gather(sol.positive, casesIdx, burnIn).value;
      var simD := Gather(sol.deceased, deathsIdx, burnIn).value;
      forall k | 0 <= k < |casesIdx|
        ensures p.newTestedDists[k] == Residual(log, sol.positive, dataTested, casesIdx[k], burnIn, logOffset)
      {
        assert Some(simT[k]) == PyIndex(sol.positive, casesIdx[k] + burnIn);
      }
      forall k | 0 <= k < |deathsIdx|
        ensures p.newDeadDists[k] == Residual(log, sol.deceased, dataDead, deathsIdx[k], burnIn, logOffset)
      {
        assert Some(simD[k]) == PyIndex(sol.deceased, deathsIdx[k] + burnIn);
      }
    }
  }
}
