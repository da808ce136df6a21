// Turning fitted results into parameter samples: the loops that exponentiate
// the logarithmic parameters, the assembly of one statsmodels draw into a
// full parameter vector, and the PyMC3 resampler.
module Samples {
  import opened Wrappers
  import opened PyLists
  import opened PyText
  import opened ParamNames
  import opened Simulation

  /** Whether a loop over `logarithmic_params` acts on `name`: the loop of
      the statsmodels fit skips the names that contain `sigma`, the loop of
      the statsmodels sampler skips nothing. */
  predicate Acts(name: string, skipSigma: bool) {
    !(skipSigma && Contains(name, "sigma"))
  }

  /** The names such a loop acts on. */
  function Listed(names: seq<string>, skipSigma: bool): set<string> {
    set n | n in names && Acts(n, skipSigma)
  }

  /** `for name in names: d[name] = exp(d.pop(name))` (the pop-then-store
      leaves the key where it was); `None` is the KeyError of a listed name
      that is not in the dictionary. */
  function ExpListed(exp: Exp, d: map<string, real>, names: seq<string>, skipSigma: bool): Option<map<string, real>>
    decreases |names|
  {
    if |names| == 0 then Some(d)
    else if !Acts(names[0], skipSigma) then ExpListed(exp, d, names[1..], skipSigma)
    else if names[0] in d then ExpListed(exp, d[names[0] := exp(d[names[0]])], names[1..], skipSigma)
    else None
  }

  /** The reference for the exponentiation loops: every key of `keys`
      exponentiated once, every other key left alone. */
  function ExpKeys(exp: Exp, d: map<string, real>, keys: set<string>): (r: map<string, real>)
    ensures r.Keys == d.Keys
  {
    map k | k in d :: if k in keys then exp(d[k]) else d[k]
  }

  /** The loop over the logarithmic parameters, one entry at a time. */
  method ExponentiateListed(exp: Exp, d: map<string, real>, names: seq<string>, skipSigma: bool)
    returns (r: Option<map<string, real>>)
    ensures r == ExpListed(exp, d, names, skipSigma)
  {
    var cur := d;
    var i := 0;
    while i < |names|
      invariant 0 <= i <= |names|
      invariant ExpListed(exp, d, names, skipSigma) == ExpListed(exp, cur, names[i..], skipSigma)
    {
      assert names[i..][1..] == names[i + 1..];
      var name := names[i];
      if Acts(name, skipSigma) {
        if name !in cur {
          return None;
        }
        cur := cur[name := exp(cur[name])];
      }
      i := i + 1;
    }
    return Some(cur);
  }

  lemma ListedCons(names: seq<string>, skipSigma: bool)
    requires |names| > 0
    ensures Acts(names[0], skipSigma) ==> Listed(names, skipSigma) == {names[0]} + Listed(names[1..], skipSigma)
    ensures !Acts(names[0], skipSigma) ==> Listed(names, skipSigma) == Listed(names[1..], skipSigma)
  {
    assert names == [names[0]] + names[1..];
  }

  /** Exponentiating one more key up front is the reference with that key
      added. */
  lemma ExpKeysStep(exp: Exp, d: map<string, real>, n: string, keys: set<string>)
    requires n in d && n !in keys
    ensures ExpKeys(exp, d[n := exp(d[n])], keys) == ExpKeys(exp, d, {n} + keys)
  {
  }

  /** With repeat-free names, the loop exponentiates every listed name
      exactly once and touches no other key; it fails exactly when a listed
      name is missing. */
  lemma {:induction false} ExpListedOnce(exp: Exp, d: map<string, real>, names: seq<string>, skipSigma: bool)
    requires forall i, j :: 0 <= i < j < |names| ==> names[i] != names[j]
    ensures ExpListed(exp, d, names, skipSigma).Some? <==> Listed(names, skipSigma) <= d.Keys
    ensures ExpListed(exp, d, names, skipSigma).Some? ==>
      ExpListed(exp, d, names, skipSigma).value == ExpKeys(exp, d, Listed(names, skipSigma))
    decreases |names|
  {
    if |names| > 0 {
      var n, rest := names[0], names[1..];
      ListedCons(names, skipSigma);
      assert forall j :: 0 <= j < |rest| ==> rest[j] == names[j + 1];
      if !Acts(n, skipSigma) {
        ExpListedOnce(exp, d, rest, skipSigma);
      } else if n in d {
        assert n !in Listed(rest, skipSigma);
        ExpListedOnce(exp, d[n := exp(d[n])], rest, skipSigma);
        ExpKeysStep(exp, d, n, Listed(rest, skipSigma));
      }
    }
  }

  /** `for key in d: if key in logarithmic_params: d[key] = exp(d[key])`,
      over the keys in some order. */
  method ExponentiateKeys(exp: Exp, d: map<string, real>, keys: set<string>) returns (r: map<string, real>)
    ensures r == ExpKeys(exp, d, keys)
  {
    r := d;
    var todo := d.Keys;
    while todo != {}
      invariant todo <= d.Keys && r.Keys == d.Keys
      invariant forall k :: k in d ==> r[k] == if k in keys && k !in todo then exp(d[k]) else d[k]
      decreases todo
    {
      var k :| k in todo;
      if k in keys {
        r := r[k := exp(r[k])];
      }
      todo := todo - {k};
    }
  }

  /** Each key of a dictionary run through the keys loop is exponentiated
      exactly when it is a logarithmic parameter, and no key is added or
      removed. */
  lemma ExpKeysOnce(exp: Exp, d: map<string, real>, keys: set<string>, k: string)
    requires k in d
    ensures ExpKeys(exp, d, keys).Keys == d.Keys
    ensures k in keys ==> ExpKeys(exp, d, keys)[k] == exp(d[k])
    ensures k !in keys ==> ExpKeys(exp, d, keys)[k] == d[k]
  {
  }

  /** One statsmodels draw as a dictionary: the positive and the deceased
      draw read by the index maps of their fitted names `fp` and `fd`,
      merged with the deceased values last, and both `sigma_*` entries set
      to 1; `None` is the IndexError of a draw that is too short. */
  function MergedDraw(drawPos: seq<real>, drawDec: seq<real>, fp: seq<string>, fd: seq<string>): Option<map<string, real>> {
    var pos :- VectorToDict(drawPos, IndexMap(fp));
    var dec :- VectorToDict(drawDec, IndexMap(fd));
    Some((pos + dec)[SigmaName(Positive) := 1.0][SigmaName(Deceased) := 1.0])
  }

  /** With draws as long as their name lists the merged draw exists, and
      its keys are the fitted names of both series and the two scale
      parameters, which are 1. */
  lemma MergedDrawKeys(drawPos: seq<real>, drawDec: seq<real>, fp: seq<string>, fd: seq<string>)
    requires |drawPos| == |fp| && |drawDec| == |fd|
    ensures MergedDraw(drawPos, drawDec, fp, fd).Some?
    ensures var r := MergedDraw(drawPos, drawDec, fp, fd).value;
      && r.Keys == (set n | n in fp) + (set n | n in fd) + {SigmaName(Positive), SigmaName(Deceased)}
      && r[SigmaName(Positive)] == 1.0 && r[SigmaName(Deceased)] == 1.0
  {
  }

  /** Draw `i` of a fitted name lands under that name, the deceased draw
      winning a name both series fit. */
  lemma MergedDrawAt(drawPos: seq<real>, drawDec: seq<real>, fp: seq<string>, fd: seq<string>, i: nat)
    requires forall a, b :: 0 <= a < b < |fp| ==> fp[a] != fp[b]
    requires forall a, b :: 0 <= a < b < |fd| ==> fd[a] != fd[b]
    requires SigmaName(Positive) !in fp && SigmaName(Deceased) !in fp
    requires SigmaName(Positive) !in fd && SigmaName(Deceased) !in fd
    requires |drawPos| == |fp| && |drawDec| == |fd|
    ensures MergedDraw(drawPos, drawDec, fp, fd).Some?
    ensures i < |fd| ==> MergedDraw(drawPos, drawDec, fp, fd).value[fd[i]] == drawDec[i]
    ensures i < |fp| && fp[i] !in fd ==> MergedDraw(drawPos, drawDec, fp, fd).value[fp[i]] == drawPos[i]
  {
    var ip, id := IndexMap(fp), IndexMap(fd);
    assert forall n :: n in ip ==> ip[n] < |drawPos|;
    assert forall n :: n in id ==> id[n] < |drawDec|;
    var pos := VectorToDict(drawPos, ip).value;
    var dec := VectorToDict(drawDec, id).value;
    var sp, sd := SigmaName(Positive), SigmaName(Deceased);
    var merged := (pos + dec)[sp := 1.0][sd := 1.0];
    assert MergedDraw(drawPos, drawDec, fp, fd) == Some(merged);
    if i < |fd| {
      IndexMapInverts(fd, i);
      assert fd[i] in fd;
      assert merged[fd[i]] == dec[fd[i]] == drawDec[i];
    }
    if i < |fp| && fp[i] !in fd {
      IndexMapInverts(fp, i);
      assert fp[i] in fp && fp[i] !in dec;
      assert merged[fp[i]] == pos[fp[i]] == drawPos[i];
    }
  }

  /** The scale parameters are never among the fitted names. */
  lemma SigmaNotFitted(sortedNames: seq<string>)
    ensures SigmaName(Positive) !in FittedNames(sortedNames, Positive)
    ensures SigmaName(Positive) !in FittedNames(sortedNames, Deceased)
    ensures SigmaName(Deceased) !in FittedNames(sortedNames, Positive)
    ensures SigmaName(Deceased) !in FittedNames(sortedNames, Deceased)
  {
    assert OccursAt(SigmaName(Positive), 0, "sigma");
    assert OccursAt(SigmaName(Deceased), 0, "sigma");
  }

  /** A merged draw with every logarithmic parameter exponentiated, as a
      vector in the order of the sorted names. */
  function SampleVector(exp: Exp, all: map<string, real>, sortedNames: seq<string>, logNames: seq<string>)
    : Option<seq<real>>
  {
    var logged :- ExpListed(exp, all, logNames, false);
    DictToVector(logged, sortedNames)
  }

  /** One sample of the statsmodels sampler, `fp` and `fd` being the fitted
      names of the two series; `None` is the exception raised on the way. */
  function StatsmodelsSample(exp: Exp, drawPos: seq<real>, drawDec: seq<real>, fp: seq<string>, fd: seq<string>,
                             sortedNames: seq<string>, logNames: seq<string>): Option<seq<real>>
  {
    var all :- MergedDraw(drawPos, drawDec, fp, fd);
    SampleVector(exp, all, sortedNames, logNames)
  }

  /** Entry `j` of a sample is the merged draw's value of sorted name `j`,
      exponentiated exactly when that name is a logarithmic parameter (a
      scale parameter listed there becomes `exp(1)`); the sample exists
      exactly when every logarithmic parameter and every sorted name is a
      key of the merged draw. */
  lemma SampleVectorAt(exp: Exp, all: map<string, real>, sortedNames: seq<string>, logNames: seq<string>, j: nat)
    requires forall a, b :: 0 <= a < b < |logNames| ==> logNames[a] != logNames[b]
    requires j < |sortedNames|
    ensures SampleVector(exp, all, sortedNames, logNames).Some?
        <==> (forall n :: n in logNames ==> n in all) && (forall n :: n in sortedNames ==> n in all)
    ensures SampleVector(exp, all, sortedNames, logNames).Some? ==>
      var n := sortedNames[j];
      SampleVector(exp, all, sortedNames, logNames).value[j] == if n in logNames then exp(all[n]) else all[n]
  {
    ExpListedOnce(exp, all, logNames, false);
    assert Listed(logNames, false) == set n | n in logNames;
  }

  /** All the values of a list of outcomes, or `None` when one of them
      failed. */
  function CollectSome<T>(xs: seq<Option<T>>): (r: Option<seq<T>>)
    ensures r.Some? <==> forall i :: 0 <= i < |xs| ==> xs[i].Some?
    ensures r.Some? ==> |r.value| == |xs| && forall i :: 0 <= i < |xs| ==> xs[i] == Some(r.value[i])
  {
    if |xs| == 0 then Some([])
    else
      var init := xs[..|xs| - 1];
      assert forall i :: 0 <= i < |init| ==> init[i] == xs[i];
      var rest := CollectSome(init);
      var last := xs[|xs| - 1];
      if rest.Some? && last.Some? then Some(rest.value + [last.value]) else None
  }

  /** A way of turning a pair of draws into a sample. */
  type DrawToSample = (seq<real>, seq<real>) -> Option<seq<real>>

  /** The samples `f` makes of draw pairs `0 .. n - 1`, in order; `None` is
      the IndexError of a missing draw or a failure of `f`. */
  function Collected(f: DrawToSample, drawsPos: seq<seq<real>>, drawsDec: seq<seq<real>>, n: nat)
    : Option<seq<seq<real>>>
    decreases n
  {
    if n == 0 then Some([])
    else
      var init :- Collected(f, drawsPos, drawsDec, n - 1);
      if n - 1 < |drawsPos| && n - 1 < |drawsDec| then
        var last :- f(drawsPos[n - 1], drawsDec[n - 1]);
        Some(init + [last])
      else None
  }

  /** The samples exist exactly when every draw pair is there and `f`
      accepts it, and then sample `i` is what `f` makes of pair `i`. */
  lemma {:induction false} CollectedAll(f: DrawToSample, drawsPos: seq<seq<real>>, drawsDec: seq<seq<real>>, n: nat)
    ensures Collected(f, drawsPos, drawsDec, n).Some? <==>
      (n <= |drawsPos| && n <= |drawsDec| && forall i :: 0 <= i < n ==> f(drawsPos[i], drawsDec[i]).Some?)
    ensures Collected(f, drawsPos, drawsDec, n).Some? ==>
      (&& |Collected(f, drawsPos, drawsDec, n).value| == n
       && forall i :: 0 <= i < n ==> f(drawsPos[i], drawsDec[i]) == Some(Collected(f, drawsPos, drawsDec, n).value[i]))
    decreases n
  {
    if n > 0 {
      CollectedAll(f, drawsPos, drawsDec, n - 1);
    }
  }

  /** One more draw pair: its sample is appended, or its failure fails the
      samples. */
  lemma CollectedStep(f: DrawToSample, drawsPos: seq<seq<real>>, drawsDec: seq<seq<real>>, i: nat,
                      samples: seq<seq<real>>, v: Option<seq<real>>)
    requires Collected(f, drawsPos, drawsDec, i) == Some(samples)
    requires i < |drawsPos| && i < |drawsDec| && v == f(drawsPos[i], drawsDec[i])
    ensures Collected(f, drawsPos, drawsDec, i + 1) == if v.None? then None else Some(samples + [v.value])
  {
  }

  /** Once the samples of a prefix fail, all of them fail. */
  lemma {:induction false} CollectedPrefix(f: DrawToSample, drawsPos: seq<seq<real>>, drawsDec: seq<seq<real>>,
                                           k: nat, n: nat)
    requires k <= n && Collected(f, drawsPos, drawsDec, k).None?
    ensures Collected(f, drawsPos, drawsDec, n).None?
    decreases n - k
  {
    if k < n {
      CollectedPrefix(f, drawsPos, drawsDec, k + 1, n);
    }
  }

  /** The statsmodels sampler's way of making a sample of a draw pair. */
  function SampleOf(exp: Exp, fp: seq<string>, fd: seq<string>, sortedNames: seq<string>, logNames: seq<string>)
    : DrawToSample
  {
    (drawPos, drawDec) => StatsmodelsSample(exp, drawPos, drawDec, fp, fd, sortedNames, logNames)
  }

  /** The samples for draws `0 .. n - 1`; `None` is the IndexError of a
      missing draw or an exception in one of the samples. */
  function StatsmodelsSamples(exp: Exp, drawsPos: seq<seq<real>>, drawsDec: seq<seq<real>>, n: nat,
                              fp: seq<string>, fd: seq<string>, sortedNames: seq<string>, logNames: seq<string>): (r: Option<seq<seq<real>>>)
    ensures r.Some? <==> (n <= |drawsPos| && n <= |drawsDec|
      && forall i :: 0 <= i < n ==> StatsmodelsSample(exp, drawsPos[i], drawsDec[i], fp, fd, sortedNames, logNames).Some?)
    ensures r.Some? ==> (|r.value| == n
      && forall i :: 0 <= i < n ==> StatsmodelsSample(exp, drawsPos[i], drawsDec[i], fp, fd, sortedNames, logNames) == Some(r.value[i]))
  {
    CollectedAll(SampleOf(exp, fp, fd, sortedNames, logNames), drawsPos, drawsDec, n);
    Collected(SampleOf(exp, fp, fd, sortedNames, logNames), drawsPos, drawsDec, n)
  }

  /** The body of the sampler's loop for one draw pair: merge, exponentiate
      the logarithmic parameters in place, read off the vector. */
  method SampleDraw(exp: Exp, drawPos: seq<real>, drawDec: seq<real>, fp: seq<string>, fd: seq<string>,
                    sortedNames: seq<string>, logNames: seq<string>) returns (v: Option<seq<real>>)
    ensures v == StatsmodelsSample(exp, drawPos, drawDec, fp, fd, sortedNames, logNames)
  {
    var all := MergedDraw(drawPos, drawDec, fp, fd);
    if all.None? {
      return None;
    }
    var logged := ExponentiateListed(exp, all.value, logNames, false);
    if logged.None? {
      return None;
    }
    v := DictToVector(logged.value, sortedNames);
  }

  /** The loop `for i in range(n_samples)` of the statsmodels sampler: one
      sample per draw pair, made by `f` and appended in order. */
  method DrawSamples(f: DrawToSample, drawsPos: seq<seq<real>>, drawsDec: seq<seq<real>>, n: nat)
    returns (r: Option<seq<seq<real>>>)
    ensures r == Collected(f, drawsPos, drawsDec, n)
    ensures r.Some? ==> |r.value| == n
  {
    var samples: seq<seq<real>> := [];
    var i := 0;
    while i < n
      invariant 0 <= i <= n && |samples| == i
      invariant Collected(f, drawsPos, drawsDec, i) == Some(samples)
    {
      if i >= |drawsPos| || i >= |drawsDec| {
        CollectedPrefix(f, drawsPos, drawsDec, i + 1, n);
        return None;
      }
      var v := f(drawsPos[i], drawsDec[i]);
      CollectedStep(f, drawsPos, drawsDec, i, samples, v);
      if v.None? {
        CollectedPrefix(f, drawsPos, drawsDec, i + 1, n);
        return None;
      }
      samples := samples + [v.value];
      i := i + 1;
    }
    return Some(samples);
  }

  /** `samples = [samples[i] for i in sampled_ind]` and likewise for the log
      probabilities; `None` is the IndexError of an index past either
      list. */
  function Resample<T>(samples: seq<T>, logProbs: seq<real>, ind: seq<nat>): Option<(seq<T>, seq<real>)> {
    if forall k :: 0 <= k < |ind| ==> ind[k] < |samples| && ind[k] < |logProbs| then
      Some((seq(|ind|, k requires 0 <= k < |ind| => samples[ind[k]]),
            seq(|ind|, k requires 0 <= k < |ind| => logProbs[ind[k]])))
    else None
  }

  /** Resampling keeps samples and log probabilities paired: it yields one
      of each per drawn index, and when every stored log probability is the
      log likelihood of its sample, every resampled one still is. */
  lemma ResampleAligned<T>(samples: seq<T>, logProbs: seq<real>, ind: seq<nat>, logLik: T -> real)
    requires forall k :: 0 <= k < |ind| ==> ind[k] < |samples| && ind[k] < |logProbs|
    requires forall i :: 0 <= i < |samples| && i < |logProbs| ==> logProbs[i] == logLik(samples[i])
    ensures Resample(samples, logProbs, ind).Some?
    ensures var r := Resample(samples, logProbs, ind).value;
      && |r.0| == |ind| == |r.1|
      && (forall k :: 0 <= k < |ind| ==> r.0[k] == samples[ind[k]] && r.1[k] == logLik(r.0[k]))
  {
  }

  /** The PyMC3 trace as dictionaries: the positive and deceased draws
      paired up by `zip`, which stops at the shorter trace, merged with the
      deceased values last, and every logarithmic parameter exponentiated. */
  method AssembleTrace(exp: Exp, posTrace: seq<map<string, real>>, decTrace: seq<map<string, real>>, logNames: set<string>)
    returns (dicts: seq<map<string, real>>)
    ensures |dicts| == Min(|posTrace|, |decTrace|)
    ensures forall i :: 0 <= i < |dicts| ==> dicts[i] == ExpKeys(exp, posTrace[i] + decTrace[i], logNames)
  {
    dicts := [];
    var i := 0;
    while i < |posTrace| && i < |decTrace|
      invariant 0 <= i <= Min(|posTrace|, |decTrace|) && |dicts| == i
      invariant forall k :: 0 <= k < i ==> dicts[k] == ExpKeys(exp, posTrace[k] + decTrace[k], logNames)
    {
      var d := ExponentiateKeys(exp, posTrace[i] + decTrace[i], logNames);
      dicts := dicts + [d];
      i := i + 1;
    }
  }

  /** `[convert_params_as_dict_to_list(d) for d in dicts]`. */
  function DictsToVectors(dicts: seq<map<string, real>>, sortedNames: seq<string>): (r: Option<seq<seq<real>>>)
    ensures r.Some? <==> forall i :: 0 <= i < |dicts| ==> DictToVector(dicts[i], sortedNames).Some?
    ensures r.Some? ==> (|r.value| == |dicts|
      && forall i :: 0 <= i < |dicts| ==> Some(r.value[i]) == DictToVector(dicts[i], sortedNames))
  {
    if |dicts| == 0 then Some([])
    else
      var init := dicts[..|dicts| - 1];
      assert forall i :: 0 <= i < |init| ==> init[i] == dicts[i];
      var rest := DictsToVectors(init, sortedNames);
      var last := DictToVector(dicts[|dicts| - 1], sortedNames);
      if rest.Some? && last.Some? then Some(rest.value + [last.value]) else None
  }
}
