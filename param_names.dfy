// The parameter names of the moving-window model and the two ways a
// parameter set is held: a dictionary keyed by name, and a vector in the
// order of `sorted_names`.
module ParamNames {
  import opened Wrappers
  import opened PyText

  /** The two simulated series. */
  datatype Series = Positive | Deceased {
    function Name(): string {
      match this
      case Positive => "positive"
      case Deceased => "deceased"
    }
  }

  function Slope(s: Series): string {
    s.Name() + "_slope"
  }

  function Intercept(s: Series): string {
    s.Name() + "_intercept"
  }

  /** The digit `k` as a one-character string, for `k < 10`. */
  function Digit(k: nat): (r: string)
    requires k < 10
    ensures |r| == 1 && '0' <= r[0] <= '9'
  {
    [(('0' as int) + k) as char]
  }

  /** `day<k>_<series>_multiplier`: the factor applied to grid days whose
      index is `k` modulo 7. */
  function Multiplier(k: nat, s: Series): string
    requires k < 7
  {
    "day" + Digit(k) + "_" + s.Name() + "_multiplier"
  }

  /** `'sigma_' + series`, the scale parameter of a series, written out as
      a literal per series. */
  function SigmaName(s: Series): string {
    match s
    case Positive => "sigma_positive"
    case Deceased => "sigma_deceased"
  }

  /** The scale parameter's name is `sigma_` followed by the series name. */
  lemma SigmaNameParts(s: Series)
    ensures SigmaName(s) == "sigma_" + s.Name()
  {
  }

  /** Multiplier names tell their day and their series apart. */
  lemma MultiplierNamesDistinct(k1: nat, s1: Series, k2: nat, s2: Series)
    requires k1 < 7 && k2 < 7
    ensures Multiplier(k1, s1) == Multiplier(k2, s2) <==> k1 == k2 && s1 == s2
  {
    if Multiplier(k1, s1) == Multiplier(k2, s2) {
      assert Multiplier(k1, s1)[3] == Multiplier(k2, s2)[3];
      assert Multiplier(k1, s1)[5] == Multiplier(k2, s2)[5];
    }
  }

  /** A multiplier name is never a slope or an intercept name. */
  lemma MultiplierNotCurveName(k: nat, s: Series, s2: Series)
    requires k < 7
    ensures Multiplier(k, s) != Slope(s2) && Multiplier(k, s) != Intercept(s2)
  {
    assert Multiplier(k, s)[0] == 'd' && Multiplier(k, s)[1] == 'a';
    assert Slope(s2)[1] != 'a' && Intercept(s2)[1] != 'a';
  }

  /** `[name for name in sorted_names if series in name and 'sigma' not in
      name]`: the names fitted by the regression of one series, in order. */
  function FittedNames(names: seq<string>, s: Series): (r: seq<string>)
    ensures |r| <= |names|
    ensures forall n :: n in r <==> n in names && Contains(n, s.Name()) && !Contains(n, "sigma")
  {
    if |names| == 0 then []
    else
      var rest := FittedNames(names[..|names| - 1], s);
      var n := names[|names| - 1];
      assert names == names[..|names| - 1] + [n];
      if Contains(n, s.Name()) && !Contains(n, "sigma") then rest + [n] else rest
  }

  /** With repeat-free input the fitted names are repeat-free too. */
  lemma {:induction false} FittedNamesDistinct(names: seq<string>, s: Series)
    requires forall i, j :: 0 <= i < j < |names| ==> names[i] != names[j]
    ensures forall i, j :: 0 <= i < j < |FittedNames(names, s)| ==> FittedNames(names, s)[i] != FittedNames(names, s)[j]
    decreases |names|
  {
    if |names| > 0 {
      var init := names[..|names| - 1];
      FittedNamesDistinct(init, s);
      var n := names[|names| - 1];
      assert n !in init;
    }
  }

  /** `{val: ind for ind, val in enumerate(names)}`: a later repeat
      overwrites an earlier index. */
  function IndexMap(names: seq<string>): (m: map<string, nat>)
    ensures m.Keys == set n | n in names
    ensures forall n :: n in m ==> m[n] < |names| && names[m[n]] == n
    ensures forall n :: n in m ==> forall j :: m[n] < j < |names| ==> names[j] != n
  {
    if |names| == 0 then map[]
    else
      var init := names[..|names| - 1];
      var n := names[|names| - 1];
      assert names == init + [n];
      IndexMap(init)[n := |names| - 1]
  }

  /** Without repeats, the index map inverts the list. */
  lemma IndexMapInverts(names: seq<string>, i: nat)
    requires forall a, b :: 0 <= a < b < |names| ==> names[a] != names[b]
    requires i < |names|
    ensures names[i] in IndexMap(names) && IndexMap(names)[names[i]] == i
  {
    var m := IndexMap(names);
    assert names[i] in names;
    var k := m[names[i]];
    assert names[k] == names[i];
  }

  /** Filtering keeps order: for repeat-free `sorted_names`, the fitted
      names appear in the order of their positions in `sorted_names`. */
  lemma {:induction false} FittedNamesOrder(names: seq<string>, s: Series)
    requires forall i, j :: 0 <= i < j < |names| ==> names[i] != names[j]
    ensures forall a, b :: 0 <= a < b < |FittedNames(names, s)| ==>
      IndexMap(names)[FittedNames(names, s)[a]] < IndexMap(names)[FittedNames(names, s)[b]]
    decreases |names|
  {
    if |names| > 0 {
      var init := names[..|names| - 1];
      var n := names[|names| - 1];
      var r := FittedNames(names, s);
      var rest := FittedNames(init, s);
      FittedNamesOrder(init, s);
      forall a, b | 0 <= a < b < |r|
        ensures IndexMap(names)[r[a]] < IndexMap(names)[r[b]]
      {
        FittedNamesStep(names, s, a);
        FittedNamesStep(names, s, b);
      }
    }
  }

  /** Position `a` of the fitted names, seen from the list without its last
      name: either an earlier fitted name, keeping its index, or the last
      name itself, at the last index. */
  lemma FittedNamesStep(names: seq<string>, s: Series, a: nat)
    requires forall i, j :: 0 <= i < j < |names| ==> names[i] != names[j]
    requires a < |FittedNames(names, s)|
    ensures |names| > 0
    ensures FittedNames(names, s)[a] in IndexMap(names)
    ensures a < |FittedNames(names[..|names| - 1], s)| ==>
      FittedNames(names, s)[a] == FittedNames(names[..|names| - 1], s)[a]
      && FittedNames(names, s)[a] in IndexMap(names[..|names| - 1])
      && IndexMap(names)[FittedNames(names, s)[a]] == IndexMap(names[..|names| - 1])[FittedNames(names, s)[a]]
    ensures a >= |FittedNames(names[..|names| - 1], s)| ==>
      IndexMap(names)[FittedNames(names, s)[a]] == |names| - 1
  {
    var init := names[..|names| - 1];
    var n := names[|names| - 1];
    var r := FittedNames(names, s);
    var rest := FittedNames(init, s);
    assert names == init + [n];
    assert n !in init;
    assert IndexMap(names) == IndexMap(init)[n := |names| - 1];
    if Contains(n, s.Name()) && !Contains(n, "sigma") {
      assert r == rest + [n];
    } else {
      assert r == rest;
    }
    if a < |rest| {
      assert r[a] == rest[a];
      assert rest[a] in init;
    } else {
      assert r[a] == n;
    }
  }

  /** `convert_params_as_dict_to_list`: the values of `d` in the order of
      `names`; `None` is the KeyError of a missing name. */
  function DictToVector(d: map<string, real>, names: seq<string>): (r: Option<seq<real>>)
    ensures r.Some? <==> forall n :: n in names ==> n in d
    ensures r.Some? ==> |r.value| == |names| && forall i :: 0 <= i < |names| ==> r.value[i] == d[names[i]]
  {
    if |names| == 0 then Some([])
    else
      var init := names[..|names| - 1];
      var n := names[|names| - 1];
      assert names == init + [n];
      var rest := DictToVector(d, init);
      if rest.Some? && n in d then Some(rest.value + [d[n]]) else None
  }

  /** `convert_params_as_list_to_dict` with an explicit name-to-index map:
      each name reads its own slot of the vector; `None` is the IndexError
      of a slot past the end. */
  function VectorToDict(v: seq<real>, index: map<string, nat>): (r: Option<map<string, real>>)
    ensures r.Some? <==> forall n :: n in index ==> index[n] < |v|
    ensures r.Some? ==> r.value.Keys == index.Keys && forall n :: n in index ==> r.value[n] == v[index[n]]
  {
    if forall n :: n in index ==> index[n] < |v| then
      Some(map n | n in index :: v[index[n]])
    else None
  }

  /** A vector read into a dictionary by the index map of repeat-free names
      and written back in the same order is unchanged. */
  lemma VectorRoundTrip(v: seq<real>, names: seq<string>)
    requires forall a, b :: 0 <= a < b < |names| ==> names[a] != names[b]
    requires |v| == |names|
    ensures VectorToDict(v, IndexMap(names)).Some?
    ensures DictToVector(VectorToDict(v, IndexMap(names)).value, names) == Some(v)
  {
    var d := VectorToDict(v, IndexMap(names)).value;
    forall i | 0 <= i < |names| ensures names[i] in d && d[names[i]] == v[i] {
      IndexMapInverts(names, i);
    }
    var r := DictToVector(d, names);
    assert r.Some?;
    assert r.value == v;
  }

  /** A dictionary whose keys are exactly the names survives the trip to a
      vector and back. */
  lemma DictRoundTrip(d: map<string, real>, names: seq<string>)
    requires forall a, b :: 0 <= a < b < |names| ==> names[a] != names[b]
    requires d.Keys == set n | n in names
    ensures DictToVector(d, names).Some?
    ensures VectorToDict(DictToVector(d, names).value, IndexMap(names)) == Some(d)
  {
    var v := DictToVector(d, names).value;
    var index := IndexMap(names);
    var back := VectorToDict(v, index).value;
    assert back.Keys == d.Keys;
    forall n | n in d ensures back[n] == d[n] {
      var i := index[n];
      assert back[n] == v[i] && names[i] == n;
    }
    assert back == d;
  }
}
