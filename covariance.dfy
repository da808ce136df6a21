// From the output of one series' regression to the parameters and the
// multivariate normal of the statsmodels strategy: renaming the regression's
// columns into canonical parameter names, and reordering the covariance
// matrix into the order of the fitted names.
module Covariance {
  import opened Wrappers
  import opened PyLists
  import opened ParamNames

  /** The regression's name for the coefficient that `NameMapping` lists at
      position `j`: the six treatment-coded day-of-week levels, the slope
      and the intercept. */
  function Column(j: nat): string
    requires j < 8
  {
    if j < 6 then "DOW[T." + Digit(j + 1) + "]" else if j == 6 then "x" else "Intercept"
  }

  /** The canonical parameter name of the coefficient at position `j`. */
  function Canonical(j: nat, s: Series): string
    requires j < 8
  {
    if j < 6 then Multiplier(j + 1, s) else if j == 6 then Slope(s) else Intercept(s)
  }

  /** `name_mapping_positive` / `name_mapping_deceased`, in dict order. */
  function NameMapping(s: Series): (r: seq<(string, string)>)
    ensures |r| == 8
    ensures forall j :: 0 <= j < 8 ==> r[j] == (Column(j), Canonical(j, s))
  {
    seq(8, j requires 0 <= j < 8 => (Column(j), Canonical(j, s)))
  }

  /** A renaming table usable by `d[name2] = d.pop(name1)`: no source
      name repeats, no target name repeats, and no target name is also a
      source name. */
  predicate Renaming(pairs: seq<(string, string)>) {
    && (forall i, j :: 0 <= i < j < |pairs| ==> pairs[i].0 != pairs[j].0 && pairs[i].1 != pairs[j].1)
    && (forall i, j :: 0 <= i < |pairs| && 0 <= j < |pairs| ==> pairs[i].1 != pairs[j].0)
  }

  function Olds(pairs: seq<(string, string)>): set<string> {
    set j | 0 <= j < |pairs| :: pairs[j].0
  }

  function News(pairs: seq<(string, string)>): set<string> {
    set j | 0 <= j < |pairs| :: pairs[j].1
  }

  /** The regression's names start with `D`, `x` or `I`, the canonical
      names with `d` or `p`. */
  lemma NameMappingLeads(s: Series, j: nat)
    requires j < 8
    ensures Column(j)[0] in {'D', 'x', 'I'}
    ensures Canonical(j, s)[0] in {'d', 'p'}
  {
  }

  /** Both name mappings are renamings. */
  lemma NameMappingRenames(s: Series)
    ensures Renaming(NameMapping(s))
  {
    var pairs := NameMapping(s);
    forall i, j | 0 <= i < j < 8 ensures pairs[i].0 != pairs[j].0 && pairs[i].1 != pairs[j].1 {
      if j < 6 {
        assert Column(i)[6] != Column(j)[6];
        MultiplierNamesDistinct(i + 1, s, j + 1, s);
      } else if i < 6 {
        assert Column(i)[0] != Column(j)[0];
        MultiplierNotCurveName(i + 1, s, s);
      } else {
        assert Column(i)[0] != Column(j)[0];
        assert Slope(s)[|s.Name()| + 1] != Intercept(s)[|s.Name()| + 1];
      }
    }
    forall i, j | 0 <= i < 8 && 0 <= j < 8 ensures pairs[i].1 != pairs[j].0 {
      NameMappingLeads(s, i);
      NameMappingLeads(s, j);
    }
  }

  /** `d[name2] = d.pop(name1)`; `None` is the KeyError of a missing
      source key. */
  function PopRename(d: map<string, real>, from: string, to: string): Option<map<string, real>> {
    if from in d then Some((d - {from})[to := d[from]]) else None
  }

  /** `for name1, name2 in pairs: d[name2] = d.pop(name1)`. */
  function RenameAll(d: map<string, real>, pairs: seq<(string, string)>): Option<map<string, real>>
    decreases |pairs|
  {
    if |pairs| == 0 then Some(d)
    else
      var d' :- PopRename(d, pairs[0].0, pairs[0].1);
      RenameAll(d', pairs[1..])
  }

  /** The rename loop over a dictionary, one `pop` at a time. */
  method RenameKeys(d: map<string, real>, pairs: seq<(string, string)>) returns (r: Option<map<string, real>>)
    ensures r == RenameAll(d, pairs)
  {
    var cur := d;
    var i := 0;
    while i < |pairs|
      invariant 0 <= i <= |pairs|
      invariant RenameAll(d, pairs) == RenameAll(cur, pairs[i..])
    {
      var (from, to) := pairs[i];
      assert pairs[i..][1..] == pairs[i + 1..];
      if from !in cur {
        return None;
      }
      cur := (cur - {from})[to := cur[from]];
      i := i + 1;
    }
    return Some(cur);
  }

  /** A renaming splits into its first pair and a renaming of the rest
      that mentions neither name of the first pair. */
  lemma RenamingCons(pairs: seq<(string, string)>)
    requires |pairs| > 0 && Renaming(pairs)
    ensures Renaming(pairs[1..])
    ensures Olds(pairs) == {pairs[0].0} + Olds(pairs[1..])
    ensures News(pairs) == {pairs[0].1} + News(pairs[1..])
    ensures pairs[0].0 !in Olds(pairs[1..]) && pairs[0].1 !in Olds(pairs[1..])
    ensures pairs[0].1 !in News(pairs[1..]) && pairs[0].0 !in News(pairs[1..])
  {
    var (o, n) := pairs[0];
    var rest := pairs[1..];
    assert Olds(pairs) == {o} + Olds(rest) by {
      forall x | x in Olds(pairs) ensures x in {o} + Olds(rest) {
        var j :| 0 <= j < |pairs| && pairs[j].0 == x;
        if j > 0 { assert rest[j - 1].0 == x; }
      }
    }
    assert News(pairs) == {n} + News(rest) by {
      forall x | x in News(pairs) ensures x in {n} + News(rest) {
        var j :| 0 <= j < |pairs| && pairs[j].1 == x;
        if j > 0 { assert rest[j - 1].1 == x; }
      }
    }
    forall j | 0 <= j < |rest| ensures rest[j].0 != o && rest[j].0 != n && rest[j].1 != n && rest[j].1 != o {
      assert rest[j] == pairs[j + 1];
    }
  }

  /** Renaming moves each value from its source key to its target key: it
      fails exactly when a source key is missing, and otherwise every
      target key holds the value of its source key, no source key is left,
      and every other key keeps its value. */
  lemma {:induction false} RenameAllMoves(d: map<string, real>, pairs: seq<(string, string)>)
    requires Renaming(pairs)
    ensures RenameAll(d, pairs).Some? <==> Olds(pairs) <= d.Keys
    ensures RenameAll(d, pairs).Some? ==>
      var r := RenameAll(d, pairs).value;
      && r.Keys == (d.Keys - Olds(pairs)) + News(pairs)
      && (forall j :: 0 <= j < |pairs| ==> r[pairs[j].1] == d[pairs[j].0])
      && (forall k :: k in d && k !in Olds(pairs) && k !in News(pairs) ==> r[k] == d[k])
    decreases |pairs|
  {
    if |pairs| > 0 {
      var (o, n) := pairs[0];
      var rest := pairs[1..];
      RenamingCons(pairs);
      if o in d {
        var d1 := (d - {o})[n := d[o]];
        RenameAllMoves(d1, rest);
        if RenameAll(d1, rest).Some? {
          var r := RenameAll(d1, rest).value;
          forall j | 0 <= j < |pairs| ensures r[pairs[j].1] == d[pairs[j].0] {
            if j > 0 {
              assert rest[j - 1] == pairs[j];
            }
          }
        }
      }
    }
  }

  /** `mapping[key]` for a mapping given as its list of items; `None` is
      the KeyError of a missing key. */
  function Lookup(pairs: seq<(string, string)>, key: string): (r: Option<string>)
    ensures r.Some? <==> key in Olds(pairs)
    ensures r.Some? ==> exists j :: 0 <= j < |pairs| && pairs[j] == (key, r.value)
  {
    if |pairs| == 0 then None
    else if pairs[0].0 == key then Some(pairs[0].1)
    else
      var r := Lookup(pairs[1..], key);
      assert Olds(pairs) == {pairs[0].0} + Olds(pairs[1..]) by {
        forall x | x in Olds(pairs) ensures x in {pairs[0].0} + Olds(pairs[1..]) {
          var j :| 0 <= j < |pairs| && pairs[j].0 == x;
          if j > 0 { assert pairs[1..][j - 1].0 == x; }
        }
      }
      if r.Some? then
        var j :| 0 <= j < |pairs[1..]| && pairs[1..][j] == (key, r.value);
        assert pairs[j + 1] == (key, r.value);
        r
      else r
  }

  /** `[positions[mapping[col]] for col in columns]`: the position of each
      regression column's canonical name among the fitted names; `None` is
      the KeyError of a column or name that is not there. */
  function MappingList(columns: seq<string>, pairs: seq<(string, string)>, positions: map<string, nat>)
    : (r: Option<seq<nat>>)
    ensures r.Some? <==> forall j :: 0 <= j < |columns| ==>
      Lookup(pairs, columns[j]).Some? && Lookup(pairs, columns[j]).value in positions
    ensures r.Some? ==> |r.value| == |columns| && forall j :: 0 <= j < |columns| ==>
      r.value[j] == positions[Lookup(pairs, columns[j]).value]
  {
    if |columns| == 0 then Some([])
    else
      var init := columns[..|columns| - 1];
      assert forall j :: 0 <= j < |init| ==> init[j] == columns[j];
      var rest := MappingList(init, pairs, positions);
      var name := Lookup(pairs, columns[|columns| - 1]);
      if rest.Some? && name.Some? && name.value in positions then
        Some(rest.value + [positions[name.value]])
      else None
  }

  /** `m.index(i)`: the first position holding `i`; `None` is the
      ValueError of a value that is not there. */
  function IndexOf(m: seq<nat>, i: nat): (r: Option<nat>)
    ensures r.Some? <==> i in m
    ensures r.Some? ==> r.value < |m| && m[r.value] == i && forall j :: 0 <= j < r.value ==> m[j] != i
  {
    if |m| == 0 then None
    else if m[0] == i then Some(0)
    else
      var r := IndexOf(m[1..], i);
      assert i in m <==> i in m[1..] by {
        assert m == [m[0]] + m[1..];
      }
      if r.Some? then Some(r.value + 1) else None
  }

  /** `[m.index(i) for i in range(n)]`. */
  function InverseUpTo(m: seq<nat>, n: nat): (r: Option<seq<nat>>)
    ensures r.Some? <==> forall i :: 0 <= i < n ==> i in m
    ensures r.Some? ==> |r.value| == n && forall i :: 0 <= i < n ==> Some(r.value[i]) == IndexOf(m, i)
  {
    if n == 0 then Some([])
    else
      var rest := InverseUpTo(m, n - 1);
      var last := IndexOf(m, n - 1);
      if rest.Some? && last.Some? then Some(rest.value + [last.value]) else None
  }

  /** `inv_mapping_list = [m.index(i) for i in range(len(m))]`. */
  function InverseList(m: seq<nat>): Option<seq<nat>> {
    InverseUpTo(m, |m|)
  }

  /** The inverse list exists exactly when every position `0 .. len(m) - 1`
      occurs in the mapping list, and then it is a right inverse of the
      mapping list that never repeats a position: a permutation. */
  lemma InverseListInverts(m: seq<nat>)
    ensures InverseList(m).Some? <==> forall i :: 0 <= i < |m| ==> i in m
    ensures InverseList(m).Some? ==>
      var inv := InverseList(m).value;
      && |inv| == |m|
      && (forall i :: 0 <= i < |m| ==> inv[i] < |m| && m[inv[i]] == i)
      && (forall i, j :: 0 <= i < j < |m| ==> inv[i] != inv[j])
  {
    if InverseList(m).Some? {
      var inv := InverseList(m).value;
      forall i | 0 <= i < |m| ensures inv[i] < |m| && m[inv[i]] == i {
        assert Some(inv[i]) == IndexOf(m, i);
      }
    }
  }

  type Matrix = seq<seq<real>>

  predicate IsSquare(c: Matrix, n: nat) {
    |c| == n && forall i :: 0 <= i < n ==> |c[i]| == n
  }

  predicate Symmetric(c: Matrix)
    requires IsSquare(c, |c|)
  {
    forall i, j :: 0 <= i < |c| && 0 <= j < |c| ==> c[i][j] == c[j][i]
  }

  /** `cov[inv, :][:, inv]` on a square matrix; `None` is the IndexError of
      an index past the matrix. */
  function Reorder(c: Matrix, inv: seq<nat>): (r: Option<Matrix>)
    requires IsSquare(c, |c|)
    ensures r.Some? <==> forall k :: 0 <= k < |inv| ==> inv[k] < |c|
    ensures r.Some? ==> IsSquare(r.value, |inv|)
  {
    if forall k :: 0 <= k < |inv| ==> inv[k] < |c| then
      Some(seq(|inv|, i requires 0 <= i < |inv| => seq(|inv|, j requires 0 <= j < |inv| => c[inv[i]][inv[j]])))
    else None
  }

  /** Rows and columns move together: entry `(i, j)` of the reordered
      matrix is entry `(inv[i], inv[j])`, so a symmetric matrix stays
      symmetric. */
  lemma ReorderMovesEntries(c: Matrix, inv: seq<nat>)
    requires IsSquare(c, |c|)
    requires forall k :: 0 <= k < |inv| ==> inv[k] < |c|
    ensures Reorder(c, inv).Some?
    ensures forall i, j :: 0 <= i < |inv| && 0 <= j < |inv| ==> Reorder(c, inv).value[i][j] == c[inv[i]][inv[j]]
    ensures Symmetric(c) ==> Symmetric(Reorder(c, inv).value)
  {
  }

  /** A multivariate normal as `multivariate_normal(mean, cov)` builds it. */
  datatype Mvn = Mvn(mean: seq<real>, cov: Matrix)

  /** `None` is the ValueError of a mean and a covariance of different
      dimensions. */
  function MakeMvn(mean: seq<real>, cov: Matrix): (r: Option<Mvn>)
    ensures r.Some? <==> |cov| == |mean|
    ensures r.Some? ==> r.value.mean == mean && r.value.cov == cov
  {
    if |cov| == |mean| then Some(Mvn(mean, cov)) else None
  }

  /** What one series' regression yields: its coefficients and standard
      errors keyed by the regression's names, and its covariance matrix
      with the regression's column names. */
  datatype OlsResult = OlsResult(params: map<string, real>, bse: map<string, real>, columns: seq<string>, cov: Matrix)

  /** `cov.values[inv, :][:, inv]` with the inverse of the mapping list of
      the regression's columns under the name mapping `pairs`: the
      covariance in the order of the fitted names. */
  function ReorderedCov(fit: OlsResult, pairs: seq<(string, string)>, names: seq<string>): Option<Matrix>
    requires IsSquare(fit.cov, |fit.columns|)
  {
    var m :- MappingList(fit.columns, pairs, IndexMap(names));
    var inv :- InverseList(m);
    Reorder(fit.cov, inv)
  }

  /** What the method computes for one series before it builds the
      normal: the coefficients under canonical names, the mean vector in
      the order of the fitted names and the reordered covariance; `None` is
      the exception raised on the way.  `pairs` is the series' name mapping
      and `names` its fitted names.  The standard errors are renamed and
      read like the means, though nothing uses them afterwards. */
  function SeriesMoments(fit: OlsResult, pairs: seq<(string, string)>, names: seq<string>)
    : Option<(map<string, real>, seq<real>, Matrix)>
    requires IsSquare(fit.cov, |fit.columns|)
  {
    var params :- RenameAll(fit.params, pairs);
    var bse :- RenameAll(fit.bse, pairs);
    var means :- DictToVector(params, names);
    var sigmas :- DictToVector(bse, names);
    var cov :- ReorderedCov(fit, pairs, names);
    Some((params, means, cov))
  }

  /** The canonical coefficients and the normal of one series. */
  function SeriesFit(fit: OlsResult, pairs: seq<(string, string)>, names: seq<string>)
    : Option<(map<string, real>, Mvn)>
    requires IsSquare(fit.cov, |fit.columns|)
  {
    var mo :- SeriesMoments(fit, pairs, names);
    var mvn :- MakeMvn(mo.1, mo.2);
    Some((mo.0, mvn))
  }

  /** The inverse list exists when the name mapping is a bijection from the
      regression's columns onto the fitted names: as many columns as names,
      and every name the canonical name of some column. */
  lemma MappingOntoInverts(columns: seq<string>, pairs: seq<(string, string)>, names: seq<string>, m: seq<nat>)
    requires forall a, b :: 0 <= a < b < |names| ==> names[a] != names[b]
    requires MappingList(columns, pairs, IndexMap(names)) == Some(m)
    requires |columns| == |names|
    requires forall i :: 0 <= i < |names| ==> exists j :: 0 <= j < |columns| && Lookup(pairs, columns[j]) == Some(names[i])
    ensures InverseList(m).Some?
  {
    assert |m| == |columns|;
    forall i | 0 <= i < |m| ensures i in m {
      var j :| 0 <= j < |columns| && Lookup(pairs, columns[j]) == Some(names[i]);
      IndexMapInverts(names, i);
      assert m[j] == IndexMap(names)[names[i]] == i;
    }
    InverseListInverts(m);
  }

  /** Through the mapping list and its inverse, entry `(i, k)` of the
      reordered covariance is the regression's entry for the columns whose
      canonical names are fitted names `i` and `k`, so its diagonal follows
      the order of the fitted names. */
  lemma ReorderedCovAligned(fit: OlsResult, pairs: seq<(string, string)>, names: seq<string>,
                            m: seq<nat>, inv: seq<nat>, i: nat, k: nat)
    requires IsSquare(fit.cov, |fit.columns|)
    requires forall a, b :: 0 <= a < b < |names| ==> names[a] != names[b]
    requires MappingList(fit.columns, pairs, IndexMap(names)) == Some(m)
    requires InverseList(m) == Some(inv)
    requires i < |inv| && k < |inv|
    ensures ReorderedCov(fit, pairs, names).Some?
    ensures |ReorderedCov(fit, pairs, names).value| == |inv| == |fit.columns|
    ensures i < |names| && inv[i] < |fit.columns| && inv[k] < |fit.columns|
    ensures Lookup(pairs, fit.columns[inv[i]]) == Some(names[i])
    ensures ReorderedCov(fit, pairs, names).value[i][k] == fit.cov[inv[i]][inv[k]]
  {
    InverseListInverts(m);
    var name := Lookup(pairs, fit.columns[inv[i]]).value;
    assert m[inv[i]] == IndexMap(names)[name] == i;
    ReorderMovesEntries(fit.cov, inv);
  }

  /** A successful fit has one mean per fitted name, each the fitted
      coefficient of that name, and the reordered covariance as its
      covariance. */
  lemma SeriesFitMeans(fit: OlsResult, pairs: seq<(string, string)>, names: seq<string>, i: nat)
    requires IsSquare(fit.cov, |fit.columns|)
    requires SeriesFit(fit, pairs, names).Some?
    requires i < |names|
    ensures var r := SeriesFit(fit, pairs, names).value;
      && |r.1.mean| == |names|
      && names[i] in r.0
      && r.1.mean[i] == r.0[names[i]]
      && Some(r.1.cov) == ReorderedCov(fit, pairs, names)
  {
    var params := RenameAll(fit.params, pairs).value;
    var means := DictToVector(params, names).value;
    assert means[i] == params[names[i]];
  }
}
