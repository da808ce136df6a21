// The string and index arithmetic of the state report and of the
// all-state box-and-whisker plot (sub_units/utils.py).
module Reporting {
  import opened PyText
  import opened PyLists
  import opened ApproxTypes

  /** The summary statistics `generate_state_report` may write per strategy. */
  const AllStats: seq<string> := ["mean", "std_err", "p5", "p25", "p50", "p75", "p95"]

  /** The statistics written for one strategy, in the order the report
      dictionary lists them. */
  function ReportStats(a: ApproxType): (r: seq<string>)
    ensures forall st :: st in r ==> st in AllStats
  {
    match a
    case BS => ["mean", "p50", "p25", "p75", "p5", "p95"]
    case MCMC => ["mean", "p50", "p5", "p95", "p25", "p75"]
    case LS => ["mean", "p50", "p5", "p95", "p25", "p75"]
    case SM => ["mean", "std_err", "p50", "p5", "p95", "p25", "p75"]
    case Hess => ["mean", "std_err", "p50", "p5", "p95", "p25", "p75"]
    case PyMC3 => ["mean", "std_err", "p50", "p5", "p95", "p25", "p75"]
  }

  /** A report column as first built, e.g. `statsmodels_p50_with_priors`. */
  function ReportColumn(a: ApproxType, stat: string): string {
    a.LongName() + "_" + stat + "_with_priors"
  }

  /** The report columns of one strategy, before renaming. */
  function ReportColumns(a: ApproxType): (r: seq<string>)
    ensures |r| == |ReportStats(a)|
    ensures forall k :: 0 <= k < |r| ==> r[k] == ReportColumn(a, ReportStats(a)[k])
  {
    seq(|ReportStats(a)|, k requires 0 <= k < |ReportStats(a)| => ReportColumn(a, ReportStats(a)[k]))
  }

  /** `col.replace(long, abbr)` for each of `ts` in turn, first to last. */
  function ReplaceApproxNames(col: string, ts: seq<ApproxType>): string
    decreases |ts|
  {
    if |ts| == 0 then col
    else ReplaceApproxNames(Replace(col, ts[0].LongName(), ts[0].Abbr()), ts[1..])
  }

  /** The renaming applied to every report column: long strategy names
      become abbreviations in enumeration order, then `__` becomes `_` and
      `_with_priors` is dropped. */
  function RenameColumn(col: string): string {
    var c := ReplaceApproxNames(col, AllApproxTypes);
    Replace(Replace(c, "__", "_"), "_with_priors", "")
  }

  /** The loop at the end of `generate_state_report`: one new name per
      column, in order. */
  method RenameColumns(cols: seq<string>) returns (newCols: seq<string>)
    ensures |newCols| == |cols|
    ensures forall i :: 0 <= i < |cols| ==> newCols[i] == RenameColumn(cols[i])
  {
    newCols := [];
    for i := 0 to |cols|
      invariant |newCols| == i
      invariant forall j :: 0 <= j < i ==> newCols[j] == RenameColumn(cols[j])
    {
      var col := cols[i];
      for k := 0 to |AllApproxTypes|
        invariant ReplaceApproxNames(col, AllApproxTypes[k..]) == ReplaceApproxNames(cols[i], AllApproxTypes)
      {
        assert AllApproxTypes[k..][1..] == AllApproxTypes[k + 1..];
        col := Replace(col, AllApproxTypes[k].LongName(), AllApproxTypes[k].Abbr());
      }
      var newCol := Replace(Replace(col, "__", "_"), "_with_priors", "");
      newCols := newCols + [newCol];
    }
  }

  /** The tail shared by every report column of one statistic. */
  function Tail(stat: string): string {
    "_" + stat + "_with_priors"
  }

  /** No long strategy name can start inside an abbreviation of another
      strategy. */
  lemma AbbrsApart(a: ApproxType, t: ApproxType)
    requires a != t
    ensures NoLead(a.Abbr(), t.LongName())
  {
  }

  /** No long strategy name can start inside another long name (split in
      three by the name searched for). */
  lemma LongNamesApart1(a: ApproxType, t: ApproxType)
    requires a != t && (t == BS || t == LS)
    ensures NoLead(a.LongName(), t.LongName())
  {
  }

  lemma LongNamesApart2(a: ApproxType, t: ApproxType)
    requires a != t && (t == MCMC || t == SM)
    ensures NoLead(a.LongName(), t.LongName())
  {
  }

  lemma LongNamesApart3(a: ApproxType, t: ApproxType)
    requires a != t && (t == PyMC3 || t == Hess)
    ensures NoLead(a.LongName(), t.LongName())
  {
  }

  lemma NamesApart(a: ApproxType, t: ApproxType)
    requires a != t
    ensures NoLead(a.Abbr(), t.LongName())
    ensures NoLead(a.LongName(), t.LongName())
  {
    AbbrsApart(a, t);
    if t == BS || t == LS {
      LongNamesApart1(a, t);
    } else if t == MCMC || t == SM {
      LongNamesApart2(a, t);
    } else {
      LongNamesApart3(a, t);
    }
  }

  /** Every long name has at least three characters, none of the second and
      third being `_`. */
  lemma LongNameShape(t: ApproxType)
    ensures |t.LongName()| >= 3
    ensures t.LongName()[1] != '_' && t.LongName()[2] != '_'
  {
  }

  /** No long strategy name can start inside `_<stat>`. */
  lemma StatNoLead(t: ApproxType, stat: string)
    requires stat in AllStats
    ensures NoLead("_" + stat, t.LongName())
  {
  }

  /** Replacing a long strategy name leaves the tail of a column alone. */
  lemma TailUntouched(t: ApproxType, stat: string)
    requires stat in AllStats
    ensures Replace(Tail(stat), t.LongName(), t.Abbr()) == Tail(stat)
  {
    StatNoLead(t, stat);
    LongNameShape(t);
    assert NoLead("_with_priors", t.LongName());
    ReplaceSkipWord("_" + stat, "_with_priors", t.LongName(), t.Abbr());
    ReplaceAbsent("_with_priors", t.LongName(), t.Abbr());
    assert Tail(stat) == ("_" + stat) + "_with_priors";
  }

  /** One replacement step of the renaming, applied to a report column whose
      strategy name reads `p`: the step abbreviates the strategy's own long
      name and leaves a word without an occurrence alone. */
  lemma RenameStepOwn(a: ApproxType, stat: string)
    requires stat in AllStats
    ensures Replace(a.LongName() + Tail(stat), a.LongName(), a.Abbr()) == a.Abbr() + Tail(stat)
  {
    TailUntouched(a, stat);
    ReplaceHead(a.LongName(), Tail(stat), a.Abbr());
  }

  lemma RenameStepOther(p: string, t: ApproxType, stat: string)
    requires stat in AllStats
    requires NoLead(p, t.LongName())
    ensures Replace(p + Tail(stat), t.LongName(), t.Abbr()) == p + Tail(stat)
  {
    TailUntouched(t, stat);
    LongNameShape(t);
    ReplaceSkipWord(p, Tail(stat), t.LongName(), t.Abbr());
  }

  /** A column that each replacement of `ts` leaves alone passes through
      all of them unchanged. */
  lemma {:induction false} ReplaceApproxNamesFixed(col: string, ts: seq<ApproxType>)
    requires forall t :: t in ts ==> Replace(col, t.LongName(), t.Abbr()) == col
    ensures ReplaceApproxNames(col, ts) == col
    decreases |ts|
  {
    if |ts| > 0 {
      ReplaceApproxNamesFixed(col, ts[1..]);
    }
  }

  /** Once abbreviated, a report column passes through the replacements of
      the strategies other than its own unchanged. */
  lemma {:induction false} RenameAlongDone(a: ApproxType, stat: string, ts: seq<ApproxType>)
    requires stat in AllStats
    requires a !in ts
    ensures ReplaceApproxNames(a.Abbr() + Tail(stat), ts) == a.Abbr() + Tail(stat)
    decreases |ts|
  {
    if |ts| > 0 {
      NamesApart(a, ts[0]);
      RenameStepOther(a.Abbr(), ts[0], stat);
      RenameAlongDone(a, stat, ts[1..]);
    }
  }

  /** Replacing along a list without repeats abbreviates the strategy's long
      name exactly when the strategy is on the list. */
  lemma {:induction false} RenameAlong(a: ApproxType, stat: string, ts: seq<ApproxType>)
    requires stat in AllStats
    requires forall i, j :: 0 <= i < j < |ts| ==> ts[i] != ts[j]
    ensures ReplaceApproxNames(a.LongName() + Tail(stat), ts)
         == (if a in ts then a.Abbr() else a.LongName()) + Tail(stat)
    decreases |ts|
  {
    if |ts| > 0 {
      var rest := ts[1..];
      assert forall i, j :: 0 <= i < j < |rest| ==> rest[i] != rest[j] by {
        forall i, j | 0 <= i < j < |rest| ensures rest[i] != rest[j] {
          assert rest[i] == ts[i + 1] && rest[j] == ts[j + 1];
        }
      }
      if ts[0] == a {
        assert a !in rest by {
          forall j | 0 <= j < |rest| ensures rest[j] != a {
            assert rest[j] == ts[j + 1];
          }
        }
        RenameStepOwn(a, stat);
        RenameAlongDone(a, stat, rest);
      } else {
        assert a in ts <==> a in rest by {
          assert ts == [ts[0]] + rest;
        }
        NamesApart(a, ts[0]);
        RenameStepOther(a.LongName(), ts[0], stat);
        RenameAlong(a, stat, rest);
      }
    }
  }

  /** Replacing all long names turns a report column into `<abbr><tail>`. */
  lemma RenameFold(a: ApproxType, stat: string)
    requires stat in AllStats
    ensures ReplaceApproxNames(ReportColumn(a, stat), AllApproxTypes) == a.Abbr() + Tail(stat)
  {
    ApproxTypeTable();
    assert ReportColumn(a, stat) == a.LongName() + Tail(stat);
    RenameAlong(a, stat, AllApproxTypes);
  }

  /** No abbreviation contains `_`. */
  lemma AbbrNoUnderscore(a: ApproxType)
    ensures forall i :: 0 <= i < |a.Abbr()| ==> a.Abbr()[i] != '_'
  {
  }

  /** No `__` in the tail of a report column. */
  lemma TailNoDoubleUnderscore(stat: string)
    requires stat in AllStats
    ensures NoLead(Tail(stat), "__")
  {
  }

  /** `_with_priors` cannot start inside `_<stat>`. */
  lemma StatNoPriors(stat: string)
    requires stat in AllStats
    ensures forall i :: 0 <= i < |stat| + 1 ==> !LeadsAt("_" + stat + "_with_priors", i, "_with_priors")
  {
  }

  /** After the long names are gone, `__` occurs nowhere and the one
      `_with_priors`, at the end, is dropped. */
  lemma RenameTail(a: ApproxType, stat: string)
    requires stat in AllStats
    ensures Replace(Replace(a.Abbr() + Tail(stat), "__", "_"), "_with_priors", "") == a.Abbr() + "_" + stat
  {
    var abbr, u := a.Abbr(), "_" + stat;
    AbbrNoUnderscore(a);
    ReplaceSkipChar(abbr, Tail(stat), "__", "_");
    TailNoDoubleUnderscore(stat);
    ReplaceAbsent(Tail(stat), "__", "_");
    ReplaceSkipChar(abbr, Tail(stat), "_with_priors", "");
    StatNoPriors(stat);
    assert Tail(stat) == u + "_with_priors";
    ReplaceSkip(u, "_with_priors", "_with_priors", "");
    ReplaceHead("_with_priors", [], "");
    assert "_with_priors" + [] == "_with_priors";
    assert abbr + u == abbr + "_" + stat;
  }

  /** Renaming turns every report column into `<abbr>_<stat>`: for example
      `statsmodels_p50_with_priors` becomes `SM_p50`. */
  lemma RenameReportColumn(a: ApproxType, stat: string)
    requires stat in AllStats
    ensures RenameColumn(ReportColumn(a, stat)) == a.Abbr() + "_" + stat
  {
    RenameFold(a, stat);
    RenameTail(a, stat);
  }

  /** The `state` and `param` columns keep their names. */
  lemma RenameKeyColumns()
    ensures RenameColumn("state") == "state"
    ensures RenameColumn("param") == "param"
  {
    forall t: ApproxType ensures Replace("state", t.LongName(), t.Abbr()) == "state" {
      if t != SM {
        KeyColumnsApart(t);
        ReplaceAbsent("state", t.LongName(), t.Abbr());
      }
    }
    forall t: ApproxType ensures Replace("param", t.LongName(), t.Abbr()) == "param" {
      KeyColumnsApart(t);
      ReplaceAbsent("param", t.LongName(), t.Abbr());
    }
    ReplaceApproxNamesFixed("state", AllApproxTypes);
    ReplaceApproxNamesFixed("param", AllApproxTypes);
    ReplaceAbsent("state", "__", "_");
    ReplaceAbsent("param", "__", "_");
  }

  /** `state` holds no long name but the prefix `sta` of `statsmodels`, and
      `param` holds none at all. */
  lemma KeyColumnsApart(t: ApproxType)
    ensures t != SM ==> NoLead("state", t.LongName())
    ensures NoLead("param", t.LongName())
  {
  }

  /** The percentiles the whisker plot reads: whislo, q1, med, q3 and
      whishi. */
  const WhiskerStats: seq<string> := ["p5", "p25", "p50", "p75", "p95"]

  /** The columns the whisker plot reads for one strategy. */
  function WhiskerColumns(a: ApproxType): (r: seq<string>)
    ensures |r| == |WhiskerStats|
    ensures forall j :: 0 <= j < |r| ==> r[j] == a.Abbr() + "_" + WhiskerStats[j]
  {
    seq(|WhiskerStats|, j requires 0 <= j < |WhiskerStats| => a.Abbr() + "_" + WhiskerStats[j])
  }

  /** Every strategy's report carries all five percentiles. */
  lemma WhiskerStatsReported(a: ApproxType)
    ensures forall st :: st in WhiskerStats ==> st in ReportStats(a) && st in AllStats
  {
  }

  /** Every column the whisker plot reads is the renamed form of the report
      column of the same strategy and percentile. */
  lemma WhiskerReadsRenamedColumns(a: ApproxType)
    ensures forall j :: 0 <= j < |WhiskerStats| ==>
      && WhiskerStats[j] in ReportStats(a)
      && RenameColumn(ReportColumn(a, WhiskerStats[j])) == WhiskerColumns(a)[j]
  {
    WhiskerStatsReported(a);
    forall j | 0 <= j < |WhiskerStats|
      ensures RenameColumn(ReportColumn(a, WhiskerStats[j])) == WhiskerColumns(a)[j]
    {
      assert WhiskerStats[j] in WhiskerStats;
      RenameReportColumn(a, WhiskerStats[j]);
    }
  }

  /** `positions=range(1 + ind, n_boxes * (n_groups + 1), n_groups + 1)`:
      where group `ind` draws its `n_boxes` boxes. */
  function BoxPositions(ind: nat, nBoxes: nat, nGroups: nat): seq<int> {
    RangeStep(1 + ind, nBoxes * (nGroups + 1), nGroups + 1)
  }

  lemma MulMono(x: int, y: int, g: int)
    requires g >= 0 && x <= y
    ensures x * g <= y * g
  {
    assert y * g == x * g + (y - x) * g;
  }

  /** Group `ind` of `n_groups` gets exactly one box per state, state `k` at
      position `1 + ind + k * (n_groups + 1)`. */
  lemma BoxPositionsAt(ind: nat, nBoxes: nat, nGroups: nat)
    requires ind < nGroups
    ensures |BoxPositions(ind, nBoxes, nGroups)| == nBoxes
    ensures forall k :: 0 <= k < nBoxes ==>
      BoxPositions(ind, nBoxes, nGroups)[k] == 1 + ind + k * (nGroups + 1)
  {
    var r, g := BoxPositions(ind, nBoxes, nGroups), nGroups + 1;
    var n := |r|;
    if n > nBoxes {
      // the last box would already lie at or past the stop
      assert r[n - 1] == 1 + ind + (n - 1) * g < nBoxes * g;
      MulMono(nBoxes, n - 1, g);
      assert false;
    } else if n < nBoxes {
      // one more stride would still fall short of the stop
      assert (n + 1) * g == n * g + g;
      assert 1 + ind + n * g >= nBoxes * g;
      MulMono(n + 1, nBoxes, g);
      assert false;
    }
  }

  lemma {:induction false} StrideAtLeast(d: nat, g: int)
    requires d >= 1 && g > 0
    ensures d * g >= g
  {
    if d > 1 {
      StrideAtLeast(d - 1, g);
      assert d * g == (d - 1) * g + g;
    }
  }

  /** Two boxes of different groups are a whole number of strides
      `n_groups + 1` apart plus less than one stride, so they never meet. */
  lemma NoCollision(i1: int, i2: int, k1: nat, k2: nat, g: int)
    requires 0 <= i1 < g && 0 <= i2 < g && i1 != i2
    ensures i1 + k1 * g != i2 + k2 * g
  {
    if k1 < k2 {
      var d := k2 - k1;
      assert k2 * g == k1 * g + d * g;
      StrideAtLeast(d, g);
    } else if k2 < k1 {
      var d := k1 - k2;
      assert k1 * g == k2 * g + d * g;
      StrideAtLeast(d, g);
    }
  }

  /** Boxes of two different groups never share a position. */
  lemma BoxGroupsDisjoint(i1: nat, i2: nat, nBoxes: nat, nGroups: nat)
    requires i1 < nGroups && i2 < nGroups && i1 != i2
    ensures forall p :: p in BoxPositions(i1, nBoxes, nGroups) ==> p !in BoxPositions(i2, nBoxes, nGroups)
  {
    var g := nGroups + 1;
    var r1, r2 := BoxPositions(i1, nBoxes, nGroups), BoxPositions(i2, nBoxes, nGroups);
    forall k1, k2 | 0 <= k1 < |r1| && 0 <= k2 < |r2| ensures r1[k1] != r2[k2] {
      NoCollision(i1, i2, k1, k2, g);
    }
  }
}
