// Python list and range semantics used by the model: `range`, negative
// indexing, the suffix slice `xs[-k:]`, and `np.cumsum`.
module PyLists {
  import opened Wrappers

  function Max(a: int, b: int): int {
    if a >= b then a else b
  }

  function Min(a: int, b: int): int {
    if a <= b then a else b
  }

  /** `list(range(lo, hi))`. */
  function Range(lo: int, hi: int): (r: seq<int>)
    ensures |r| == Max(hi - lo, 0)
    ensures forall k :: 0 <= k < |r| ==> r[k] == lo + k
  {
    seq(Max(hi - lo, 0), k => lo + k)
  }

  /** `list(range(start, stop, step))` for a positive step. */
  function RangeStep(start: int, stop: int, step: int): (r: seq<int>)
    requires step > 0
    ensures forall j :: 0 <= j < |r| ==> r[j] == start + j * step && r[j] < stop
    ensures start + |r| * step >= stop
    decreases stop - start
  {
    if start >= stop then []
    else
      var rest := RangeStep(start + step, stop, step);
      RangeStepCons(start, stop, step, rest);
      [start] + rest
  }

  /** Putting `start` in front of the range from `start + step` gives the
      range from `start`: each entry moves up one stride. */
  lemma RangeStepCons(start: int, stop: int, step: int, rest: seq<int>)
    requires step > 0 && start < stop
    requires forall j :: 0 <= j < |rest| ==> rest[j] == start + step + j * step && rest[j] < stop
    requires start + step + |rest| * step >= stop
    ensures forall j :: 0 <= j < |rest| + 1 ==> ([start] + rest)[j] == start + j * step && ([start] + rest)[j] < stop
    ensures start + (|rest| + 1) * step >= stop
  {
    var r := [start] + rest;
    forall j | 0 < j < |r| ensures r[j] == start + j * step {
      assert r[j] == rest[j - 1];
      assert (j - 1) * step + step == j * step;
    }
    assert (|rest| + 1) * step == |rest| * step + step;
  }

  /** `xs[i]` with Python's negative indexing; `None` is the IndexError. */
  function PyIndex<T>(xs: seq<T>, i: int): (r: Option<T>)
    ensures r.Some? <==> -|xs| <= i < |xs|
    ensures 0 <= i < |xs| ==> r == Some(xs[i])
    ensures -|xs| <= i < 0 ==> r == Some(xs[|xs| + i])
  {
    if 0 <= i < |xs| then Some(xs[i])
    else if -|xs| <= i < 0 then Some(xs[|xs| + i])
    else None
  }

  /** `xs[-k:]`.  Note that `xs[-0:]` is the whole list. */
  function LastN<T>(xs: seq<T>, k: nat): (r: seq<T>)
    ensures k == 0 || k >= |xs| ==> r == xs
    ensures 0 < k <= |xs| ==> r == xs[|xs| - k..]
  {
    if k == 0 || k >= |xs| then xs else xs[|xs| - k..]
  }

  /** `sum(xs)`, adding from the left. */
  function Sum(xs: seq<real>): real {
    if |xs| == 0 then 0.0 else Sum(xs[..|xs| - 1]) + xs[|xs| - 1]
  }

  /** `np.cumsum(xs)`: entry k is the sum of the first k + 1 entries. */
  function CumSum(xs: seq<real>): (r: seq<real>)
    ensures |r| == |xs|
  {
    seq(|xs|, k requires 0 <= k < |xs| => Sum(xs[..k + 1]))
  }
}
