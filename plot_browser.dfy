// The names and the order of the plot browser's pages: every state gets a
// directory named by its slug holding an `index.html`, and the landing
// page lists `total` first and the other states alphabetically.  The HTML
// itself and the files written are not modelled.
module PlotBrowser {
  import opened Wrappers
  import opened PyText

  /** `state.lower().replace(' ', '_')`: the directory of a state's page. */
  function Slug(state: string): string {
    Replace(Lower(state), " ", "_")
  }

  /** The slug is the name with every letter lowered and every space made an
      underscore, character by character; so it is as long as the name and
      has neither spaces nor upper-case letters. */
  lemma SlugChars(state: string)
    ensures |Slug(state)| == |state|
    ensures forall i :: 0 <= i < |state| ==>
      Slug(state)[i] == if state[i] == ' ' then '_' else LowerChar(state[i])
    ensures forall i :: 0 <= i < |state| ==> Slug(state)[i] != ' ' && !('A' <= Slug(state)[i] <= 'Z')
  {
    ReplaceCharAt(Lower(state), ' ', '_');
  }

  /** A slug is its own slug, so the pages of a state and of its slug are the
      same directory. */
  lemma SlugIdempotent(state: string)
    ensures Slug(Slug(state)) == Slug(state)
  {
    SlugChars(state);
    SlugChars(Slug(state));
  }

  /** `state_lc + '/index.html'`: the path the state's page is written to
      under the browser directory, and the link the landing page gives it. */
  function StatePage(state: string): string {
    Slug(state) + "/index.html"
  }

  /** Two states share a page exactly when they share a slug. */
  lemma StatePageBySlug(a: string, b: string)
    ensures StatePage(a) == StatePage(b) <==> Slug(a) == Slug(b)
  {
    if StatePage(a) == StatePage(b) {
      assert Slug(a) == StatePage(a)[..|StatePage(a)| - 11];
      assert Slug(b) == StatePage(b)[..|StatePage(b)| - 11];
    }
  }

  /** `list.remove(x)`: the list without the first occurrence of `x`;
      `None` is the ValueError of an `x` not in the list. */
  function RemoveFirst(s: seq<string>, x: string): (r: Option<seq<string>>)
    decreases |s|
  {
    if |s| == 0 then None
    else if s[0] == x then Some(s[1..])
    else
      var rest :- RemoveFirst(s[1..], x);
      Some([s[0]] + rest)
  }

  /** Removal succeeds exactly when `x` is there, and then it cuts out the
      first occurrence. */
  lemma {:induction false} RemoveFirstAt(s: seq<string>, x: string, i: nat)
    requires i <= |s| && x !in s[..i]
    ensures i < |s| && s[i] == x ==> RemoveFirst(s, x) == Some(s[..i] + s[i + 1..])
    ensures i == |s| ==> RemoveFirst(s, x).None?
    decreases i
  {
    if i > 0 {
      assert s[0] in s[..i];
      assert s[1..][..i - 1] == s[1..i];
      RemoveFirstAt(s[1..], x, i - 1);
      if i < |s| && s[i] == x {
        assert [s[0]] + (s[1..][..i - 1] + s[1..][i..]) == s[..i] + s[i + 1..];
      }
    } else if |s| > 0 && s[0] == x {
      assert s[..0] + s[1..] == s[1..];
    }
  }

  /** The landing page's list of states: `sorted(keys)`, `total` removed,
      then put in front. */
  function LandingStates(keys: seq<string>): Option<seq<string>> {
    var rest :- RemoveFirst(SortStrings(keys), "total");
    Some(["total"] + rest)
  }

  /** Cutting one element out of a sorted list leaves it sorted. */
  lemma SortedCut(s: seq<string>, i: nat)
    requires Sorted(s) && i < |s|
    ensures Sorted(s[..i] + s[i + 1..])
  {
    var t := s[..i] + s[i + 1..];
    forall a, b | 0 <= a < b < |t| ensures LexLe(t[a], t[b]) {
      var a' := if a < i then a else a + 1;
      var b' := if b < i then b else b + 1;
      assert t[a] == s[a'] && t[b] == s[b'];
    }
  }

  /** Moving the one occurrence of `x` in a sorted list to the front keeps
      the elements, leaves the rest sorted and without `x`. */
  lemma MoveToFront(s: seq<string>, x: string, i: nat)
    requires Sorted(s) && i < |s| && s[i] == x && multiset(s)[x] == 1
    ensures var r := [x] + (s[..i] + s[i + 1..]);
      && |r| == |s| && r[0] == x && Sorted(r[1..]) && x !in r[1..] && multiset(r) == multiset(s)
  {
    var rest := s[..i] + s[i + 1..];
    var r := [x] + rest;
    assert r[1..] == rest;
    SortedCut(s, i);
    assert s == s[..i] + [s[i]] + s[i + 1..];
    assert multiset(s) == multiset(rest) + multiset{x};
    assert multiset(rest)[x] == 0;
  }

  /** With the keys of a dictionary, which are distinct, the list exists
      exactly when `total` is one of them; it starts with `total`, the rest
      is sorted and lacks `total`, and every key appears exactly once and
      nothing else appears. */
  lemma LandingStatesOrder(keys: seq<string>)
    requires forall i, j :: 0 <= i < j < |keys| ==> keys[i] != keys[j]
    ensures LandingStates(keys).Some? <==> "total" in keys
    ensures LandingStates(keys).Some? ==>
      var r := LandingStates(keys).value;
      && |r| == |keys| && r[0] == "total" && Sorted(r[1..]) && "total" !in r[1..]
      && forall x :: multiset(r)[x] == if x in keys then 1 else 0
  {
    var s := SortStrings(keys);
    assert "total" in keys <==> "total" in s by {
      assert "total" in keys <==> "total" in multiset(keys);
      assert "total" in s <==> "total" in multiset(s);
    }
    var i := FirstIndex(s, "total");
    RemoveFirstAt(s, "total", i);
    if i < |s| {
      MultisetOfDistinct(keys);
      assert |s| == |multiset(s)| == |multiset(keys)| == |keys|;
      MoveToFront(s, "total", i);
      forall x ensures multiset(s)[x] == if x in keys then 1 else 0 {
        assert x in keys <==> x in multiset(keys);
      }
    }
  }

  /** The first index of `x` in `s`, or `|s|` when it is not there. */
  function FirstIndex(s: seq<string>, x: string): (i: nat)
    ensures i <= |s| && x !in s[..i]
    ensures i < |s| ==> s[i] == x
    ensures i == |s| ==> x !in s
    decreases |s|
  {
    if |s| == 0 then 0
    else if s[0] == x then 0
    else
      var j := FirstIndex(s[1..], x);
      assert s[..j + 1] == [s[0]] + s[1..][..j];
      j + 1
  }

  /** A list without repetitions holds each of its elements once. */
  lemma {:induction false} MultisetOfDistinct(s: seq<string>)
    requires forall i, j :: 0 <= i < j < |s| ==> s[i] != s[j]
    ensures forall x :: multiset(s)[x] == if x in s then 1 else 0
    decreases |s|
  {
    if |s| > 0 {
      MultisetOfDistinct(s[1..]);
      assert s == [s[0]] + s[1..];
      assert s[0] !in s[1..];
    }
  }

  /** The ordering of `generate_plot_browser`: the list sorted, then
      `total` searched for, cut out and put in front. */
  method LandingOrder(keys: seq<string>) returns (r: Option<seq<string>>)
    ensures r == LandingStates(keys)
  {
    var s := SortStrings(keys);
    var i := 0;
    while i < |s| && s[i] != "total"
      invariant 0 <= i <= |s| && "total" !in s[..i]
    {
      assert s[..i + 1] == s[..i] + [s[i]];
      i := i + 1;
    }
    RemoveFirstAt(s, "total", i);
    if i == |s| {
      return None;
    }
    r := Some(["total"] + (s[..i] + s[i + 1..]));
  }
}
