// The parts of Python's string semantics that the reporting code relies on:
// `str.replace`, the `in` substring test, ASCII `str.lower`, and the ordering
// that `sorted` uses on strings (code point by code point).
module PyText {

  /** `s.replace(pat, rep)`: scans `s` from the left and replaces every
      non-overlapping occurrence of `pat`.  Every call site in the source
      passes a non-empty pattern. */
  function Replace(s: string, pat: string, rep: string): string
    requires |pat| > 0
    decreases |s|
  {
    if |s| < |pat| then s
    else if s[..|pat|] == pat then rep + Replace(s[|pat|..], pat, rep)
    else [s[0]] + Replace(s[1..], pat, rep)
  }

  /** `sub` occurs in `s` starting at index `i`. */
  predicate OccursAt(s: string, i: int, sub: string) {
    0 <= i <= |s| - |sub| && s[i..i + |sub|] == sub
  }

  /** `sub in s` for strings. */
  predicate Contains(s: string, sub: string) {
    exists i | 0 <= i <= |s| :: OccursAt(s, i, sub)
  }

  /** `s[i]` starts what could be an occurrence of `pat`: its first (up to
      three) characters agree with those of `pat`.  A position where this
      fails cannot start an occurrence. */
  predicate LeadsAt(s: string, i: nat, pat: string)
    requires i < |s| && |pat| > 0
  {
    && s[i] == pat[0]
    && (|pat| < 2 || (i + 1 < |s| && s[i + 1] == pat[1]
        && (|pat| < 3 || (i + 2 < |s| && s[i + 2] == pat[2]))))
  }

  /** No position of `s` can start an occurrence of `pat`. */
  predicate NoLead(s: string, pat: string)
    requires |pat| > 0
  {
    forall i :: 0 <= i < |s| ==> !LeadsAt(s, i, pat)
  }

  /** A leading occurrence is replaced and the scan resumes after it. */
  lemma ReplaceHead(pat: string, t: string, rep: string)
    requires |pat| > 0
    ensures Replace(pat + t, pat, rep) == rep + Replace(t, pat, rep)
  {
    var s := pat + t;
    assert s[..|pat|] == pat;
    assert s[|pat|..] == t;
  }

  /** A prefix none of whose positions can start an occurrence of `pat`
      passes through `replace` unchanged. */
  lemma {:induction false} ReplaceSkip(p: string, t: string, pat: string, rep: string)
    requires |pat| > 0
    requires forall i :: 0 <= i < |p| ==> !LeadsAt(p + t, i, pat)
    ensures Replace(p + t, pat, rep) == p + Replace(t, pat, rep)
    decreases |p|
  {
    var s := p + t;
    if |p| == 0 {
      assert s == t;
    } else if |s| < |pat| {
      assert Replace(t, pat, rep) == t;
    } else {
      assert !LeadsAt(s, 0, pat);
      assert s[..|pat|] != pat;
      assert s[1..] == p[1..] + t;
      forall i | 0 <= i < |p[1..]|
        ensures !LeadsAt(p[1..] + t, i, pat)
      {
        assert !LeadsAt(s, i + 1, pat);
      }
      ReplaceSkip(p[1..], t, pat, rep);
    }
  }

  /** A word none of whose own positions can start an occurrence of `pat`,
      followed by a character that cannot be the second or third character
      of an occurrence, passes through `replace` unchanged. */
  lemma ReplaceSkipWord(p: string, t: string, pat: string, rep: string)
    requires |pat| >= 3 && |t| > 0
    requires pat[1] != t[0] && pat[2] != t[0]
    requires NoLead(p, pat)
    ensures Replace(p + t, pat, rep) == p + Replace(t, pat, rep)
  {
    var s := p + t;
    forall i | 0 <= i < |p|
      ensures !LeadsAt(s, i, pat)
    {
      if i + 2 < |p| {
        assert !LeadsAt(p, i, pat);
        assert s[i] == p[i] && s[i + 1] == p[i + 1] && s[i + 2] == p[i + 2];
      } else if i + 2 == |p| {
        assert s[i + 2] == t[0];
      } else {
        assert s[i + 1] == t[0];
      }
    }
    ReplaceSkip(p, t, pat, rep);
  }

  /** A prefix without the first character of `pat` passes through
      `replace` unchanged. */
  lemma ReplaceSkipChar(p: string, t: string, pat: string, rep: string)
    requires |pat| > 0
    requires forall i :: 0 <= i < |p| ==> p[i] != pat[0]
    ensures Replace(p + t, pat, rep) == p + Replace(t, pat, rep)
  {
    forall i | 0 <= i < |p|
      ensures !LeadsAt(p + t, i, pat)
    {
      assert (p + t)[i] == p[i];
    }
    ReplaceSkip(p, t, pat, rep);
  }

  /** With no possible occurrence anywhere, `replace` is the identity. */
  lemma ReplaceAbsent(s: string, pat: string, rep: string)
    requires |pat| > 0
    requires NoLead(s, pat)
    ensures Replace(s, pat, rep) == s
  {
    assert s + [] == s;
    ReplaceSkip(s, [], pat, rep);
    assert Replace([], pat, rep) == [];
  }

  /** Replacing one character by another is a character-wise map. */
  lemma {:induction false} ReplaceCharAt(s: string, c: char, d: char)
    ensures |Replace(s, [c], [d])| == |s|
    ensures forall i :: 0 <= i < |s| ==> Replace(s, [c], [d])[i] == if s[i] == c then d else s[i]
    decreases |s|
  {
    if |s| > 0 {
      ReplaceCharAt(s[1..], c, d);
      var rest := Replace(s[1..], [c], [d]);
      if s[..1] == [c] {
        assert Replace(s, [c], [d]) == [d] + rest;
      } else {
        assert Replace(s, [c], [d]) == [s[0]] + rest;
      }
    }
  }

  /** ASCII case folding, as `str.lower` does on ASCII letters. */
  function LowerChar(c: char): (r: char)
    ensures 'A' <= c <= 'Z' ==> r as int == c as int + 32
    ensures !('A' <= c <= 'Z') ==> r == c
    ensures !('A' <= r <= 'Z')
  {
    if 'A' <= c <= 'Z' then (c as int + 32) as char else c
  }

  function Lower(s: string): (r: string)
    ensures |r| == |s|
  {
    seq(|s|, i requires 0 <= i < |s| => LowerChar(s[i]))
  }

  /** Python's ordering of strings: code point by code point, a proper
      prefix first. */
  predicate LexLe(a: string, b: string)
    decreases |a|
  {
    |a| == 0 || (|b| > 0 && (a[0] < b[0] || (a[0] == b[0] && LexLe(a[1..], b[1..]))))
  }

  lemma {:induction false} LexLeTotal(a: string, b: string)
    ensures LexLe(a, b) || LexLe(b, a)
    decreases |a|
  {
    if |a| > 0 && |b| > 0 && a[0] == b[0] {
      LexLeTotal(a[1..], b[1..]);
    }
  }

  lemma {:induction false} LexLeTrans(a: string, b: string, c: string)
    requires LexLe(a, b) && LexLe(b, c)
    ensures LexLe(a, c)
    decreases |a|
  {
    if |a| > 0 && a[0] == b[0] && b[0] == c[0] {
      LexLeTrans(a[1..], b[1..], c[1..]);
    }
  }

  ghost predicate Sorted(s: seq<string>) {
    forall i, j :: 0 <= i < j < |s| ==> LexLe(s[i], s[j])
  }

  function Insert(x: string, s: seq<string>): (r: seq<string>)
    requires Sorted(s)
    ensures Sorted(r)
    ensures multiset(r) == multiset(s) + multiset{x}
  {
    if |s| == 0 then [x]
    else if LexLe(x, s[0]) then
      BelowSorted(x, s);
      SortedCons(x, s);
      [x] + s
    else
      LexLeTotal(x, s[0]);
      assert s == [s[0]] + s[1..];
      var tail := Insert(x, s[1..]);
      BelowSorted(s[0], s[1..]);
      BelowAll(s[0], s[1..], x, tail);
      SortedCons(s[0], tail);
      assert multiset([s[0]] + tail) == multiset{s[0]} + multiset(s[1..]) + multiset{x};
      [s[0]] + tail
  }

  /** The head of a sorted list is below every later element, and so is
      anything below the head. */
  lemma BelowSorted(x: string, s: seq<string>)
    requires Sorted(s) && (|s| > 0 ==> LexLe(x, s[0]))
    ensures forall j :: 0 <= j < |s| ==> LexLe(x, s[j])
  {
    forall j | 0 < j < |s| ensures LexLe(x, s[j]) { LexLeTrans(x, s[0], s[j]); }
  }

  /** A bound on a list and on one more element bounds any list holding
      exactly those elements. */
  lemma BelowAll(lo: string, s: seq<string>, x: string, t: seq<string>)
    requires forall j :: 0 <= j < |s| ==> LexLe(lo, s[j])
    requires LexLe(lo, x)
    requires multiset(t) == multiset(s) + multiset{x}
    ensures forall j :: 0 <= j < |t| ==> LexLe(lo, t[j])
  {
    forall j | 0 <= j < |t| ensures LexLe(lo, t[j]) {
      assert t[j] in multiset(t);
      if t[j] != x {
        assert t[j] in multiset(s);
        var k :| 0 <= k < |s| && s[k] == t[j];
      }
    }
  }

  /** A sorted list with an element in front that is below all of it is
      sorted. */
  lemma SortedCons(h: string, t: seq<string>)
    requires Sorted(t) && forall j :: 0 <= j < |t| ==> LexLe(h, t[j])
    ensures Sorted([h] + t)
  {
    var r := [h] + t;
    forall i, j | 0 <= i < j < |r| ensures LexLe(r[i], r[j]) {
      assert r[j] == t[j - 1];
      if i > 0 { assert r[i] == t[i - 1]; }
    }
  }

  /** `sorted(xs)` for a list of strings. */
  function SortStrings(s: seq<string>): (r: seq<string>)
    ensures Sorted(r)
    ensures multiset(r) == multiset(s)
  {
    if |s| == 0 then []
    else
      assert s == [s[0]] + s[1..];
      Insert(s[0], SortStrings(s[1..]))
  }
}
