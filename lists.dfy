/** The Python list idioms the menu relies on: `s.index(x, start)`,
    the cyclic neighbour `s[(s.index(x) + step) % len(s)]`, and negative
    indexing `s[i]` with `-len(s) <= i < 0`. */
module Lists {
  import opened Wrappers

  /** No entry occurs twice. */
  predicate Distinct<T(==)>(s: seq<T>) {
    forall i, j :: 0 <= i < j < |s| ==> s[i] != s[j]
  }

  /** `s.index(x, start)`: the first position at or after `start` holding `x`;
      None where Python raises ValueError. */
  function IndexFrom<T(==)>(s: seq<T>, x: T, start: nat): (r: Option<nat>)
    ensures r.Some? ==> start <= r.value < |s| && s[r.value] == x
    ensures r.Some? ==> forall j :: start <= j < r.value ==> s[j] != x
    ensures r.None? <==> forall j :: start <= j < |s| ==> s[j] != x
    decreases |s| - start
  {
    if start >= |s| then None
    else if s[start] == x then Some(start)
    else IndexFrom(s, x, start + 1)
  }

  /** `s[i]` with Python's negative indexing. */
  function PyIndex<T>(s: seq<T>, i: int): (r: T)
    requires -|s| <= i < |s|
    ensures r in s
    ensures 0 <= i ==> r == s[i]
    ensures i < 0 ==> r == s[|s| + i]
  {
    if i < 0 then s[|s| + i] else s[i]
  }

  /** `s[(s.index(x) + step) % len(s)]`: the entry `step` places after the
      first occurrence of `x`, wrapping around the ends. */
  function Neighbour<T(==)>(s: seq<T>, x: T, step: int): (r: T)
    requires x in s
    ensures r in s
  {
    var k := IndexFrom(s, x, 0).value;
    s[(k + step) % |s|]
  }

  /** In a list without repeats, `index` finds the one position of the entry. */
  lemma IndexOfDistinct<T>(s: seq<T>, k: nat)
    requires Distinct(s) && k < |s|
    ensures IndexFrom(s, s[k], 0) == Some(k)
  {
  }

  /** Without repeats, the neighbour of `s[k]` is `s[(k + step) mod n]`. */
  lemma NeighbourAt<T>(s: seq<T>, k: nat, step: int)
    requires Distinct(s) && k < |s|
    ensures Neighbour(s, s[k], step) == s[(k + step) % |s|]
  {
    IndexOfDistinct(s, k);
  }

  /** Without repeats, one step forward from `s[k]` is `s[k + 1]`, or `s[0]` from the last entry. */
  lemma NextAt<T>(s: seq<T>, k: nat)
    requires Distinct(s) && k < |s|
    ensures Neighbour(s, s[k], 1) == if k + 1 < |s| then s[k + 1] else s[0]
  {
    IndexOfDistinct(s, k);
    StepMod(k, 1, |s|);
  }

  /** Without repeats, one step back from `s[k]` is `s[k - 1]`, or the last entry from `s[0]`. */
  lemma PrevAt<T>(s: seq<T>, k: nat)
    requires Distinct(s) && k < |s|
    ensures Neighbour(s, s[k], -1) == if k > 0 then s[k - 1] else s[|s| - 1]
  {
    IndexOfDistinct(s, k);
    StepMod(k, -1, |s|);
  }

  /** One step forward or back from a position, taken modulo the length. */
  lemma StepMod(k: nat, step: int, n: nat)
    requires k < n && (step == 1 || step == -1)
    ensures step == 1 ==> (k + step) % n == if k + 1 < n then k + 1 else 0
    ensures step == -1 ==> (k + step) % n == if k > 0 then k - 1 else n - 1
  {
    var a := k + step;
    var q := if a < 0 then -1 else if a < n then 0 else 1;
    var r := a - q * n;
    assert 0 <= r < n && a == q * n + r;
    ModUnique(a, n, q, r);
  }

  /** The remainder is the one value in [0, n) that differs from `a` by a
      multiple of n. */
  lemma ModUnique(a: int, n: nat, q: int, r: int)
    requires 0 < n && a == q * n + r && 0 <= r < n
    ensures a % n == r
  {
    var d := a / n - q;
    assert n * (a / n) + a % n == a;
    assert n * d == r - a % n;
    PositiveFactor(n, 1 - d);
    PositiveFactor(n, d + 1);
  }

  lemma PositiveFactor(n: int, x: int)
    requires 0 < n && n * x > 0
    ensures x > 0
  {
  }

  /** Without repeats, stepping forward then back (or back then forward)
      returns to the starting entry. */
  lemma NeighbourRoundTrip<T>(s: seq<T>, x: T)
    requires Distinct(s) && x in s
    ensures Neighbour(s, Neighbour(s, x, 1), -1) == x
    ensures Neighbour(s, Neighbour(s, x, -1), 1) == x
  {
    var k := IndexFrom(s, x, 0).value;
    NextAt(s, k);
    PrevAt(s, k);
    if k + 1 < |s| { PrevAt(s, k + 1); } else { PrevAt(s, 0); }
    if k > 0 { NextAt(s, k - 1); } else { NextAt(s, |s| - 1); }
  }

  /** `m` forward steps from `x`. */
  function Advance<T(==)>(s: seq<T>, x: T, m: nat): (r: T)
    requires x in s
    ensures r in s
  {
    if m == 0 then x else Neighbour(s, Advance(s, x, m - 1), 1)
  }

  /** Without repeats, up to one full lap of forward steps from `s[k]`
      lands `m` places further on, wrapping once past the end. */
  lemma {:induction false} AdvanceAt<T>(s: seq<T>, k: nat, m: nat)
    requires Distinct(s) && k < |s| && m <= |s|
    ensures Advance(s, s[k], m) == s[if k + m < |s| then k + m else k + m - |s|]
  {
    if m > 0 {
      AdvanceAt(s, k, m - 1);
      var j := if k + m - 1 < |s| then k + m - 1 else k + m - 1 - |s|;
      AdvanceStep(s, k, m, j);
      assert (if j + 1 < |s| then j + 1 else 0) == (if k + m < |s| then k + m else k + m - |s|);
    }
  }

  /** One more forward step from the entry at position `j`. */
  lemma AdvanceStep<T>(s: seq<T>, k: nat, m: nat, j: nat)
    requires Distinct(s) && k < |s| && 0 < m && j < |s|
    requires Advance(s, s[k], m - 1) == s[j]
    ensures Advance(s, s[k], m) == s[if j + 1 < |s| then j + 1 else 0]
  {
    NextAt(s, j);
  }

  /** Without repeats, `len(s)` forward steps come back to the start. */
  lemma AdvanceFullCycle<T>(s: seq<T>, x: T)
    requires Distinct(s) && x in s
    ensures Advance(s, x, |s|) == x
  {
    AdvanceAt(s, IndexFrom(s, x, 0).value, |s|);
  }
}
