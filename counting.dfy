/**
 * Counting occurrences per key, as the Python code does with
 * `if k not in d: d[k] = 0` followed by `d[k] += 1` over a list.
 */
module Counting {

  /** The dictionary built by counting `xs` front to back. */
  function Tally<T(==)>(xs: seq<T>): map<T, nat>
    decreases |xs|
  {
    if xs == [] then map[]
    else Bump(Tally(xs[..|xs| - 1]), xs[|xs| - 1])
  }

  /** The keys are the counted values, and each count is the value's multiplicity (so at least 1). */
  lemma {:induction false} TallyCounts<T>(xs: seq<T>)
    ensures Tally(xs).Keys == set x | x in xs
    ensures forall k :: k in Tally(xs) ==> Tally(xs)[k] == multiset(xs)[k] && Tally(xs)[k] >= 1
    decreases |xs|
  {
    if xs != [] {
      var front, x := xs[..|xs| - 1], xs[|xs| - 1];
      assert xs == front + [x];
      TallyCounts(front);
      assert multiset(xs) == multiset(front) + multiset{x};
    }
  }

  /** One step of the counting loop: start a missing key at 0, then add 1. */
  function Bump<T(==)>(m: map<T, nat>, x: T): (r: map<T, nat>)
    ensures r.Keys == m.Keys + {x}
    ensures r[x] == (if x in m then m[x] else 0) + 1
    ensures forall k :: k in m && k != x ==> r[k] == m[k]
  {
    m[x := (if x in m then m[x] else 0) + 1]
  }

  /** The loop step in place: `if k not in m: m[k] = 0`, then `m[k] += 1`. */
  method Increment<T>(m: map<T, nat>, k: T) returns (r: map<T, nat>)
    ensures r == Bump(m, k)
  {
    r := m;
    if k !in r {
      r := r[k := 0];
    }
    r := r[k := r[k] + 1];
  }

  /** Counting one more element is one step of the loop. */
  lemma TallySnoc<T>(xs: seq<T>, x: T)
    ensures Tally(xs + [x]) == Bump(Tally(xs), x)
  {
    assert (xs + [x])[..|xs + [x]| - 1] == xs;
  }

  /** The sum of all values of a map. */
  ghost function MapSum<T>(m: map<T, nat>): nat
    decreases |m|
  {
    if m == map[] then 0
    else
      var k :| k in m;
      m[k] + MapSum(m - {k})
  }

  /** The sum does not depend on which key is taken out first. */
  lemma {:induction false} MapSumRemove<T>(m: map<T, nat>, k: T)
    requires k in m
    ensures MapSum(m) == m[k] + MapSum(m - {k})
    decreases |m|
  {
    var j :| j in m && MapSum(m) == m[j] + MapSum(m - {j});
    if j != k {
      var mj := m - {j};
      var mk := m - {k};
      assert k in mj && j in mk;
      assert |mj| < |m| && |mk| < |m|;
      MapSumRemove(mj, k);
      MapSumRemove(mk, j);
      assert mj - {k} == mk - {j};
    }
  }

  /** Bumping one key raises the sum by exactly one. */
  lemma MapSumBump<T>(m: map<T, nat>, x: T)
    ensures MapSum(Bump(m, x)) == MapSum(m) + 1
  {
    var r := Bump(m, x);
    MapSumRemove(r, x);
    if x in m {
      MapSumRemove(m, x);
      assert r - {x} == m - {x};
    } else {
      assert r - {x} == m;
    }
  }

  /** The counts of a tally add up to the length of the counted list. */
  lemma {:induction false} TallySum<T>(xs: seq<T>)
    ensures MapSum(Tally(xs)) == |xs|
    decreases |xs|
  {
    if xs != [] {
      var front := xs[..|xs| - 1];
      TallySum(front);
      MapSumBump(Tally(front), xs[|xs| - 1]);
    }
  }
}
