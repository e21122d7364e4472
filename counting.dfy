/**
 * Sums over sequences, used for the occupancy counters of both voxel stores
 * and for the size of generated columns.
 */
module Counting {

  import opened Wrappers

  /** Sum of `f` over the elements of `s`. */
  function Sum<T>(s: seq<T>, f: T -> nat): nat {
    if s == [] then 0 else Sum(s[..|s| - 1], f) + f(s[|s| - 1])
  }

  /** 1 for an occupied cell, 0 for air. */
  function Occ<T>(cell: Option<T>): nat {
    if cell.Some? then 1 else 0
  }

  /** The number of occupied cells in a flat store. */
  function Occupied<T>(cells: seq<Option<T>>): nat {
    Sum(cells, Occ)
  }

  lemma {:induction false} SumAppend<T>(s: seq<T>, t: seq<T>, f: T -> nat)
    ensures Sum(s + t, f) == Sum(s, f) + Sum(t, f)
  {
    if t == [] {
      assert s + t == s;
    } else {
      assert (s + t)[..|s + t| - 1] == s + t[..|t| - 1];
      SumAppend(s, t[..|t| - 1], f);
    }
  }

  /** Appending one element adds its weight. */
  lemma SumSnoc<T>(s: seq<T>, x: T, f: T -> nat)
    ensures Sum(s + [x], f) == Sum(s, f) + f(x)
  {
    assert (s + [x])[..|s|] == s;
  }

  /** One more element of a prefix adds its occupancy. */
  lemma OccupiedPrefix<T>(cells: seq<Option<T>>, n: nat)
    requires 0 < n <= |cells|
    ensures Occupied(cells[..n]) == Occupied(cells[..n - 1]) + Occ(cells[n - 1])
  {
    assert cells[..n][..n - 1] == cells[..n - 1];
  }

  /** Overwriting one element changes the sum by the difference of the two weights. */
  lemma {:induction false} SumUpdate<T>(s: seq<T>, i: nat, v: T, f: T -> nat)
    requires i < |s|
    ensures Sum(s[i := v], f) + f(s[i]) == Sum(s, f) + f(v)
  {
    var n := |s| - 1;
    if i == n {
      assert s[i := v][..n] == s[..n];
    } else {
      assert s[i := v][..n] == s[..n][i := v];
      SumUpdate(s[..n], i, v, f);
    }
  }

  /** A sequence whose every element weighs nothing sums to zero. */
  lemma {:induction false} SumZero<T>(s: seq<T>, f: T -> nat)
    requires forall k :: 0 <= k < |s| ==> f(s[k]) == 0
    ensures Sum(s, f) == 0
  {
    if s != [] {
      SumZero(s[..|s| - 1], f);
    }
  }
}
