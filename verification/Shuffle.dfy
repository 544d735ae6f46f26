/** The partial Fisher-Yates shuffle behind the random pick. */
module Shuffle {
  import opened Prelude

  /** One random index per step: step `i` chooses among the `size - i` places not yet fixed. */
  ghost predicate ValidDraws(size: nat, draws: seq<nat>) {
    |draws| <= size && forall i :: 0 <= i < |draws| ==> draws[i] < size - i
  }

  function Identity(size: nat): seq<nat> {
    seq(size, i => i)
  }

  function Swap(pool: seq<nat>, i: nat, j: nat): seq<nat>
    requires i < |pool| && j < |pool|
  {
    pool[i := pool[j]][j := pool[i]]
  }

  /** The pool after the swaps `draws` asks for. */
  ghost function Pool(size: nat, draws: seq<nat>): (pool: seq<nat>)
    requires ValidDraws(size, draws)
    ensures |pool| == size
  {
    if draws == [] then Identity(size)
    else
      var i := |draws| - 1;
      Swap(Pool(size, draws[..i]), i, i + draws[i])
  }

  ghost function Picked(size: nat, draws: seq<nat>): seq<nat>
    requires ValidDraws(size, draws)
  {
    Pool(size, draws)[..|draws|]
  }

  ghost predicate Distinct(s: seq<nat>) {
    forall i, j :: 0 <= i < j < |s| ==> s[i] != s[j]
  }

  ghost predicate Below(s: seq<nat>, size: nat) {
    forall i :: 0 <= i < |s| ==> s[i] < size
  }

  /** Whatever the indices, the pool stays a permutation of 0 .. size - 1. */
  lemma {:induction false} PoolIsPermutation(size: nat, draws: seq<nat>)
    requires ValidDraws(size, draws)
    ensures Distinct(Pool(size, draws)) && Below(Pool(size, draws), size)
  {
    if draws != [] {
      PoolIsPermutation(size, draws[..|draws| - 1]);
    }
  }

  /** A step never touches the places already fixed. */
  lemma {:induction false} FixedPlacesStay(size: nat, draws: seq<nat>, k: nat)
    requires ValidDraws(size, draws) && k <= |draws|
    ensures Picked(size, draws)[..k] == Picked(size, draws[..k])
  {
    if k < |draws| {
      var before := draws[..|draws| - 1];
      assert before[..k] == draws[..k];
      FixedPlacesStay(size, before, k);
    } else {
      assert draws[..k] == draws;
    }
  }

  /** The pick of step `k` is what the pool holds at the place drawn. */
  lemma PickAt(size: nat, draws: seq<nat>, k: nat)
    requires ValidDraws(size, draws) && k < |draws|
    ensures Picked(size, draws)[k] == Pool(size, draws[..k])[k + draws[k]]
  {
    FixedPlacesStay(size, draws, k + 1);
    assert draws[..k + 1][..k] == draws[..k];
    assert Picked(size, draws)[k] == Picked(size, draws)[..k + 1][k] == Picked(size, draws[..k + 1])[k];
  }

  /** Different indices give different ordered picks ... */
  lemma {:induction false} PicksDetermineDraws(size: nat, a: seq<nat>, b: seq<nat>, k: nat)
    requires ValidDraws(size, a) && ValidDraws(size, b) && k <= |a| == |b|
    requires Picked(size, a) == Picked(size, b)
    ensures a[..k] == b[..k]
  {
    hide Pool, Picked, Distinct;
    if k > 0 {
      PicksDetermineDraws(size, a, b, k - 1);
      PickAt(size, a, k - 1);
      PickAt(size, b, k - 1);
      PoolIsPermutation(size, a[..k - 1]);
      SamePlace(Pool(size, a[..k - 1]), k - 1 + a[k - 1], k - 1 + b[k - 1]);
    }
  }

  lemma SamePlace(pool: seq<nat>, i: nat, j: nat)
    requires Distinct(pool) && i < |pool| && j < |pool| && pool[i] == pool[j]
    ensures i == j
  {
  }

  /** ... and every ordered pick of distinct numbers has its indices. */
  lemma {:induction false} EveryPickHasDraws(size: nat, picks: seq<nat>) returns (draws: seq<nat>)
    requires Distinct(picks) && Below(picks, size)
    ensures |draws| == |picks| && ValidDraws(size, draws) && Picked(size, draws) == picks
  {
    if picks == [] {
      draws := [];
    } else {
      var k := |picks| - 1;
      var before := EveryPickHasDraws(size, picks[..k]);
      var pool := Pool(size, before);
      PoolIsPermutation(size, before);
      var place := PlaceOf(pool, size, picks[k]);
      forall i | 0 <= i < k ensures pool[i] == picks[i] {
        assert pool[..k][i] == picks[..k][i];
      }
      draws := before + [place - k];
      assert draws[..k] == before;
      FixedPlacesStay(size, draws, k);
    }
  }

  /** A permutation holds every number of its range. */
  lemma PlaceOf(pool: seq<nat>, size: nat, x: nat) returns (place: nat)
    requires |pool| == size && Distinct(pool) && Below(pool, size) && x < size
    ensures place < size && pool[place] == x
  {
    if x !in pool {
      DistinctCount(pool, size, x);
    }
    place :| place < size && pool[place] == x;
  }

  lemma DistinctCount(pool: seq<nat>, size: nat, x: nat)
    requires Distinct(pool) && Below(pool, size) && x < size && x !in pool
    ensures |pool| < size
  {
    var range := Identity(size);
    var all, held := set i | 0 <= i < size :: range[i], set i | 0 <= i < |pool| :: pool[i];
    HeldSize(range);
    HeldSize(pool);
    assert range[x] in all;
    assert held <= all - {x} by {
      forall y | y in held ensures y in all {
        assert range[y] in all;
      }
    }
    SubsetSize(held, all - {x});
  }

  lemma {:induction false} HeldSize(pool: seq<nat>)
    requires Distinct(pool)
    ensures |set i | 0 <= i < |pool| :: pool[i]| == |pool|
  {
    if pool != [] {
      var k := |pool| - 1;
      HeldSize(pool[..k]);
      assert (set i | 0 <= i < |pool| :: pool[i]) == (set i | 0 <= i < k :: pool[..k][i]) + {pool[k]};
    }
  }
}
