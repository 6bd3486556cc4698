/** Sums over the program counters of an arbitrary number of threads.
    A step of a transition system moves one thread, so one update lemma is
    all the arithmetic that the invariants need. */
module Tally {

  function Total<T>(f: T -> int, s: seq<T>): int {
    if s == [] then 0 else f(s[0]) + Total(f, s[1..])
  }

  /** Moving one thread changes a total by exactly that thread's share. */
  lemma {:induction false} TotalUpdate<T>(f: T -> int, s: seq<T>, i: nat, x: T)
    requires i < |s|
    ensures Total(f, s[i := x]) == Total(f, s) - f(s[i]) + f(x)
  {
    if i == 0 {
      assert s[i := x][1..] == s[1..];
    } else {
      assert s[i := x][1..] == s[1..][i - 1 := x];
      TotalUpdate(f, s[1..], i - 1, x);
    }
  }

  /** Every thread's share is contained in the total, when shares are not negative. */
  lemma {:induction false} TotalCovers<T>(f: T -> int, s: seq<T>, i: nat)
    requires i < |s|
    requires forall k :: 0 <= k < |s| ==> f(s[k]) >= 0
    ensures 0 <= f(s[i]) <= Total(f, s)
    decreases |s|
  {
    TotalNonNegative(f, s[1..]);
    if i > 0 {
      TotalCovers(f, s[1..], i - 1);
    }
  }

  lemma {:induction false} TotalNonNegative<T>(f: T -> int, s: seq<T>)
    requires forall k :: 0 <= k < |s| ==> f(s[k]) >= 0
    ensures Total(f, s) >= 0
  {
    if s != [] {
      TotalNonNegative(f, s[1..]);
    }
  }

  /** Two different threads cannot both hold a share of one if the total is at most one. */
  lemma {:induction false} TotalCoversPair<T>(f: T -> int, s: seq<T>, i: nat, j: nat)
    requires i < j < |s|
    requires forall k :: 0 <= k < |s| ==> f(s[k]) >= 0
    ensures f(s[i]) + f(s[j]) <= Total(f, s)
    decreases |s|
  {
    if i == 0 {
      TotalCovers(f, s[1..], j - 1);
    } else {
      TotalCoversPair(f, s[1..], i - 1, j - 1);
    }
  }

  /** A positive total has a thread behind it. */
  lemma {:induction false} TotalWitness<T>(f: T -> int, s: seq<T>) returns (i: nat)
    requires Total(f, s) > 0
    ensures i < |s| && f(s[i]) > 0
  {
    if f(s[0]) > 0 {
      i := 0;
    } else {
      var j := TotalWitness(f, s[1..]);
      i := j + 1;
    }
  }

  /** A total is bounded by the number of threads times the largest share. */
  lemma {:induction false} TotalBounded<T>(f: T -> int, s: seq<T>, most: int)
    requires forall k :: 0 <= k < |s| ==> f(s[k]) <= most
    ensures Total(f, s) <= |s| * most
  {
    if s != [] {
      TotalBounded(f, s[1..], most);
    }
  }

  /** Threads with nothing to contribute add up to nothing. */
  lemma {:induction false} TotalZero<T>(f: T -> int, s: seq<T>)
    requires forall k :: 0 <= k < |s| ==> f(s[k]) == 0
    ensures Total(f, s) == 0
  {
    if s != [] {
      TotalZero(f, s[1..]);
    }
  }

  /** Numbers below a bound: there are at most that many of them. */
  lemma {:induction false} BelowBound(s: set<nat>, bound: nat)
    requires forall x :: x in s ==> x < bound
    ensures |s| <= bound
  {
    if bound > 0 {
      BelowBound(s - {bound - 1}, bound - 1);
    } else {
      assert s == {};
    }
  }

  /** Distinct numbers below a bound make a sequence no longer than the bound. */
  lemma {:induction false} DistinctBelow(xs: seq<nat>, bound: nat)
    requires forall i :: 0 <= i < |xs| ==> xs[i] < bound
    requires forall i, j :: 0 <= i < j < |xs| ==> xs[i] != xs[j]
    ensures |xs| <= bound
  {
    var all := Members(xs);
    BelowBound(all, bound);
  }

  function Members(xs: seq<nat>): (all: set<nat>)
    requires forall i, j :: 0 <= i < j < |xs| ==> xs[i] != xs[j]
    ensures forall x :: x in all <==> x in xs
    ensures |all| == |xs|
  {
    if xs == [] then {}
    else
      var last := |xs| - 1;
      assert xs == xs[..last] + [xs[last]];
      Members(xs[..last]) + {xs[last]}
  }

  lemma {:induction false} TotalConcat<T>(f: T -> int, s: seq<T>, s': seq<T>)
    ensures Total(f, s + s') == Total(f, s) + Total(f, s')
  {
    if s == [] {
      assert s + s' == s';
    } else {
      assert (s + s')[1..] == s[1..] + s';
      TotalConcat(f, s[1..], s');
    }
  }

  lemma {:induction false} TotalUniform<T>(f: T -> int, s: seq<T>, share: int)
    requires forall k :: 0 <= k < |s| ==> f(s[k]) == share
    ensures Total(f, s) == |s| * share
  {
    if s != [] {
      TotalUniform(f, s[1..], share);
    }
  }
}
