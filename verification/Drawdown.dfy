/** The largest fall of cumulative R: as a one-pass loop, and as the expression over whole arrays that the
    champion test uses. */
module Drawdown {
  import opened Types

  /** Cumulative R after the first i trades; nothing before the first. */
  function Cum(rs: seq<real>, i: nat): real
    requires i <= |rs|
  {
    if i == 0 then 0.0 else Cum(rs, i - 1) + rs[i - 1]
  }

  /** The largest difference between the cumulative R at some point and at that point or a later one, within
      the first n trades. */
  ghost predicate Worst(rs: seq<real>, n: nat, x: real) {
    && n <= |rs|
    && (forall i, j :: 0 <= i <= j <= n ==> Cum(rs, i) - Cum(rs, j) <= x)
    && (exists i, j :: 0 <= i <= j <= n && Cum(rs, i) - Cum(rs, j) == x)
  }

  ghost predicate IsDrawdown(rs: seq<real>, x: real) { Worst(rs, |rs|, x) }

  lemma OneDrawdown(rs: seq<real>, x: real, y: real)
    requires IsDrawdown(rs, x) && IsDrawdown(rs, y)
    ensures x == y
  {
    var i, j :| 0 <= i <= j <= |rs| && Cum(rs, i) - Cum(rs, j) == x;
    var k, l :| 0 <= k <= l <= |rs| && Cum(rs, k) - Cum(rs, l) == y;
  }

  /** The highest cumulative R so far is reached at some point, and no earlier point is above it. */
  ghost predicate IsPeak(rs: seq<real>, j: nat, peak: real) {
    && j <= |rs|
    && (forall i :: 0 <= i <= j ==> Cum(rs, i) <= peak)
    && (exists i :: 0 <= i <= j && Cum(rs, i) == peak)
  }

  lemma NextPeak(rs: seq<real>, n: nat, peak: real)
    requires n < |rs| && IsPeak(rs, n, peak)
    ensures IsPeak(rs, n + 1, Max(peak, Cum(rs, n + 1)))
  {
    var i :| 0 <= i <= n && Cum(rs, i) == peak;
    assert Cum(rs, i) == peak && Cum(rs, n + 1) == Cum(rs, n + 1);
  }

  lemma NextWorst(rs: seq<real>, n: nat, worst: real, peak: real)
    requires n < |rs| && Worst(rs, n, worst) && IsPeak(rs, n + 1, peak)
    ensures Worst(rs, n + 1, Max(worst, peak - Cum(rs, n + 1)))
  {
    var x := Max(worst, peak - Cum(rs, n + 1));
    if x == worst {
      var i, j :| 0 <= i <= j <= n && Cum(rs, i) - Cum(rs, j) == worst;
      assert Cum(rs, i) - Cum(rs, j) == x;
    } else {
      var k :| 0 <= k <= n + 1 && Cum(rs, k) == peak;
      assert Cum(rs, k) - Cum(rs, n + 1) == x;
    }
    forall i, j | 0 <= i <= j <= n + 1
      ensures Cum(rs, i) - Cum(rs, j) <= x
    {
      assert j <= n ==> Cum(rs, i) - Cum(rs, j) <= worst;
      assert Cum(rs, i) <= peak;
    }
  }

  /** What the loop knows after n trades. */
  ghost predicate Seen(rs: seq<real>, n: nat, cum: real, peak: real, worst: real) {
    n <= |rs| && cum == Cum(rs, n) && IsPeak(rs, n, peak) && Worst(rs, n, worst)
  }

  lemma NextSeen(rs: seq<real>, n: nat, cum: real, peak: real, worst: real)
    requires n < |rs| && Seen(rs, n, cum, peak, worst)
    ensures var cum', peak' := cum + rs[n], Max(peak, cum + rs[n]);
      Seen(rs, n + 1, cum', peak', Max(worst, peak' - cum'))
  {
    NextPeak(rs, n, peak);
    NextWorst(rs, n, worst, Max(peak, cum + rs[n]));
  }

  lemma Start(rs: seq<real>)
    ensures IsPeak(rs, 0, 0.0) && Worst(rs, 0, 0.0)
  {
    assert Cum(rs, 0) == 0.0 && Cum(rs, 0) - Cum(rs, 0) == 0.0;
  }

  method MaxDrawdown(rs: seq<real>) returns (worst: real)
    ensures IsDrawdown(rs, worst)
  {
    var peak, cum := 0.0, 0.0;
    worst := 0.0;
    Start(rs);
    for n := 0 to |rs|
      invariant Seen(rs, n, cum, peak, worst)
    {
      NextSeen(rs, n, cum, peak, worst);
      cum := cum + rs[n];
      peak := Max(peak, cum);
      worst := Max(worst, peak - cum);
    }
  }

  // ---------------------------------------------------------------- over whole arrays

  function CumSum(rs: seq<real>): (r: seq<real>)
    ensures |r| == |rs| && forall i: nat {:trigger r[i]} :: i < |rs| ==> r[i] == Cum(rs, i + 1)
  {
    seq(|rs|, i requires 0 <= i < |rs| => Cum(rs, i + 1))
  }

  /** numpy's maximum.accumulate. */
  function RunningMax(xs: seq<real>): (r: seq<real>)
    ensures |r| == |xs|
  {
    if xs == [] then []
    else
      var front := RunningMax(xs[..|xs| - 1]);
      front + [if front == [] then xs[0] else Max(front[|front| - 1], xs[|xs| - 1])]
  }

  function MaxOf(xs: seq<real>): real
    requires xs != []
  {
    if |xs| == 1 then xs[0] else Max(MaxOf(xs[..|xs| - 1]), xs[|xs| - 1])
  }

  function Minus(xs: seq<real>, ys: seq<real>): (r: seq<real>)
    requires |xs| == |ys|
    ensures |r| == |xs| && forall i :: 0 <= i < |xs| ==> r[i] == xs[i] - ys[i]
  {
    seq(|xs|, i requires 0 <= i < |xs| => xs[i] - ys[i])
  }

  function ArrayDrawdown(rs: seq<real>): real {
    var eq := CumSum(rs);
    if eq == [] then 0.0 else MaxOf(Minus(RunningMax([0.0] + eq)[1..], eq))
  }

  lemma {:induction false} RunningMaxIs(xs: seq<real>, j: nat)
    requires j < |xs|
    ensures var p := RunningMax(xs)[j];
      (forall i :: 0 <= i <= j ==> xs[i] <= p) && (exists i :: 0 <= i <= j && xs[i] == p)
    decreases |xs|
  {
    var n := |xs| - 1;
    if j < n {
      RunningMaxIs(xs[..n], j);
    } else if n == 0 {
      assert xs[0] == RunningMax(xs)[0];
    } else {
      RunningMaxIs(xs[..n], n - 1);
      var front := RunningMax(xs[..n]);
      var i :| 0 <= i <= n - 1 && xs[..n][i] == front[n - 1];
      assert RunningMax(xs)[n] == Max(front[n - 1], xs[n]);
      assert xs[i] == front[n - 1];
    }
  }

  lemma {:induction false} MaxOfIs(xs: seq<real>)
    requires xs != []
    ensures (forall i :: 0 <= i < |xs| ==> xs[i] <= MaxOf(xs)) && (exists i :: 0 <= i < |xs| && xs[i] == MaxOf(xs))
  {
    var n := |xs| - 1;
    if n > 0 {
      MaxOfIs(xs[..n]);
      var i :| 0 <= i < n && xs[..n][i] == MaxOf(xs[..n]);
      assert xs[i] == MaxOf(xs[..n]);
    } else {
      assert xs[0] == MaxOf(xs);
    }
  }

  /** The two computations agree on every sequence. */
  lemma ArrayFormAgrees(rs: seq<real>)
    ensures IsDrawdown(rs, ArrayDrawdown(rs))
  {
    var eq := CumSum(rs);
    if eq == [] {
      Start(rs);
    } else {
      Falls(rs, eq, [0.0] + eq, Minus(RunningMax([0.0] + eq)[1..], eq));
    }
  }

  lemma Falls(rs: seq<real>, eq: seq<real>, all: seq<real>, falls: seq<real>)
    requires eq == CumSum(rs) != [] && all == [0.0] + eq && falls == Minus(RunningMax(all)[1..], eq)
    ensures IsDrawdown(rs, MaxOf(falls))
  {
    forall j: nat | j < |rs|
      ensures FallAt(rs, falls, j)
    {
      OneFall(rs, eq, all, falls, j);
    }
    MaxOfIs(falls);
    FallsAreDrawdown(rs, falls, MaxOf(falls));
  }

  lemma OneFall(rs: seq<real>, eq: seq<real>, all: seq<real>, falls: seq<real>, j: nat)
    requires eq == CumSum(rs) != [] && all == [0.0] + eq && falls == Minus(RunningMax(all)[1..], eq) && j < |rs|
    ensures FallAt(rs, falls, j)
  {
    AllIsCum(rs, eq, all);
    FallIsPeak(rs, all, j + 1, falls[j]);
    Rearranged(rs, falls, j, falls[j] + Cum(rs, j + 1));
  }

  lemma Rearranged(rs: seq<real>, falls: seq<real>, j: nat, peak: real)
    requires j < |falls| == |rs| && peak == falls[j] + Cum(rs, j + 1) && IsPeak(rs, j + 1, peak)
    ensures FallAt(rs, falls, j)
  {}

  lemma AllIsCum(rs: seq<real>, eq: seq<real>, all: seq<real>)
    requires eq == CumSum(rs) && all == [0.0] + eq
    ensures |all| == |rs| + 1 && forall i: nat {:trigger all[i]} :: i <= |rs| ==> all[i] == Cum(rs, i)
  {}

  /** The fall at a point, put back on, is the peak. */
  ghost predicate FallAt(rs: seq<real>, falls: seq<real>, j: nat) {
    j < |falls| == |rs| && IsPeak(rs, j + 1, falls[j] + Cum(rs, j + 1))
  }

  lemma FallIsPeak(rs: seq<real>, all: seq<real>, j: nat, fall: real)
    requires |all| == |rs| + 1 && (forall i: nat {:trigger all[i]} :: i <= |rs| ==> all[i] == Cum(rs, i)) && j <= |rs|
    requires fall == RunningMax(all)[j] - Cum(rs, j)
    ensures IsPeak(rs, j, fall + Cum(rs, j))
  {
    RunningMaxIs(all, j);
    var p := RunningMax(all)[j];
    forall i: nat | i <= j
      ensures Cum(rs, i) <= p
    {
      assert all[i] <= p;
    }
    var k: nat :| k <= j && all[k] == p;
    assert Cum(rs, k) == p;
  }

  lemma FallsAreDrawdown(rs: seq<real>, falls: seq<real>, x: real)
    requires |falls| == |rs| > 0 && forall j: nat :: j < |rs| ==> FallAt(rs, falls, j)
    requires (forall i :: 0 <= i < |falls| ==> falls[i] <= x) && exists i :: 0 <= i < |falls| && falls[i] == x
    ensures IsDrawdown(rs, x)
  {
    forall i: nat, j: nat | i <= j <= |rs|
      ensures Cum(rs, i) - Cum(rs, j) <= x
    {
      if j == 0 {
        BelowFall(rs, falls, 1, 0);
      } else {
        assert FallAt(rs, falls, j - 1);
      }
    }
    var m :| 0 <= m < |falls| && falls[m] == x;
    assert FallAt(rs, falls, m);
    var i :| 0 <= i <= m + 1 && Cum(rs, i) == falls[m] + Cum(rs, m + 1);
    assert Cum(rs, i) - Cum(rs, m + 1) == x;
  }

  /** A fall is never negative. */
  lemma BelowFall(rs: seq<real>, falls: seq<real>, j: nat, i: nat)
    requires 0 < j <= |rs| && FallAt(rs, falls, j - 1)
    ensures falls[j - 1] >= 0.0
  {
    assert Cum(rs, j) <= falls[j - 1] + Cum(rs, j);
  }
}
