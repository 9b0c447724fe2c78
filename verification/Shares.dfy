/** Capped shares by water filling, and the split of slot shares among the members of a cluster. Slots and
    versions are numbered. */
module Shares {
  import opened Types
  import opened Clusters

  function Sum(xs: seq<real>): real { if xs == [] then 0.0 else Sum(xs[..|xs| - 1]) + xs[|xs| - 1] }

  function Positive(w: seq<real>): nat {
    if w == [] then 0 else Positive(w[..|w| - 1]) + if w[|w| - 1] > 0.0 then 1 else 0
  }

  /** The share of a slot at a level: proportional to its weight, but never above the cap. */
  function Level(w: real, cap: real, level: real): real { if w > 0.0 then Min(cap, level * w) else 0.0 }

  ghost predicate AtLevel(w: seq<real>, cap: real, level: real, shares: seq<real>) {
    |shares| == |w| && forall k :: 0 <= k < |w| ==> shares[k] == Level(w[k], cap, level)
  }

  /** One level for all slots, and as much of the budget as the cap allows. */
  ghost predicate Filled(w: seq<real>, cap: real, shares: seq<real>) {
    && (exists level :: level >= 0.0 && AtLevel(w, cap, level, shares))
    && Sum(shares) == Min(1.0, cap * Positive(w) as real)
  }

  // ---------------------------------------------------------------- what the loop keeps

  function LiveSum(w: seq<real>, fixed: seq<bool>): real
    requires |w| == |fixed|
  {
    if w == [] then 0.0
    else
      var n := |w| - 1;
      LiveSum(w[..n], fixed[..n]) + if w[n] > 0.0 && !fixed[n] then w[n] else 0.0
  }

  function LiveCount(w: seq<real>, fixed: seq<bool>): nat
    requires |w| == |fixed|
  {
    if w == [] then 0
    else
      var n := |w| - 1;
      LiveCount(w[..n], fixed[..n]) + if w[n] > 0.0 && !fixed[n] then 1 else 0
  }

  /** What the fixed slots have together: the cap, each. */
  function FixedSum(fixed: seq<bool>, cap: real): real {
    if fixed == [] then 0.0 else FixedSum(fixed[..|fixed| - 1], cap) + if fixed[|fixed| - 1] then cap else 0.0
  }

  /** What is left for the live slots. */
  function Budget(fixed: seq<bool>, cap: real): real { 1.0 - FixedSum(fixed, cap) }

  /** What the live slots would take at a level. */
  function Taken(w: seq<real>, fixed: seq<bool>, level: real): real
    requires |w| == |fixed|
  {
    if w == [] then 0.0
    else
      var n := |w| - 1;
      Taken(w[..n], fixed[..n], level) + if w[n] > 0.0 && !fixed[n] then level * w[n] else 0.0
  }

  lemma {:induction false} TakenIs(w: seq<real>, fixed: seq<bool>, level: real)
    requires |w| == |fixed|
    ensures Taken(w, fixed, level) == level * LiveSum(w, fixed)
  {
    if w != [] {
      var n := |w| - 1;
      TakenIs(w[..n], fixed[..n], level);
      Distributes(level, LiveSum(w[..n], fixed[..n]), w[n]);
    }
  }

  lemma Distributes(x: real, a: real, b: real)
    ensures x * (a + b) == x * a + x * b
  {}

  lemma {:induction false} LiveParts(w: seq<real>, fixed: seq<bool>)
    requires |w| == |fixed|
    ensures LiveSum(w, fixed) >= 0.0 && (LiveSum(w, fixed) > 0.0 <==> LiveCount(w, fixed) > 0)
    ensures LiveCount(w, fixed) == 0 <==> forall k :: 0 <= k < |w| ==> !(w[k] > 0.0 && !fixed[k])
  {
    if w != [] {
      LiveParts(w[..|w| - 1], fixed[..|w| - 1]);
    }
  }

  /** Fix every live slot whose proportional share is above the cap. */
  function Fix(w: seq<real>, fixed: seq<bool>, cap: real, level: real): (r: seq<bool>)
    requires |w| == |fixed|
    ensures |r| == |w| && forall k :: 0 <= k < |w| ==> r[k] == (fixed[k] || (w[k] > 0.0 && level * w[k] > cap))
  {
    seq(|w|, k requires 0 <= k < |w| => fixed[k] || (w[k] > 0.0 && level * w[k] > cap))
  }

  lemma {:induction false} FixDrops(w: seq<real>, fixed: seq<bool>, cap: real, level: real)
    requires |w| == |fixed|
    ensures var r := Fix(w, fixed, cap, level);
      LiveCount(w, r) <= LiveCount(w, fixed) && (r != fixed ==> LiveCount(w, r) < LiveCount(w, fixed))
  {
    if w != [] {
      var n := |w| - 1;
      var r := Fix(w, fixed, cap, level);
      assert r[..n] == Fix(w[..n], fixed[..n], cap, level);
      FixDrops(w[..n], fixed[..n], cap, level);
      assert fixed == fixed[..n] + [fixed[n]] && r == r[..n] + [r[n]];
    }
  }

  /** The newly fixed slots get less than their proportion, so more is left for the others: the level rises. */
  lemma {:induction false} FixFrees(w: seq<real>, fixed: seq<bool>, cap: real, level: real)
    requires |w| == |fixed|
    ensures var r := Fix(w, fixed, cap, level);
      var less, free := FixedSum(r, cap) - FixedSum(fixed, cap), Taken(w, fixed, level) - Taken(w, r, level);
      less <= free && (r != fixed ==> less < free)
  {
    if w != [] {
      var n := |w| - 1;
      var r := Fix(w, fixed, cap, level);
      assert r[..n] == Fix(w[..n], fixed[..n], cap, level);
      FixFrees(w[..n], fixed[..n], cap, level);
      assert fixed == fixed[..n] + [fixed[n]] && r == r[..n] + [r[n]];
    }
  }

  ghost predicate Rising(levels: seq<real>) { forall i, j :: 0 <= i < j < |levels| ==> levels[i] < levels[j] }

  /** A fixed slot would exceed the cap at the last level. */
  ghost predicate Capped(w: seq<real>, fixed: seq<bool>, cap: real, level: real) {
    |w| == |fixed| && forall k :: 0 <= k < |w| && fixed[k] ==> w[k] > 0.0 && level * w[k] > cap
  }

  /** Normalize to shares that sum to at most 1, none above the cap; `levels` are the levels of the rounds. */
  method CappedShares(w: seq<real>, cap: real) returns (shares: seq<real>, ghost levels: seq<real>)
    requires cap > 0.0
    ensures Filled(w, cap, shares)
    ensures Rising(levels) && forall i :: 0 <= i < |levels| ==> levels[i] > 0.0
  {
    var fixed := seq(|w|, (_: int) => false);
    ghost var level := 0.0;
    levels := [];
    NoneFixed(w, fixed, cap);
    var live := LiveCount(w, fixed);
    while live > 0
      invariant |fixed| == |w| && live == LiveCount(w, fixed)
      invariant level >= 0.0 && Capped(w, fixed, cap, level) && Budget(fixed, cap) > Taken(w, fixed, level)
      invariant Rising(levels) && forall i :: 0 <= i < |levels| ==> 0.0 < levels[i] <= level
      decreases live
    {
      LiveParts(w, fixed);
      var budget, total := Budget(fixed, cap), LiveSum(w, fixed);
      var trial := budget / total;
      TrialAbove(w, fixed, budget, total, level, trial);
      StillCapped(w, fixed, cap, level, trial);
      level, levels := trial, levels + [trial];
      var after := Fix(w, fixed, cap, trial);
      if after == fixed {
        shares := Filling(w, fixed, cap, trial);
        LastRound(w, fixed, cap, trial, shares);
        return;
      }
      FixFrees(w, fixed, cap, trial);
      FixDrops(w, fixed, cap, trial);
      CappedMore(w, fixed, cap, trial);
      fixed := after;
      live := LiveCount(w, fixed);
    }
    shares := Filling(w, fixed, cap, 0.0);
    AllCapped(w, fixed, cap, level, shares);
  }

  /** The shares when the fixed slots have the cap and the live ones their proportion. */
  function Filling(w: seq<real>, fixed: seq<bool>, cap: real, level: real): (r: seq<real>)
    requires |w| == |fixed|
    ensures |r| == |w| && forall k :: 0 <= k < |w| ==>
      r[k] == if fixed[k] then cap else if w[k] > 0.0 then level * w[k] else 0.0
  {
    seq(|w|, k requires 0 <= k < |w| => if fixed[k] then cap else if w[k] > 0.0 then level * w[k] else 0.0)
  }

  lemma TrialAbove(w: seq<real>, fixed: seq<bool>, budget: real, total: real, level: real, trial: real)
    requires |w| == |fixed| && total == LiveSum(w, fixed) > 0.0 && budget > Taken(w, fixed, level)
    requires trial == budget / total && level >= 0.0
    ensures trial > level && budget == Taken(w, fixed, trial)
  {
    TakenIs(w, fixed, level);
    TakenIs(w, fixed, trial);
    Below(level, trial, total);
  }

  lemma Below(x: real, y: real, t: real)
    requires t > 0.0 && x * t < y * t
    ensures x < y
  {
    assert (y - x) * t > 0.0;
  }

  lemma {:induction false} NoneFixed(w: seq<real>, fixed: seq<bool>, cap: real)
    requires |w| == |fixed| && forall k :: 0 <= k < |fixed| ==> !fixed[k]
    ensures FixedSum(fixed, cap) == 0.0 && Taken(w, fixed, 0.0) == 0.0
  {
    if fixed != [] {
      NoneFixed(w[..|w| - 1], fixed[..|fixed| - 1], cap);
    }
  }

  lemma CappedMore(w: seq<real>, fixed: seq<bool>, cap: real, level: real)
    requires |w| == |fixed| && forall k :: 0 <= k < |w| && fixed[k] ==> w[k] > 0.0 && level * w[k] > cap
    ensures Capped(w, Fix(w, fixed, cap, level), cap, level)
  {}

  /** A level above one at which a slot is capped caps it as well. */
  lemma StillCapped(w: seq<real>, fixed: seq<bool>, cap: real, level: real, higher: real)
    requires Capped(w, fixed, cap, level) && level <= higher
    ensures Capped(w, fixed, cap, higher)
  {
    forall k | 0 <= k < |w| && fixed[k]
      ensures higher * w[k] > cap
    {
      assert (higher - level) * w[k] >= 0.0;
    }
  }

  lemma {:induction false} FillingSum(w: seq<real>, fixed: seq<bool>, cap: real, level: real)
    requires |w| == |fixed|
    ensures Sum(Filling(w, fixed, cap, level)) == FixedSum(fixed, cap) + Taken(w, fixed, level)
  {
    if w != [] {
      var n := |w| - 1;
      FillingSum(w[..n], fixed[..n], cap, level);
      var r, front := Filling(w, fixed, cap, level), Filling(w[..n], fixed[..n], cap, level);
      forall k | 0 <= k < n
        ensures r[k] == front[k]
      {
        assert w[..n][k] == w[k] && fixed[..n][k] == fixed[k];
      }
      assert r[..n] == front;
    }
  }

  /** A cap for every positive weight. */
  function CapSum(w: seq<real>, cap: real): real {
    if w == [] then 0.0 else CapSum(w[..|w| - 1], cap) + if w[|w| - 1] > 0.0 then cap else 0.0
  }

  lemma {:induction false} CapSumIs(w: seq<real>, cap: real)
    ensures CapSum(w, cap) == cap * Positive(w) as real
  {
    if w != [] {
      var n := |w| - 1;
      CapSumIs(w[..n], cap);
      Distributes(cap, Positive(w[..n]) as real, 1.0);
    }
  }

  lemma {:induction false} SumWithinCap(w: seq<real>, cap: real, shares: seq<real>)
    requires |shares| == |w| && forall k :: 0 <= k < |w| ==> shares[k] <= if w[k] > 0.0 then cap else 0.0
    ensures Sum(shares) <= CapSum(w, cap)
  {
    if w != [] {
      SumWithinCap(w[..|w| - 1], cap, shares[..|w| - 1]);
    }
  }

  lemma {:induction false} SumAtCap(w: seq<real>, cap: real, shares: seq<real>)
    requires |shares| == |w| && forall k :: 0 <= k < |w| ==> shares[k] == if w[k] > 0.0 then cap else 0.0
    ensures Sum(shares) == CapSum(w, cap)
  {
    if w != [] {
      SumAtCap(w[..|w| - 1], cap, shares[..|w| - 1]);
    }
  }

  /** No live slot is over: the rest of the budget goes out in proportion. */
  lemma LastRound(w: seq<real>, fixed: seq<bool>, cap: real, level: real, shares: seq<real>)
    requires |w| == |fixed| && cap > 0.0 && level > 0.0 && Capped(w, fixed, cap, level)
    requires Budget(fixed, cap) == Taken(w, fixed, level) && Fix(w, fixed, cap, level) == fixed
    requires shares == Filling(w, fixed, cap, level)
    ensures Filled(w, cap, shares)
  {
    FillingSum(w, fixed, cap, level);
    FillingLevel(w, fixed, cap, level);
    SumWithinCap(w, cap, shares);
    MakeFilled(w, cap, level, shares);
  }

  lemma MakeFilled(w: seq<real>, cap: real, level: real, shares: seq<real>)
    requires level >= 0.0 && AtLevel(w, cap, level, shares) && Sum(shares) == Min(1.0, CapSum(w, cap))
    ensures Filled(w, cap, shares)
  {
    CapSumIs(w, cap);
  }

  lemma FillingLevel(w: seq<real>, fixed: seq<bool>, cap: real, level: real)
    requires |w| == |fixed| && Capped(w, fixed, cap, level) && Fix(w, fixed, cap, level) == fixed
    ensures AtLevel(w, cap, level, Filling(w, fixed, cap, level))
  {
    var shares := Filling(w, fixed, cap, level);
    forall k | 0 <= k < |w|
      ensures shares[k] == Level(w[k], cap, level)
    {
      assert Fix(w, fixed, cap, level)[k] == fixed[k];
    }
  }

  /** Every slot is fixed: each has the cap, and something of the budget is left. */
  lemma AllCapped(w: seq<real>, fixed: seq<bool>, cap: real, level: real, shares: seq<real>)
    requires |w| == |fixed| && cap > 0.0 && level >= 0.0 && Capped(w, fixed, cap, level) && LiveCount(w, fixed) == 0
    requires Budget(fixed, cap) > Taken(w, fixed, level)
    requires shares == Filling(w, fixed, cap, 0.0)
    ensures Filled(w, cap, shares)
  {
    LiveParts(w, fixed);
    FillingSum(w, fixed, cap, 0.0);
    NoneLive(w, fixed, level);
    NoneLive(w, fixed, 0.0);
    AllAtCap(w, fixed, cap, level);
    SumAtCap(w, cap, shares);
    MakeFilled(w, cap, level, shares);
  }

  lemma {:induction false} NoneLive(w: seq<real>, fixed: seq<bool>, level: real)
    requires |w| == |fixed| && forall k :: 0 <= k < |w| ==> !(w[k] > 0.0 && !fixed[k])
    ensures Taken(w, fixed, level) == 0.0
  {
    if w != [] {
      NoneLive(w[..|w| - 1], fixed[..|w| - 1], level);
    }
  }

  lemma AllAtCap(w: seq<real>, fixed: seq<bool>, cap: real, level: real)
    requires Capped(w, fixed, cap, level) && forall k :: 0 <= k < |w| ==> !(w[k] > 0.0 && !fixed[k])
    ensures AtLevel(w, cap, level, Filling(w, fixed, cap, 0.0))
    ensures forall k :: 0 <= k < |w| ==> Filling(w, fixed, cap, 0.0)[k] == if w[k] > 0.0 then cap else 0.0
  {}

  // ---------------------------------------------------------------- there is only one such filling

  lemma {:induction false} LevelsRise(w: seq<real>, cap: real, low: real, high: real, a: seq<real>, b: seq<real>)
    requires AtLevel(w, cap, low, a) && AtLevel(w, cap, high, b) && low <= high
    ensures Sum(a) <= Sum(b) && (Sum(a) == Sum(b) ==> a == b)
  {
    if w != [] {
      var n := |w| - 1;
      LevelsRise(w[..n], cap, low, high, a[..n], b[..n]);
      if w[n] > 0.0 {
        assert (high - low) * w[n] >= 0.0;
      }
      assert a[n] <= b[n];
      assert a == a[..n] + [a[n]] && b == b[..n] + [b[n]];
    }
  }

  /** The result does not depend on the order of the rounds: only one division meets the definition. */
  lemma OneFilling(w: seq<real>, cap: real, a: seq<real>, b: seq<real>)
    requires Filled(w, cap, a) && Filled(w, cap, b)
    ensures a == b
  {
    var low :| low >= 0.0 && AtLevel(w, cap, low, a);
    var high :| high >= 0.0 && AtLevel(w, cap, high, b);
    if low <= high {
      LevelsRise(w, cap, low, high, a, b);
    } else {
      LevelsRise(w, cap, high, low, b, a);
    }
  }

  // ---------------------------------------------------------------- slots and their members

  predicate Within(g: seq<nat>, n: nat) { forall i :: 0 <= i < |g| ==> g[i] < n }

  function Total(w: seq<real>, g: seq<nat>): real
    requires Within(g, |w|)
  {
    if g == [] then 0.0 else Total(w, g[..|g| - 1]) + w[g[|g| - 1]]
  }

  function Strongest(w: seq<real>, g: seq<nat>): real
    requires g != [] && Within(g, |w|)
  {
    if |g| == 1 then w[g[0]] else Max(Strongest(w, g[..|g| - 1]), w[g[|g| - 1]])
  }

  /** Every version is in one group, once. */
  ghost predicate Partition(groups: seq<seq<nat>>, n: nat) {
    && (forall a :: 0 <= a < |groups| ==> groups[a] != [] && Distinct(groups[a]))
    && (forall a :: 0 <= a < |groups| ==> Within(groups[a], n))
    && (forall a, b, m :: 0 <= a < |groups| && 0 <= b < |groups| && m in groups[a] && m in groups[b] ==> a == b)
    && (forall m: nat :: m < n ==> Covered(groups, m))
  }

  ghost predicate Distinct(g: seq<nat>) { forall i, j :: 0 <= i < j < |g| ==> g[i] != g[j] }

  lemma ComponentsPartition(groups: seq<seq<nat>>, edges: set<Edge>, n: nat)
    requires Components(groups, edges, n)
    ensures Partition(groups, n)
  {
    forall a | 0 <= a < |groups|
      ensures Distinct(groups[a]) && Within(groups[a], n)
    {
      assert Increasing(groups[a]);
      assert forall i :: 0 <= i < |groups[a]| ==> groups[a][i] in groups[a];
    }
    forall a, b, m | 0 <= a < |groups| && 0 <= b < |groups| && m in groups[a] && m in groups[b]
      ensures a == b
    {
      JoinedSelf(edges, m);
    }
  }

  /** A member's part of its slot. */
  function Part(w: seq<real>, g: seq<nat>, slot: real, m: nat): real
    requires m < |w| && Within(g, |w|)
  {
    if Total(w, g) > 0.0 then slot * w[m] / Total(w, g) else 0.0
  }

  ghost predicate SplitUp(groups: seq<seq<nat>>, w: seq<real>, slots: seq<real>, shares: seq<real>)
    requires Partition(groups, |w|)
  {
    && |slots| == |groups| && |shares| == |w|
    && forall a, m :: 0 <= a < |groups| && m in groups[a] ==> shares[m] == Part(w, groups[a], slots[a], m)
  }

  lemma {:induction false} SumUpdated(xs: seq<real>, i: nat, x: real)
    requires i < |xs|
    ensures Sum(xs[i := x]) == Sum(xs) - xs[i] + x
  {
    var n := |xs| - 1;
    if i < n {
      SumUpdated(xs[..n], i, x);
      assert xs[i := x][..n] == xs[..n][i := x];
    } else {
      assert xs[i := x][..n] == xs[..n];
    }
  }

  lemma {:induction false} ZeroSum(xs: seq<real>)
    requires forall i :: 0 <= i < |xs| ==> xs[i] == 0.0
    ensures Sum(xs) == 0.0
  {
    if xs != [] {
      ZeroSum(xs[..|xs| - 1]);
    }
  }

  lemma {:induction false} TotalParts(w: seq<real>, g: seq<nat>)
    requires g != [] && Within(g, |w|) && forall k :: 0 <= k < |w| ==> w[k] >= 0.0
    ensures 0.0 <= Strongest(w, g) <= Total(w, g) && (Total(w, g) > 0.0 <==> Strongest(w, g) > 0.0)
    ensures forall m :: m in g ==> w[m] <= Strongest(w, g)
  {
    var n := |g| - 1;
    if n > 0 {
      TotalParts(w, g[..n]);
      assert g == g[..n] + [g[n]];
    } else {
      assert g[..0] == [];
      assert Total(w, g) == Total(w, []) + w[g[0]];
    }
  }

  /** What the first i members of a group have. */
  function PartSum(w: seq<real>, g: seq<nat>, slot: real, i: nat): real
    requires i <= |g| && Within(g, |w|)
  {
    if i == 0 then 0.0 else PartSum(w, g, slot, i - 1) + Part(w, g, slot, g[i - 1])
  }

  lemma {:induction false} PartSumIs(w: seq<real>, g: seq<nat>, slot: real, i: nat)
    requires i <= |g| && Within(g, |w|) && Total(w, g) > 0.0
    ensures PartSum(w, g, slot, i) == slot * Total(w, g[..i]) / Total(w, g)
  {
    if i > 0 {
      PartSumIs(w, g, slot, i - 1);
      TotalOfMore(w, g, i);
      AddParts(slot, Total(w, g[..i - 1]), w[g[i - 1]], Total(w, g));
    }
  }

  lemma TotalOfMore(w: seq<real>, g: seq<nat>, i: nat)
    requires 0 < i <= |g| && Within(g, |w|)
    ensures Total(w, g[..i]) == Total(w, g[..i - 1]) + w[g[i - 1]]
  {
    assert g[..i][..i - 1] == g[..i - 1] && g[..i][i - 1] == g[i - 1];
  }

  lemma AddParts(slot: real, a: real, b: real, t: real)
    requires t > 0.0
    ensures slot * a / t + slot * b / t == slot * (a + b) / t
  {
    Distributes(slot, a, b);
  }

  lemma {:induction false} NoParts(w: seq<real>, g: seq<nat>, slot: real, i: nat)
    requires i <= |g| && Within(g, |w|) && Total(w, g) <= 0.0
    ensures PartSum(w, g, slot, i) == 0.0
  {
    if i > 0 {
      NoParts(w, g, slot, i - 1);
    }
  }

  /** The parts of a group add up to its slot. */
  lemma WholeGroup(w: seq<real>, g: seq<nat>, slot: real)
    requires Within(g, |w|)
    requires Total(w, g) <= 0.0 ==> slot == 0.0
    ensures PartSum(w, g, slot, |g|) == slot
  {
    if Total(w, g) > 0.0 {
      PartSumIs(w, g, slot, |g|);
      assert g[..|g|] == g;
      Whole(slot, Total(w, g));
    } else {
      NoParts(w, g, slot, |g|);
    }
  }

  lemma Whole(x: real, t: real)
    requires t > 0.0
    ensures x * t / t == x
  {}

  /** Give every member its part of the slot. */
  method Split(groups: seq<seq<nat>>, w: seq<real>, slots: seq<real>) returns (shares: seq<real>)
    requires Partition(groups, |w|) && |slots| == |groups|
    requires forall a :: 0 <= a < |groups| && Total(w, groups[a]) <= 0.0 ==> slots[a] == 0.0
    ensures SplitUp(groups, w, slots, shares) && Sum(shares) == Sum(slots)
  {
    shares := seq(|w|, (_: int) => 0.0);
    ZeroSum(shares);
    for a := 0 to |groups|
      invariant |shares| == |w| && Sum(shares) == Sum(slots[..a])
      invariant forall b, m :: 0 <= b < a && m in groups[b] ==> shares[m] == Part(w, groups[b], slots[b], m)
      invariant forall b, m :: a <= b < |groups| && m in groups[b] ==> shares[m] == 0.0
    {
      shares := SplitOne(groups, w, slots, a, shares);
      WholeGroup(w, groups[a], slots[a]);
      assert slots[..a + 1][..a] == slots[..a];
    }
    assert slots[..|groups|] == slots;
  }

  method SplitOne(groups: seq<seq<nat>>, w: seq<real>, slots: seq<real>, a: nat, before: seq<real>)
    returns (shares: seq<real>)
    requires Partition(groups, |w|) && |slots| == |groups| && a < |groups| && |before| == |w|
    requires forall m :: m in groups[a] ==> before[m] == 0.0
    ensures |shares| == |w| && Sum(shares) == Sum(before) + PartSum(w, groups[a], slots[a], |groups[a]|)
    ensures forall m :: m in groups[a] ==> shares[m] == Part(w, groups[a], slots[a], m)
    ensures forall m: nat :: m < |w| && m !in groups[a] ==> shares[m] == before[m]
  {
    var g := groups[a];
    shares := before;
    for i := 0 to |g|
      invariant |shares| == |w| && Sum(shares) == Sum(before) + PartSum(w, g, slots[a], i)
      invariant forall k :: 0 <= k < i ==> shares[g[k]] == Part(w, g, slots[a], g[k])
      invariant forall k :: i <= k < |g| ==> shares[g[k]] == 0.0
      invariant forall m: nat :: m < |w| && m !in g ==> shares[m] == before[m]
    {
      SumUpdated(shares, g[i], Part(w, g, slots[a], g[i]));
      assert Distinct(g);
      shares := shares[g[i] := Part(w, g, slots[a], g[i])];
    }
  }

  function SlotWeights(groups: seq<seq<nat>>, w: seq<real>): (r: seq<real>)
    requires Partition(groups, |w|)
    ensures |r| == |groups| && forall a :: 0 <= a < |groups| ==> r[a] == Strongest(w, groups[a])
  {
    seq(|groups|, a requires 0 <= a < |groups| => Strongest(w, groups[a]))
  }

  /** Shares of the budget for versions with these (non-negative) weights: every cluster of correlated versions
      has the filled share of one slot that weighs as its strongest member, split in proportion. */
  method AllocateShares(w: seq<real>, linked: Links, cap: real)
    returns (shares: seq<real>, groups: seq<seq<nat>>, slots: seq<real>)
    requires cap > 0.0 && forall k :: 0 <= k < |w| ==> w[k] >= 0.0
    ensures Components(groups, AllPairs(linked, |w|), |w|) && Partition(groups, |w|)
    ensures Filled(SlotWeights(groups, w), cap, slots)
    ensures SplitUp(groups, w, slots, shares) && Sum(shares) == Sum(slots)
  {
    groups := FindClusters(|w|, linked);
    ComponentsPartition(groups, AllPairs(linked, |w|), |w|);
    ghost var levels;
    slots, levels := CappedShares(SlotWeights(groups, w), cap);
    forall a | 0 <= a < |groups| && Total(w, groups[a]) <= 0.0
      ensures slots[a] == 0.0
    {
      TotalParts(w, groups[a]);
    }
    shares := Split(groups, w, slots);
  }

  /** What a cluster has together. */
  function GroupShare(shares: seq<real>, g: seq<nat>): real
    requires Within(g, |shares|)
  {
    Total(shares, g)
  }

  lemma {:induction false} GroupIsParts(shares: seq<real>, w: seq<real>, g: seq<nat>, slot: real, i: nat)
    requires i <= |g| && |shares| == |w| && Within(g, |w|) && forall m :: m in g ==> shares[m] == Part(w, g, slot, m)
    ensures GroupShare(shares, g[..i]) == PartSum(w, g, slot, i)
  {
    if i > 0 {
      GroupIsParts(shares, w, g, slot, i - 1);
      assert g[..i][..i - 1] == g[..i - 1] && g[..i][i - 1] == g[i - 1];
    }
  }

  /** No cluster has more than the cap, no version less than nothing, and all together no more than the budget. */
  lemma ClustersWithinCap(w: seq<real>, cap: real, groups: seq<seq<nat>>, slots: seq<real>, shares: seq<real>)
    requires cap > 0.0 && (forall k :: 0 <= k < |w| ==> w[k] >= 0.0) && Partition(groups, |w|)
    requires Filled(SlotWeights(groups, w), cap, slots) && SplitUp(groups, w, slots, shares)
    requires Sum(shares) == Sum(slots)
    ensures forall a :: 0 <= a < |groups| ==> 0.0 <= GroupShare(shares, groups[a]) <= cap
    ensures forall k :: 0 <= k < |shares| ==> shares[k] >= 0.0
    ensures Sum(shares) <= 1.0
  {
    FilledSum(SlotWeights(groups, w), cap, slots);
    forall a: nat | a < |groups|
      ensures 0.0 <= GroupShare(shares, groups[a]) <= cap
    {
      GroupInCap(w, cap, groups, slots, shares, a);
    }
    forall k: nat | k < |shares|
      ensures shares[k] >= 0.0
    {
      assert Covered(groups, k);
      var a :| 0 <= a < |groups| && k in groups[a];
      SlotInCap(SlotWeights(groups, w), cap, slots, a);
      PartSign(w, groups[a], slots[a], k);
    }
  }

  lemma FilledSum(w: seq<real>, cap: real, shares: seq<real>)
    requires Filled(w, cap, shares)
    ensures Sum(shares) <= 1.0
  {}

  lemma GroupInCap(w: seq<real>, cap: real, groups: seq<seq<nat>>, slots: seq<real>, shares: seq<real>, a: nat)
    requires cap > 0.0 && (forall k :: 0 <= k < |w| ==> w[k] >= 0.0) && Partition(groups, |w|) && a < |groups|
    requires Filled(SlotWeights(groups, w), cap, slots) && SplitUp(groups, w, slots, shares)
    ensures GroupShare(shares, groups[a]) == slots[a] && 0.0 <= slots[a] <= cap
  {
    var g := groups[a];
    SlotInCap(SlotWeights(groups, w), cap, slots, a);
    TotalParts(w, g);
    WholeGroup(w, g, slots[a]);
    GroupIsParts(shares, w, g, slots[a], |g|);
    assert g[..|g|] == g;
  }

  lemma SlotInCap(w: seq<real>, cap: real, slots: seq<real>, a: nat)
    requires cap > 0.0 && Filled(w, cap, slots) && a < |w|
    ensures |slots| == |w| && 0.0 <= slots[a] <= cap && (w[a] <= 0.0 ==> slots[a] == 0.0)
  {
    var level :| level >= 0.0 && AtLevel(w, cap, level, slots);
    if w[a] > 0.0 {
      assert level * w[a] >= 0.0;
    }
  }

  lemma PartSign(w: seq<real>, g: seq<nat>, slot: real, m: nat)
    requires m < |w| && Within(g, |w|) && w[m] >= 0.0 && slot >= 0.0
    ensures Part(w, g, slot, m) >= 0.0
  {
    if Total(w, g) > 0.0 {
      Quotient(slot, w[m], Total(w, g));
    }
  }

  lemma Quotient(x: real, y: real, t: real)
    requires x >= 0.0 && y >= 0.0 && t > 0.0
    ensures x * y / t >= 0.0
  {
    assert x * y >= 0.0;
  }
}
