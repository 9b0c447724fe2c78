/** Risk fractions per version and the lots proposed for a signal. Between rebalances the allocation is frozen;
    the limit of the present stage applies at every reading. */
module Allocator {
  import opened Types
  import opened Ladder
  import opened Clusters
  import opened Shares

  datatype Config = Config(shrinkage: real, cap: real, budget: real, period: int, limit: Stage -> real)

  predicate GoodConfig(cfg: Config) { cfg.shrinkage > 0.0 && cfg.cap > 0.0 && cfg.budget > 0.0 }

  datatype Version = Version(key: string, stage: Stage, trades: nat, sharpeLive: real, sharpeBacktest: real)

  datatype Allocation = Allocation(at: int, keys: seq<string>, shares: seq<real>, fractions: seq<real>)

  predicate Trading(s: Stage) { s == Live || s == Scaled }

  /** The live record counts more the longer it is; a negative weight counts as none. */
  function Weight(v: Version, k: real): (r: real)
    requires k > 0.0
    ensures r >= 0.0
  {
    var n := v.trades as real;
    Max(0.0, n / (n + k) * v.sharpeLive + k / (n + k) * v.sharpeBacktest)
  }

  function Weighted(perf: seq<Version>): (r: seq<Version>)
    ensures forall v :: v in r <==> v in perf && Trading(v.stage)
  {
    if perf == [] then []
    else
      var front := perf[..|perf| - 1];
      assert perf == front + [perf[|perf| - 1]];
      Weighted(front) + if Trading(perf[|perf| - 1].stage) then [perf[|perf| - 1]] else []
  }

  function Keys(vs: seq<Version>): (r: seq<string>)
    ensures |r| == |vs| && forall i :: 0 <= i < |vs| ==> r[i] == vs[i].key
  {
    seq(|vs|, i requires 0 <= i < |vs| => vs[i].key)
  }

  function Weights(vs: seq<Version>, k: real): (r: seq<real>)
    requires k > 0.0
    ensures |r| == |vs| && forall i :: 0 <= i < |vs| ==> r[i] == Weight(vs[i], k)
  {
    seq(|vs|, i requires 0 <= i < |vs| => Weight(vs[i], k))
  }

  ghost predicate DistinctKeys(keys: seq<string>) { forall i, j :: 0 <= i < j < |keys| ==> keys[i] != keys[j] }

  lemma {:induction false} WeightedDistinct(perf: seq<Version>)
    requires DistinctKeys(Keys(perf))
    ensures DistinctKeys(Keys(Weighted(perf)))
  {
    if perf != [] {
      var n := |perf| - 1;
      assert forall i :: 0 <= i < n ==> Keys(perf[..n])[i] == Keys(perf)[i];
      WeightedDistinct(perf[..n]);
      LastIsNew(perf);
      OneMoreKey(Weighted(perf[..n]), perf[n]);
    }
  }

  lemma OneMoreKey(vs: seq<Version>, v: Version)
    requires DistinctKeys(Keys(vs)) && forall w :: w in vs ==> w.key != v.key
    ensures DistinctKeys(Keys(vs + [v]))
  {
    var keys := Keys(vs + [v]);
    forall i, j | 0 <= i < j < |keys|
      ensures keys[i] != keys[j]
    {
      if j < |vs| {
        assert Keys(vs)[i] != Keys(vs)[j];
      } else {
        assert vs[i] in vs;
      }
    }
  }

  lemma LastIsNew(perf: seq<Version>)
    requires DistinctKeys(Keys(perf)) && perf != []
    ensures var n := |perf| - 1; forall v :: v in Weighted(perf[..n]) ==> v.key != perf[n].key
  {
    var n := |perf| - 1;
    forall v | v in Weighted(perf[..n])
      ensures v.key != perf[n].key
    {
      var j :| 0 <= j < n && perf[..n][j] == v;
      assert Keys(perf)[j] != Keys(perf)[n];
    }
  }

  /** A share of the risk budget. */
  function Slice(cfg: Config, share: real): real { share * cfg.budget }

  // ---------------------------------------------------------------- the allocation

  /** What every allocation is: shares of at most the whole budget, and no fraction above its share of it. */
  ghost predicate Sensible(cfg: Config, a: Allocation) {
    && |a.keys| == |a.shares| == |a.fractions|
    && DistinctKeys(a.keys)
    && (forall i :: 0 <= i < |a.shares| ==> a.shares[i] >= 0.0 && a.fractions[i] <= Slice(cfg, a.shares[i]))
    && Sum(a.shares) <= 1.0
  }

  function Fractions(cfg: Config, vs: seq<Version>, shares: seq<real>): (r: seq<real>)
    requires |shares| == |vs|
    ensures |r| == |vs| && forall i :: 0 <= i < |vs| ==> r[i] == Min(Slice(cfg, shares[i]), cfg.limit(vs[i].stage))
  {
    seq(|vs|, i requires 0 <= i < |vs| => Min(Slice(cfg, shares[i]), cfg.limit(vs[i].stage)))
  }

  function Lookup(a: Allocation, key: string, i: nat): real
    requires |a.fractions| == |a.keys|
    decreases |a.keys| - i
  {
    if i >= |a.keys| then 0.0 else if a.keys[i] == key then a.fractions[i] else Lookup(a, key, i + 1)
  }

  /** The per-trade risk of a version in its present stage. */
  function RiskFraction(cfg: Config, current: Option<Allocation>, key: string, stage: Stage): real
    requires current.Some? ==> |current.value.fractions| == |current.value.keys|
  {
    if stage == Micro || stage == DemoOnly then cfg.limit(Micro)
    else if !Trading(stage) || current.None? then 0.0
    else Min(Lookup(current.value, key, 0), cfg.limit(stage))
  }

  lemma {:induction false} LookupFinds(a: Allocation, i: nat, k: nat)
    requires |a.fractions| == |a.keys| && DistinctKeys(a.keys) && i <= k < |a.keys|
    ensures Lookup(a, a.keys[k], i) == a.fractions[k]
    decreases k - i
  {
    if i < k {
      assert a.keys[i] != a.keys[k];
      LookupFinds(a, i + 1, k);
    }
  }

  lemma {:induction false} LookupMisses(a: Allocation, key: string, i: nat)
    requires |a.fractions| == |a.keys| && key !in a.keys
    ensures Lookup(a, key, i) == 0.0
    decreases |a.keys| - i
  {
    if i < |a.keys| {
      LookupMisses(a, key, i + 1);
    }
  }

  /** The fractions of the first n versions, in whatever stages they are now, as far as they are live or scaled. */
  function Committed(cfg: Config, a: Allocation, stageOf: string -> Stage, n: nat): real
    requires |a.fractions| == |a.keys| && n <= |a.keys|
  {
    if n == 0 then 0.0
    else
      var key := a.keys[n - 1];
      Committed(cfg, a, stageOf, n - 1)
      + if Trading(stageOf(key)) then RiskFraction(cfg, Some(a), key, stageOf(key)) else 0.0
  }

  lemma {:induction false} CommittedBelow(cfg: Config, a: Allocation, stageOf: string -> Stage, n: nat)
    requires Sensible(cfg, a) && cfg.budget > 0.0 && n <= |a.keys|
    ensures Committed(cfg, a, stageOf, n) <= Slice(cfg, Sum(a.shares[..n]))
  {
    if n > 0 {
      CommittedBelow(cfg, a, stageOf, n - 1);
      LookupFinds(a, 0, n - 1);
      assert a.shares[..n][..n - 1] == a.shares[..n - 1] && a.shares[..n][n - 1] == a.shares[n - 1];
      SlicesAdd(cfg, Sum(a.shares[..n - 1]), a.shares[n - 1]);
    } else {
      assert a.shares[..0] == [];
    }
  }

  lemma SlicesAdd(cfg: Config, x: real, y: real)
    requires y >= 0.0 && cfg.budget > 0.0
    ensures Slice(cfg, x + y) == Slice(cfg, x) + Slice(cfg, y) && Slice(cfg, y) >= 0.0
  {
    Distributes(cfg.budget, x, y);
    NotNegative(y, cfg.budget);
  }

  lemma NotNegative(x: real, y: real)
    requires x >= 0.0 && y >= 0.0
    ensures x * y >= 0.0
  {}

  /** Whatever has changed stage since the last rebalance, the live and scaled fractions never add up to more
      than the risk budget, and a version the allocation does not know has none. */
  lemma WithinBudget(cfg: Config, a: Allocation, stageOf: string -> Stage)
    requires Sensible(cfg, a) && cfg.budget > 0.0
    ensures Committed(cfg, a, stageOf, |a.keys|) <= cfg.budget
    ensures forall key :: key !in a.keys && Trading(stageOf(key)) ==>
      RiskFraction(cfg, Some(a), key, stageOf(key)) <= 0.0
  {
    CommittedBelow(cfg, a, stageOf, |a.keys|);
    assert a.shares[..|a.keys|] == a.shares;
    AtMostOnce(Sum(a.shares), cfg.budget);
    forall key | key !in a.keys && Trading(stageOf(key))
      ensures RiskFraction(cfg, Some(a), key, stageOf(key)) <= 0.0
    {
      LookupMisses(a, key, 0);
    }
  }

  lemma AtMostOnce(x: real, y: real)
    requires x <= 1.0 && y >= 0.0
    ensures x * y <= y
  {
    assert (1.0 - x) * y >= 0.0;
  }

  class Allocator {
    const cfg: Config
    var current: Option<Allocation>

    ghost predicate Valid()
      reads this
    {
      GoodConfig(cfg) && (current.Some? ==> Sensible(cfg, current.value))
    }

    constructor (cfg: Config)
      requires GoodConfig(cfg)
      ensures Valid() && this.cfg == cfg && current.None?
    {
      this.cfg := cfg;
      current := None;
    }

    predicate Due(now: int)
      reads this
    {
      current.None? || now - current.value.at >= cfg.period
    }

    /** A new allocation when one is due or asked for. `linked` compares the weighted versions by number. */
    method Rebalance(perf: seq<Version>, linked: Links, now: int, force: bool)
      returns (a: Allocation, ghost groups: seq<seq<nat>>, ghost slots: seq<real>)
      requires Valid() && DistinctKeys(Keys(perf))
      modifies this
      ensures Valid() && current == Some(a)
      ensures !force && !old(Due(now)) ==> current == old(current)
      ensures force || old(Due(now)) ==>
        var vs := Weighted(perf);
        var w := Weights(vs, cfg.shrinkage);
        && |a.shares| == |vs| && a == Allocation(now, Keys(vs), a.shares, Fractions(cfg, vs, a.shares))
        && Components(groups, AllPairs(linked, |w|), |w|) && Partition(groups, |w|)
        && Filled(SlotWeights(groups, w), cfg.cap, slots) && SplitUp(groups, w, slots, a.shares)
    {
      groups, slots := [], [];
      if !force && !Due(now) {
        a := current.value;
        return;
      }
      var vs := Weighted(perf);
      var w := Weights(vs, cfg.shrinkage);
      var shares;
      shares, groups, slots := Allocate(w, linked, cfg.cap);
      a := Allocation(now, Keys(vs), shares, Fractions(cfg, vs, shares));
      WeightedDistinct(perf);
      current := Some(a);
    }
  }

  method Allocate(w: seq<real>, linked: Links, cap: real)
    returns (shares: seq<real>, ghost groups: seq<seq<nat>>, ghost slots: seq<real>)
    requires cap > 0.0 && forall k :: 0 <= k < |w| ==> w[k] >= 0.0
    ensures Components(groups, AllPairs(linked, |w|), |w|) && Partition(groups, |w|)
    ensures Filled(SlotWeights(groups, w), cap, slots) && SplitUp(groups, w, slots, shares)
    ensures Sum(shares) <= 1.0 && forall k :: 0 <= k < |shares| ==> shares[k] >= 0.0
  {
    var g, s;
    shares, g, s := AllocateShares(w, linked, cap);
    ClustersWithinCap(w, cap, g, s, shares);
    groups, slots := g, s;
  }

  // ---------------------------------------------------------------- lots

  datatype Instrument = Instrument(lotStep: real, minLot: real, maxLot: real, contractSize: real)

  predicate GoodInstrument(i: Instrument) { i.lotStep > 0.0 && i.minLot > 0.0 && i.contractSize > 0.0 }

  /** The last whole number of steps not above x. */
  function RoundDown(x: real, step: real): real
    requires step > 0.0
  {
    Steps((x / step).Floor, step)
  }

  function Steps(n: int, step: real): real { n as real * step }

  function RiskPerLot(entry: real, stop: real, inst: Instrument, toAccount: real): real {
    Abs(entry - stop) * inst.contractSize * toAccount
  }

  /** Lots for a signal, or None when it gets no budget. */
  function Propose(
    rf: real, stage: Stage, equity: real, entry: real, stop: real, inst: Instrument, toAccount: real): Option<real>
    requires GoodInstrument(inst) && toAccount > 0.0
  {
    if rf <= 0.0 || entry == stop || equity <= 0.0 then None
    else
      PerLotPositive(Abs(entry - stop), inst.contractSize, toAccount);
      var raw := equity * rf / RiskPerLot(entry, stop, inst, toAccount);
      var lots := if stage == DemoOnly then inst.minLot else Min(RoundDown(raw, inst.lotStep), inst.maxLot);
      if lots < inst.minLot then None else Some(lots)
  }

  lemma PerLotPositive(dist: real, size: real, fx: real)
    requires dist > 0.0 && size > 0.0 && fx > 0.0
    ensures dist * size * fx > 0.0
  {
    assert dist * size > 0.0;
  }

  /** Rounding down to a step: not above, and the next step is. */
  lemma RoundedDown(raw: real, step: real)
    requires step > 0.0
    ensures RoundDown(raw, step) <= raw < RoundDown(raw, step) + step
  {
    var q := raw / step;
    var f := q.Floor as real;
    Quotients(raw, step);
    WholeSteps(q, f, step, RoundDown(raw, step), raw);
  }

  lemma WholeSteps(q: real, f: real, step: real, down: real, x: real)
    requires step > 0.0 && f <= q < f + 1.0 && down == f * step && x == q * step
    ensures down <= x < down + step
  {
    Remainder(q, f, step, down, x, q - f, f + 1.0 - q);
  }

  lemma Remainder(q: real, f: real, step: real, down: real, x: real, a: real, b: real)
    requires step > 0.0 && down == f * step && x == q * step && a == q - f >= 0.0 && b == f + 1.0 - q > 0.0
    ensures down <= x < down + step
  {
    var above, below := a * step, b * step;
    Product(a, step);
    Product(b, step);
    assert above >= 0.0 && below > 0.0;
    Expand(q, f, step, down, x, a, b, above, below);
  }

  lemma Product(a: real, b: real)
    requires b > 0.0
    ensures (a >= 0.0 ==> a * b >= 0.0) && (a > 0.0 ==> a * b > 0.0)
  {}

  lemma Expand(q: real, f: real, step: real, down: real, x: real, a: real, b: real, above: real, below: real)
    requires down == f * step && x == q * step && a == q - f && b == f + 1.0 - q
    requires above == a * step && below == b * step
    ensures above == x - down && below == down + step - x
  {}

  lemma Quotients(x: real, t: real)
    requires t > 0.0
    ensures x / t * t == x
  {}

  lemma Times(x: real, y: real, t: real)
    requires t > 0.0
    ensures x <= y ==> x * t <= y * t
    ensures x < y ==> x * t < y * t
  {
    assert x <= y ==> (y - x) * t >= 0.0;
    assert x < y ==> (y - x) * t > 0.0;
  }

  /** Outside the paper stage the money at risk of the proposed lots is at most the version's fraction of equity;
      the lots lie between the minimum and the maximum and, unless they are the maximum, are whole steps and the
      most that fit: a step more does not. */
  lemma ProposalWithinRisk(
    rf: real, stage: Stage, equity: real, entry: real, stop: real, inst: Instrument, toAccount: real)
    requires GoodInstrument(inst) && toAccount > 0.0 && stage != DemoOnly
    requires Propose(rf, stage, equity, entry, stop, inst, toAccount).Some?
    ensures var lots := Propose(rf, stage, equity, entry, stop, inst, toAccount).value;
      var perLot := RiskPerLot(entry, stop, inst, toAccount);
      && lots * perLot <= equity * rf
      && inst.minLot <= lots <= inst.maxLot
      && (lots == inst.maxLot || (lots + inst.lotStep) * perLot > equity * rf)
      && (lots == inst.maxLot || exists n: int :: lots == Steps(n, inst.lotStep))
  {
    var lots := Propose(rf, stage, equity, entry, stop, inst, toAccount).value;
    var perLot := RiskPerLot(entry, stop, inst, toAccount);
    PerLotPositive(Abs(entry - stop), inst.contractSize, toAccount);
    var raw := equity * rf / perLot;
    RoundedDown(raw, inst.lotStep);
    AtRisk(raw, perLot, equity * rf, lots, inst.lotStep);
  }

  lemma AtRisk(raw: real, perLot: real, money: real, lots: real, step: real)
    requires perLot > 0.0 && raw == money / perLot
    ensures lots <= raw ==> lots * perLot <= money
    ensures raw < lots + step ==> (lots + step) * perLot > money
  {
    Quotients(money, perLot);
    Times(lots, raw, perLot);
    Times(raw, lots + step, perLot);
  }
}
