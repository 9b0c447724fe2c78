/** The fill simulator with its state updated in place. It jumps from event to event; its contract says
    that it leaves exactly what the plain simulator of SimModel leaves. */
module SimBroker {
  import opened Types
  import opened SimModel
  import opened BrokerModel

  // ---------------------------------------------------------------- numpy's searches

  /** The first index in [lo, hi) whose bar satisfies `hit` (numpy: argmax of a mask). */
  function First(bars: seq<Bar>, hit: Bar -> bool, lo: nat, hi: nat): (r: Option<nat>)
    requires hi <= |bars|
    ensures r.None? ==> forall j :: lo <= j < hi ==> !hit(bars[j])
    ensures r.Some? ==> lo <= r.value < hi && hit(bars[r.value]) && forall j :: lo <= j < r.value ==> !hit(bars[j])
    decreases hi - lo
  {
    if lo >= hi then None else if hit(bars[lo]) then Some(lo) else First(bars, hit, lo + 1, hi)
  }

  lemma QuietBar(c: Costs, bar: Bar, i: nat, b: Book)
    requires !Eventful(c, bar, b)
    ensures ProcessBar(c, bar, i, b) == b
  {
    assert b.(market := []) == b;
    QuietPending(c, bar, i, b, b.pending);
    QuietExits(c, bar, i, b, b.positions);
  }

  lemma {:induction false} QuietPending(c: Costs, bar: Bar, i: nat, b: Book, os: seq<PendingOrder>)
    requires forall o :: o in os ==> !Expired(bar, o) && !PendingTriggers(c, bar, o)
    ensures Unexpired(bar, os) == os
    ensures TriggerOrders(c, bar, i, b, os) == b
    decreases |os|
  {
    if os != [] {
      assert os[0] in os;
      QuietPending(c, bar, i, b, os[1..]);
    }
  }

  lemma {:induction false} QuietExits(c: Costs, bar: Bar, i: nat, b: Book, ps: seq<Position>)
    requires forall p :: p in ps ==> !ExitTriggers(bar, p)
    ensures CheckExits(c, bar, i, b, ps) == b
    decreases |ps|
  {
    if ps != [] {
      assert ps[0] in ps;
      QuietExits(c, bar, i, b, ps[1..]);
    }
  }

  /** Skipping a stretch in which nothing happens changes nothing. */
  lemma {:induction false} SkipQuiet(c: Costs, bars: seq<Bar>, b: Book, lo: nat, mid: nat, hi: nat)
    requires lo <= mid <= hi <= |bars|
    requires forall j :: lo <= j < mid ==> !Eventful(c, bars[j], b)
    ensures Scan(c, bars, b, lo, hi) == Scan(c, bars, b, mid, hi)
    decreases mid - lo
  {
    if lo < mid {
      QuietBar(c, bars[lo], lo, b);
      SkipQuiet(c, bars, b, lo + 1, mid, hi);
    }
  }

  ghost predicate NoPendingEvent(c: Costs, bars: seq<Bar>, os: seq<PendingOrder>, lo: nat, hi: nat)
    requires hi <= |bars|
  {
    forall o, j :: o in os && lo <= j < hi ==> !Expired(bars[j], o) && !PendingTriggers(c, bars[j], o)
  }

  lemma OneMoreOrder(c: Costs, bars: seq<Bar>, os: seq<PendingOrder>, n: nat, lo: nat, before: nat, hi: nat)
    requires n < |os| && hi <= before <= |bars|
    requires NoPendingEvent(c, bars, os[..n], lo, before) && NoPendingEvent(c, bars, [os[n]], lo, hi)
    ensures NoPendingEvent(c, bars, os[..n + 1], lo, hi)
  {
    assert os[..n + 1] == os[..n] + [os[n]];
    assert os[n] in [os[n]];
  }

  ghost predicate NoExitEvent(bars: seq<Bar>, ps: seq<Position>, lo: nat, hi: nat)
    requires hi <= |bars|
  {
    forall p, j :: p in ps && lo <= j < hi ==> !ExitTriggers(bars[j], p)
  }

  /** A bar index worth stopping at, if any; a waiting market order makes it the very first bar. */
  ghost predicate Candidate(c: Costs, bars: seq<Bar>, b: Book, lo: nat, hi: nat, best: Option<nat>)
    requires hi <= |bars|
  {
    && (best.Some? ==> lo <= best.value < hi && Eventful(c, bars[best.value], b))
    && (b.market != [] ==> best == Some(lo))
  }

  ghost function Until(best: Option<nat>, hi: nat): nat { if best.Some? then best.value else hi }

  lemma StillMerged(s: Broker, before: Broker, after: Broker, k: nat)
    requires k < |s.market| == |s.pending| == |s.positions|
    requires k < |before.market| == |before.pending| == |before.positions|
    requires k < |after.market| == |after.pending| == |after.positions|
    requires before == Merge(s, k, Focus(before, k)) && after == Merge(before, k, Focus(after, k))
    ensures after == Merge(s, k, Focus(after, k))
  {
    MergeTwice(s, k, Focus(before, k), Focus(after, k));
  }

  class SimBroker {
    const symbols: seq<SymbolData>
    var balance: real
    var pending: seq<seq<PendingOrder>>
    var market: seq<seq<MarketOrder>>
    var positions: seq<seq<Position>>
    var trades: seq<Trade>
    var fillsOut: seq<Fill>
    var rejections: seq<Rejection>
    var lastIdx: seq<int>
    var lastNum: nat

    ghost function State(): Broker
      reads this
    {
      Broker(market, pending, positions, lastIdx, Account(balance, trades, fillsOut, rejections, lastNum))
    }

    ghost predicate Valid()
      reads this
    {
      && Shaped(symbols, State())
      && forall k :: 0 <= k < |symbols| ==> Ascending(symbols[k].bars)
    }

    constructor (symbols: seq<SymbolData>, balance: real)
      requires forall k :: 0 <= k < |symbols| ==> Ascending(symbols[k].bars)
      ensures Valid() && this.symbols == symbols
      ensures State() == Broker(
        seq(|symbols|, (_: int) => []), seq(|symbols|, (_: int) => []), seq(|symbols|, (_: int) => []),
        seq(|symbols|, (_: int) => -1), Account(balance, [], [], [], 0))
    {
      this.symbols := symbols;
      this.balance := balance;
      pending, market, positions :=
        seq(|symbols|, (_: int) => []), seq(|symbols|, (_: int) => []), seq(|symbols|, (_: int) => []);
      trades, fillsOut, rejections := [], [], [];
      lastIdx, lastNum := seq(|symbols|, (_: int) => -1), 0;
    }

    method Open(k: nat, s: Signal, lots: real, px: real, i: nat) returns (created: Option<Position>)
      requires Valid() && k < |symbols| && i < |symbols[k].bars|
      modifies this
      ensures Valid()
      ensures State() == Merge(old(State()), k,
        SimModel.Open(symbols[k].costs, symbols[k].bars[i], i, Focus(old(State()), k), s, lots, px))
      ensures created == if BeyondStop(s, px) then None
        else Some(SimModel.Opened(symbols[k].costs, symbols[k].bars[i], i, Focus(old(State()), k), s, lots, px))
    {
      var c, bar := symbols[k].costs, symbols[k].bars[i];
      if BeyondStop(s, px) {
        MergeTwice(State(), k, Focus(State(), k), Focus(State(), k));
        rejections := rejections + [Rejection(bar.openTime, EntryOf, s.id, "fill price beyond stop")];
        return None;
      }
      MergeTwice(State(), k, Focus(State(), k), Focus(State(), k));
      var commission := c.commissionPerLotSide * lots;
      balance := balance - commission;
      lastNum := lastNum + 1;
      var p := Position(s, lots, px, i, bar.openTime, s.stopPrice, RiskOf(c, s, px, lots), commission, 0.0, lastNum);
      positions := positions[k := positions[k] + [p]];
      fillsOut := fillsOut + [Fill(s, EntryFill, px, lots, bar.openTime)];
      assert market == market[k := market[k]] && pending == pending[k := pending[k]];
      assert p == SimModel.Opened(c, bar, i, Focus(old(State()), k), s, lots, px);
      return Some(p);
    }

    method Close(k: nat, p: Position, px: real, i: nat, reason: ExitReason)
      requires Valid() && k < |symbols| && i < |symbols[k].bars|
      modifies this
      ensures Valid()
      ensures State() == Merge(old(State()), k,
        SimModel.Close(symbols[k].costs, symbols[k].bars[i], i, Focus(old(State()), k), p, px, reason))
    {
      MergeTwice(State(), k, Focus(State(), k), Focus(State(), k));
      var c, bar := symbols[k].costs, symbols[k].bars[i];
      positions := positions[k := Remove(positions[k], p)];
      var t := Closed(c, bar, i, p, px, reason);
      balance := balance + (t.gross - c.commissionPerLotSide * p.lots);
      trades := trades + [t];
      fillsOut := fillsOut + [Fill(p.signal, ExitFill(reason), px, p.lots, t.exitTime)];
    }

    method CheckExit(k: nat, p: Position, i: nat, allowTarget: bool)
      requires Valid() && k < |symbols| && i < |symbols[k].bars|
      modifies this
      ensures Valid()
      ensures State() == Merge(old(State()), k,
        SimModel.CheckExit(symbols[k].costs, symbols[k].bars[i], i, Focus(old(State()), k), p, allowTarget))
    {
      MergeTwice(State(), k, Focus(State(), k), Focus(State(), k));
      if p !in positions[k] {
        return;
      }
      var x := ExitPrice(symbols[k].bars[i], p, i, allowTarget);
      if x.Some? {
        Close(k, p, x.value.0, i, x.value.1);
      }
    }

    /** One bar of one symbol: market orders at the open, expiries, exits, pending triggers. */
    method ProcessBar(k: nat, i: nat)
      requires Valid() && k < |symbols| && i < |symbols[k].bars|
      modifies this
      ensures Valid()
      ensures State() == Merge(old(State()), k,
        SimModel.ProcessBar(symbols[k].costs, symbols[k].bars[i], i, Focus(old(State()), k)))
    {
      ghost var s0 := State();
      ghost var b0 := Focus(s0, k);
      var c, bar := symbols[k].costs, symbols[k].bars[i];
      FillMarketOrders(k, i);
      ghost var b1 := FillMarket(c, bar, i, b0.(market := []), b0.market);
      MergeTwice(s0, k, b1, b1.(pending := Unexpired(bar, b1.pending)));
      pending := pending[k := Unexpired(bar, pending[k])];
      ghost var b2 := AfterMarket(c, bar, i, b0);
      assert State() == Merge(s0, k, b2);
      CheckExits(k, i);
      ghost var b3 := AfterExits(c, bar, i, b0);
      MergeTwice(s0, k, b2, b3);
      assert State() == Merge(s0, k, b3);
      TriggerOrders(k, i);
      MergeTwice(s0, k, b3, SimModel.ProcessBar(c, bar, i, b0));
    }

    method FillMarketOrders(k: nat, i: nat)
      requires Valid() && k < |symbols| && i < |symbols[k].bars|
      modifies this
      ensures Valid()
      ensures State() == Merge(old(State()), k,
        FillMarket(symbols[k].costs, symbols[k].bars[i], i,
          Focus(old(State()), k).(market := []), Focus(old(State()), k).market))
    {
      ghost var s0 := State();
      ghost var b0 := Focus(s0, k);
      var c, bar := symbols[k].costs, symbols[k].bars[i];
      var orders := market[k];
      market := market[k := []];
      MergeTwice(s0, k, b0, b0.(market := []));
      for j := 0 to |orders|
        invariant Valid()
        invariant State() == Merge(s0, k, Focus(State(), k))
        invariant FillMarket(c, bar, i, Focus(State(), k), orders[j..])
          == FillMarket(c, bar, i, b0.(market := []), orders)
      {
        ghost var before := State();
        ghost var bj := Focus(before, k);
        assert orders[j..][0] == orders[j] && orders[j..][1..] == orders[j + 1..];
        FillOne(k, i, orders[j]);
        MergeTwice(before, k, FillMarketOrder(c, bar, i, bj, orders[j]), bj);
        MergeTwice(s0, k, bj, FillMarketOrder(c, bar, i, bj, orders[j]));
      }
    }

    method FillOne(k: nat, i: nat, order: MarketOrder)
      requires Valid() && k < |symbols| && i < |symbols[k].bars|
      modifies this
      ensures Valid()
      ensures State() == Merge(old(State()), k,
        FillMarketOrder(symbols[k].costs, symbols[k].bars[i], i, Focus(old(State()), k), order))
    {
      var bar := symbols[k].bars[i];
      match order {
        case Entry(_, s, lots) =>
          var created := Open(k, s, lots, if s.side == Buy then bar.AskO() + bar.slip else bar.bidO - bar.slip, i);
        case Exit(_, id, reason) =>
          var q := FindPosition(positions[k], id);
          if q.Some? {
            var p := q.value;
            Close(k, p, if p.Side() == Buy then bar.bidO - bar.slip else bar.AskO() + bar.slip, i, reason);
          } else {
            MergeTwice(State(), k, Focus(State(), k), Focus(State(), k));
          }
      }
    }

    method CheckExits(k: nat, i: nat)
      requires Valid() && k < |symbols| && i < |symbols[k].bars|
      modifies this
      ensures Valid()
      ensures State() == Merge(old(State()), k,
        SimModel.CheckExits(symbols[k].costs, symbols[k].bars[i], i, Focus(old(State()), k),
          Focus(old(State()), k).positions))
    {
      ghost var s0 := State();
      ghost var b0 := Focus(s0, k);
      var c, bar := symbols[k].costs, symbols[k].bars[i];
      var ps := positions[k];
      MergeTwice(s0, k, b0, b0);
      for j := 0 to |ps|
        invariant Valid()
        invariant State() == Merge(s0, k, Focus(State(), k))
        invariant SimModel.CheckExits(c, bar, i, Focus(State(), k), ps[j..]) == SimModel.CheckExits(c, bar, i, b0, ps)
      {
        ghost var before := State();
        ghost var bj := Focus(before, k);
        assert ps[j..][0] == ps[j] && ps[j..][1..] == ps[j + 1..];
        CheckExit(k, ps[j], i, true);
        MergeTwice(before, k, SimModel.CheckExit(c, bar, i, bj, ps[j], true), bj);
        MergeTwice(s0, k, bj, SimModel.CheckExit(c, bar, i, bj, ps[j], true));
      }
    }

    method TriggerOrders(k: nat, i: nat)
      requires Valid() && k < |symbols| && i < |symbols[k].bars|
      modifies this
      ensures Valid()
      ensures State() == Merge(old(State()), k,
        SimModel.TriggerOrders(symbols[k].costs, symbols[k].bars[i], i, Focus(old(State()), k),
          Focus(old(State()), k).pending))
    {
      ghost var s0 := State();
      ghost var b0 := Focus(s0, k);
      var c, bar := symbols[k].costs, symbols[k].bars[i];
      var orders := pending[k];
      MergeTwice(s0, k, b0, b0);
      for j := 0 to |orders|
        invariant Valid()
        invariant State() == Merge(s0, k, Focus(State(), k))
        invariant SimModel.TriggerOrders(c, bar, i, Focus(State(), k), orders[j..])
          == SimModel.TriggerOrders(c, bar, i, b0, orders)
      {
        ghost var before := State();
        ghost var bj := Focus(before, k);
        assert orders[j..][0] == orders[j] && orders[j..][1..] == orders[j + 1..];
        TriggerOrder(k, orders[j], i);
        MergeTwice(before, k, SimModel.TriggerOrder(c, bar, i, bj, orders[j]), bj);
        MergeTwice(s0, k, bj, SimModel.TriggerOrder(c, bar, i, bj, orders[j]));
      }
    }

    method TriggerOrder(k: nat, o: PendingOrder, i: nat)
      requires Valid() && k < |symbols| && i < |symbols[k].bars|
      modifies this
      ensures Valid()
      ensures State() == Merge(old(State()), k,
        SimModel.TriggerOrder(symbols[k].costs, symbols[k].bars[i], i, Focus(old(State()), k), o))
    {
      ghost var s0 := State();
      ghost var b0 := Focus(s0, k);
      var c, bar := symbols[k].costs, symbols[k].bars[i];
      MergeTwice(s0, k, b0, b0);
      if !PendingTriggers(c, bar, o) {
        return;
      }
      ghost var b1 := b0.(pending := Remove(b0.pending, o));
      pending := pending[k := Remove(pending[k], o)];
      var px := TriggerPrice(bar, o.signal);
      MergeTwice(s0, k, b1, b1);
      var created := Open(k, o.signal, o.lots, px, i);
      ghost var b2 := SimModel.Open(c, bar, i, b1, o.signal, o.lots, px);
      MergeTwice(s0, k, b1, b2);
      if created.Some? {
        CheckExit(k, created.value, i, false);
        MergeTwice(s0, k, b2, b2);
        MergeTwice(s0, k, b2, SimModel.CheckExit(c, bar, i, b2, created.value, false));
      }
    }

    predicate HasActivity(k: nat)
      requires k < |market| == |pending| == |positions|
      reads this
    {
      pending[k] != [] || market[k] != [] || positions[k] != []
    }

    /** The first bar in [lo, hi) that concerns an open item, found item by item in windows that shrink to
        the best candidate so far. */
    method EarliestEvent(k: nat, lo: nat, hi: nat) returns (best: Option<nat>)
      requires Valid() && k < |symbols| && lo < hi <= |symbols[k].bars|
      ensures best.None? ==>
        forall j :: lo <= j < hi ==> !Eventful(symbols[k].costs, symbols[k].bars[j], Focus(State(), k))
      ensures best.Some? ==>
        && lo <= best.value < hi
        && Eventful(symbols[k].costs, symbols[k].bars[best.value], Focus(State(), k))
        && forall j :: lo <= j < best.value ==> !Eventful(symbols[k].costs, symbols[k].bars[j], Focus(State(), k))
    {
      best := if market[k] != [] then Some(lo) else None;
      best := EarliestPending(k, lo, hi, best);
      best := EarliestExit(k, lo, hi, best);
    }

    method EarliestPending(k: nat, lo: nat, hi: nat, start: Option<nat>) returns (best: Option<nat>)
      requires Valid() && k < |symbols| && lo < hi <= |symbols[k].bars|
      requires start == if market[k] != [] then Some(lo) else None
      ensures Candidate(symbols[k].costs, symbols[k].bars, Focus(State(), k), lo, hi, best)
      ensures NoPendingEvent(symbols[k].costs, symbols[k].bars, pending[k], lo, Until(best, hi))
    {
      var c, bars, os := symbols[k].costs, symbols[k].bars, pending[k];
      best := start;
      for n := 0 to |os|
        invariant Candidate(c, bars, Focus(State(), k), lo, hi, best)
        invariant NoPendingEvent(c, bars, os[..n], lo, Until(best, hi))
      {
        ghost var before := best;
        best := EarlierOf(k, lo, hi, os[n], best);
        OneMoreOrder(c, bars, os, n, lo, Until(before, hi), Until(best, hi));
      }
      assert os[..|os|] == os;
    }

    /** The first event of one pending order, if it is before the best so far. */
    method EarlierOf(k: nat, lo: nat, hi: nat, o: PendingOrder, start: Option<nat>) returns (best: Option<nat>)
      requires Valid() && k < |symbols| && lo < hi <= |symbols[k].bars| && o in pending[k]
      requires Candidate(symbols[k].costs, symbols[k].bars, Focus(State(), k), lo, hi, start)
      ensures Candidate(symbols[k].costs, symbols[k].bars, Focus(State(), k), lo, hi, best)
      ensures Until(best, hi) <= Until(start, hi)
      ensures NoPendingEvent(symbols[k].costs, symbols[k].bars, [o], lo, Until(best, hi))
    {
      var c, bars := symbols[k].costs, symbols[k].bars;
      best := start;
      if o.expires.Some? {
        var e := First(bars, (bar: Bar) => bar.openTime >= o.expires.value, lo, hi);
        if e.Some? && (best.None? || e.value < best.value) {
          assert Expired(bars[e.value], o);
          best := e;
        }
      }
      var f := First(bars, (bar: Bar) => PendingTriggers(c, bar, o), lo, if best.None? then hi else best.value + 1);
      if f.Some? && (best.None? || f.value < best.value) {
        assert PendingTriggers(c, bars[f.value], o);
        best := f;
      }
    }

    method EarliestExit(k: nat, lo: nat, hi: nat, start: Option<nat>) returns (best: Option<nat>)
      requires Valid() && k < |symbols| && lo < hi <= |symbols[k].bars|
      requires Candidate(symbols[k].costs, symbols[k].bars, Focus(State(), k), lo, hi, start)
      ensures Candidate(symbols[k].costs, symbols[k].bars, Focus(State(), k), lo, hi, best)
      ensures Until(best, hi) <= Until(start, hi)
      ensures NoExitEvent(symbols[k].bars, positions[k], lo, Until(best, hi))
    {
      var c, bars, ps := symbols[k].costs, symbols[k].bars, positions[k];
      best := start;
      for n := 0 to |ps|
        invariant Candidate(c, bars, Focus(State(), k), lo, hi, best)
        invariant Until(best, hi) <= Until(start, hi)
        invariant NoExitEvent(bars, ps[..n], lo, Until(best, hi))
      {
        var p := ps[n];
        assert ps[..n + 1] == ps[..n] + [p];
        var f := First(bars, (bar: Bar) => ExitTriggers(bar, p), lo, if best.None? then hi else best.value + 1);
        if f.Some? && (best.None? || f.value < best.value) {
          assert ExitTriggers(bars[f.value], p);
          best := f;
        }
      }
      assert ps[..|ps|] == ps;
    }

    /** Process bars [lo, hi) of symbol k by jumping from event to event. The result is what the plain
        simulator leaves after visiting every one of those bars. */
    method Advance(k: nat, lo: nat, hi: nat)
      requires Valid() && k < |symbols| && hi <= |symbols[k].bars|
      modifies this
      ensures Valid()
      ensures State() == Advanced(symbols, old(State()), k, lo, hi)
    {
      ghost var s0 := State();
      if hi <= lo {
        return;
      }
      lastIdx := lastIdx[k := hi - 1];
      ghost var s1 := State();
      ghost var b0 := Focus(s1, k);
      var cur := lo;
      MergeTwice(s1, k, b0, b0);
      while cur < hi && HasActivity(k)
        invariant Valid() && lo <= cur <= hi
        invariant State() == Merge(s1, k, Focus(State(), k))
        invariant Scan(symbols[k].costs, symbols[k].bars, Focus(State(), k), cur, hi)
          == Scan(symbols[k].costs, symbols[k].bars, b0, lo, hi)
        decreases hi - cur
      {
        ghost var before := State();
        cur := NextEvent(k, cur, hi);
        StillMerged(s1, before, State(), k);
      }
      SkipQuiet(symbols[k].costs, symbols[k].bars, Focus(State(), k), cur, hi, hi);
    }

    /** Find the next event and process its bar; the end, if there is none. */
    method NextEvent(k: nat, cur: nat, hi: nat) returns (next: nat)
      requires Valid() && k < |symbols| && cur < hi <= |symbols[k].bars|
      modifies this
      ensures Valid() && cur < next <= hi
      ensures State() == Merge(old(State()), k, Focus(State(), k))
      ensures Scan(symbols[k].costs, symbols[k].bars, Focus(State(), k), next, hi)
        == Scan(symbols[k].costs, symbols[k].bars, Focus(old(State()), k), cur, hi)
    {
      var i := EarliestEvent(k, cur, hi);
      if i.None? {
        SkipQuiet(symbols[k].costs, symbols[k].bars, Focus(State(), k), cur, hi, hi);
        MergeTwice(State(), k, Focus(State(), k), Focus(State(), k));
        return hi;
      }
      JumpTo(k, cur, i.value, hi);
      return i.value + 1;
    }

    /** Process the next bar with an event; the bars before it need no look. */
    method JumpTo(k: nat, cur: nat, i: nat, hi: nat)
      requires Valid() && k < |symbols| && cur <= i < hi <= |symbols[k].bars|
      requires forall j :: cur <= j < i ==> !Eventful(symbols[k].costs, symbols[k].bars[j], Focus(State(), k))
      modifies this
      ensures Valid()
      ensures State() == Merge(old(State()), k, Focus(State(), k))
      ensures Scan(symbols[k].costs, symbols[k].bars, Focus(State(), k), i + 1, hi)
        == Scan(symbols[k].costs, symbols[k].bars, Focus(old(State()), k), cur, hi)
    {
      ghost var before := State();
      ghost var b := Focus(before, k);
      SkipQuiet(symbols[k].costs, symbols[k].bars, b, cur, i, hi);
      ProcessBar(k, i);
      ghost var b' := SimModel.ProcessBar(symbols[k].costs, symbols[k].bars[i], i, b);
      MergeTwice(before, k, b', b);
    }

    // -------------------------------------------------------------- order intake

    method SubmitEntry(s: Signal, lots: real, now: int, tfMinutes: nat)
      requires Valid() && s.symbol < |symbols|
      modifies this
      ensures Valid()
      ensures State() == Submitted(old(State()), s, lots, now, tfMinutes)
    {
      var k := s.symbol;
      MergeTwice(State(), k, Focus(State(), k), Focus(State(), k));
      lastNum := lastNum + 1;
      if s.entryType == EntryType.Market {
        market := market[k := market[k] + [Entry(lastNum, s, lots)]];
        return;
      }
      pending := pending[k := pending[k] + [PendingOrder(s, lots, now, ExpiryOf(s, now, tfMinutes), lastNum)]];
    }

    method Reject(now: int, what: What, id: string, why: string)
      requires Valid()
      modifies this`rejections
      ensures Valid()
      ensures State() == Rejected(old(State()), now, what, id, why)
    {
      rejections := rejections + [Rejection(now, what, id, why)];
    }

    method Cancel(strategyId: string, id: string, now: int) returns (ok: bool)
      requires Valid()
      modifies this
      ensures Valid()
      ensures State() == Cancelled(old(State()), strategyId, id, now)
      ensures ok == FindPending(old(pending), 0, strategyId, id).Some?
    {
      for k := 0 to |pending|
        invariant State() == old(State())
        invariant FindPending(pending, k, strategyId, id) == FindPending(pending, 0, strategyId, id)
      {
        var o := FindOrder(pending[k], strategyId, id);
        if o.Some? {
          pending := pending[k := Remove(pending[k], o.value)];
          return true;
        }
      }
      Reject(now, CancelOf, id, "no such pending order");
      ok := false;
    }

    method RequestClose(strategyId: string, id: string, now: int, reason: ExitReason) returns (ok: bool)
      requires Valid()
      modifies this
      ensures Valid()
      ensures State() == CloseRequest(old(State()), strategyId, id, now, reason)
      ensures ok == FindHeld(old(positions), 0, strategyId, id).Some?
    {
      var h := FindHeld(positions, 0, strategyId, id);
      if h.None? {
        Reject(now, CloseOf, id, "no such position");
        return false;
      }
      var k := h.value.0;
      if !ClosePending(market[k], id) {
        lastNum := lastNum + 1;
        market := market[k := market[k] + [Exit(lastNum, id, reason)]];
      }
      ok := true;
    }

    method ModifyStop(strategyId: string, id: string, newStop: real, now: int) returns (ok: bool)
      requires Valid()
      modifies this
      ensures Valid()
      ensures State() == StopModified(symbols, old(State()), strategyId, id, newStop, now)
      ensures ok <==>
        var h := FindHeld(old(positions), 0, strategyId, id);
        && h.Some?
        && var (k, n) := h.value;
          lastIdx[k] >= 0 && Tightens(old(positions)[k][n], newStop, symbols[k].bars[lastIdx[k]])
    {
      var h := FindHeld(positions, 0, strategyId, id);
      if h.None? {
        Reject(now, ModifyOf, id, "no such position");
        return false;
      }
      var k, n := h.value.0, h.value.1;
      var p, i := positions[k][n], lastIdx[k];
      if i < 0 {
        Reject(now, ModifyOf, id, "no price yet");
        return false;
      }
      if !Tightens(p, newStop, symbols[k].bars[i]) {
        Reject(now, ModifyOf, id, "only tightening stops is allowed");
        return false;
      }
      positions := positions[k := positions[k][n := p.(stop := newStop)]];
      ok := true;
    }

    // -------------------------------------------------------------- account

    /** Hand out the fills recorded so far and start a new list. */
    method TakeFills() returns (fills: seq<Fill>)
      requires Valid()
      modifies this`fillsOut
      ensures Valid()
      ensures fills == old(fillsOut)
      ensures State() == old(State()).(acct := old(State()).acct.(fills := []))
    {
      fills, fillsOut := fillsOut, [];
    }

    method ChargeSwaps(weekday: int)
      requires Valid()
      modifies this
      ensures Valid()
      ensures State() == SwapsCharged(symbols, old(State()), weekday)
    {
      for k := 0 to |symbols|
        invariant Valid()
        invariant SwapsFrom(symbols, State(), weekday, k) == SwapsCharged(symbols, old(State()), weekday)
      {
        if lastIdx[k] >= 0 {
          ChargeSymbol(k, symbols[k].bars[lastIdx[k]].bidC, weekday);
        }
      }
    }

    method ChargeSymbol(k: nat, price: real, weekday: int)
      requires Valid() && k < |symbols|
      modifies this`positions, this`balance
      ensures Valid()
      ensures State() == old(State()).(
        positions := old(positions)[k := WithSwaps(symbols[k].costs, old(positions)[k], price, weekday)],
        acct := old(State()).acct.(
          balance := old(balance) + SwapTotal(symbols[k].costs, old(positions)[k], price, weekday)))
    {
      var c, ps := symbols[k].costs, positions[k];
      var charged: seq<Position> := [];
      for n := 0 to |ps|
        invariant unchanged(`positions) && |charged| == n
        invariant forall m :: 0 <= m < n ==> charged[m] == WithSwap(c, ps[m], price, weekday)
        invariant balance == old(balance) + SwapTotal(c, ps[..n], price, weekday)
      {
        assert ps[..n + 1][..n] == ps[..n];
        var amount := SwapAmount(c, ps[n], price, weekday);
        charged := charged + [ps[n].(swap := ps[n].swap + amount)];
        balance := balance + amount;
      }
      assert ps[..|ps|] == ps;
      assert charged == WithSwaps(c, ps, price, weekday);
      positions := positions[k := charged];
    }

    method CloseAll(byName: seq<nat>, reason: ExitReason)
      requires Valid() && Names(symbols, byName)
      modifies this
      ensures Valid()
      ensures State() == AllClosed(symbols, old(State()), byName, reason)
    {
      ghost var s0 := State();
      for m := 0 to |byName|
        invariant Valid()
        invariant CloseSymbols(symbols, State(), byName[m..], reason) == CloseSymbols(symbols, s0, byName, reason)
      {
        var k := byName[m];
        assert byName[m..][0] == k && byName[m..][1..] == byName[m + 1..];
        if lastIdx[k] >= 0 {
          CloseSymbol(k, lastIdx[k], reason);
        }
      }
      pending := seq(|symbols|, (_: int) => []);
      market := seq(|symbols|, (_: int) => []);
    }

    method CloseSymbol(k: nat, i: nat, reason: ExitReason)
      requires Valid() && k < |symbols| && i < |symbols[k].bars|
      modifies this
      ensures Valid()
      ensures State() == Merge(old(State()), k,
        CloseEach(symbols[k], i, Focus(old(State()), k), Focus(old(State()), k).positions, reason))
    {
      ghost var s0 := State();
      ghost var x0 := Focus(s0, k);
      var d, ps := symbols[k], positions[k];
      MergeTwice(s0, k, x0, x0);
      for n := 0 to |ps|
        invariant Valid()
        invariant State() == Merge(s0, k, Focus(State(), k))
        invariant CloseEach(d, i, Focus(State(), k), ps[n..], reason) == CloseEach(d, i, x0, ps, reason)
      {
        ghost var before := State();
        assert ps[n..][0] == ps[n] && ps[n..][1..] == ps[n + 1..];
        var px := if ps[n].Side() == Buy then d.bars[i].bidC else d.bars[i].AskC();
        Close(k, ps[n], px, i, reason);
        ghost var x := SimModel.Close(d.costs, d.bars[i], i, Focus(before, k), ps[n], px, reason);
        MergeTwice(before, k, x, x);
        MergeTwice(s0, k, Focus(before, k), x);
      }
    }
  }
}
