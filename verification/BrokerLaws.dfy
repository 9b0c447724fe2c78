/** Laws of the fill simulator over every run: the account balances exactly, every position has money at
    risk and a stop that only tightens, and a pending entry never takes its profit on its own entry bar. */
module BrokerLaws {
  import opened Types
  import opened SimModel
  import opened BrokerModel

  // ---------------------------------------------------------------- the account of one symbol's book

  function NetSum(ts: seq<Trade>): real {
    if ts == [] then 0.0 else NetSum(ts[..|ts| - 1]) + ts[|ts| - 1].net
  }

  /** What open positions have already moved on the balance: swaps received minus entry commissions. */
  function Carry(ps: seq<Position>): real {
    if ps == [] then 0.0 else (ps[0].swap - ps[0].commission) + Carry(ps[1..])
  }

  lemma {:induction false} CarryAppend(ps: seq<Position>, p: Position)
    ensures Carry(ps + [p]) == Carry(ps) + (p.swap - p.commission)
  {
    if ps != [] {
      assert (ps + [p])[1..] == ps[1..] + [p];
      CarryAppend(ps[1..], p);
    }
  }

  lemma {:induction false} CarryRemove(ps: seq<Position>, p: Position)
    requires p in ps
    ensures Carry(Remove(ps, p)) == Carry(ps) - (p.swap - p.commission)
    ensures forall q :: q in Remove(ps, p) ==> q in ps
  {
    if ps[0] != p {
      CarryRemove(ps[1..], p);
    }
  }

  lemma {:induction false} RemoveKeeps<T>(s: seq<T>, x: T)
    ensures forall y :: y in Remove(s, x) ==> y in s
  {
    if s != [] && s[0] != x {
      RemoveKeeps(s[1..], x);
    }
  }

  lemma NetSumAppend(ts: seq<Trade>, t: Trade)
    ensures NetSum(ts + [t]) == NetSum(ts) + t.net
  {
    assert (ts + [t])[..|ts|] == ts;
  }

  /** Balance that neither closed trades nor open positions explain: the initial balance. */
  function BookDue(b: Book): real { b.acct.balance - NetSum(b.acct.trades) - Carry(b.positions) }

  // ---------------------------------------------------------------- invariants

  predicate GoodCosts(c: Costs) { c.contractSize > 0.0 && c.toAccount > 0.0 }

  predicate StopNoLooser(side: Side, from: real, to: real) { if side == Buy then from <= to else to <= from }

  predicate GoodPosition(p: Position, next: nat, lastNum: nat) {
    && p.lots > 0.0 && p.moneyAtRisk > 0.0
    && p.num <= lastNum && p.entryIdx < next
    && StopNoLooser(p.Side(), p.signal.stopPrice, p.stop)
  }

  /** Money at risk is positive, so the R multiple exists; the target is only taken on the entry bar by a
      market entry. */
  predicate GoodTrade(t: Trade) {
    && t.moneyAtRisk > 0.0
    && t.net == t.gross - t.commission + t.swap
    && t.barsHeld >= 1
    && (t.reason == TargetHit && t.barsHeld == 1 ==> t.signal.entryType == Market)
  }

  predicate GoodMarket(o: MarketOrder) { o.Entry? ==> o.lots > 0.0 && o.signal.entryType == Market }
  predicate GoodPending(o: PendingOrder) { o.lots > 0.0 && o.signal.entryType != Market }

  /** What holds between bars; `next` is the first bar not yet processed. */
  ghost predicate Sound(b: Book, next: nat) {
    && (forall o :: o in b.market ==> GoodMarket(o))
    && (forall o :: o in b.pending ==> GoodPending(o))
    && (forall p :: p in b.positions ==> GoodPosition(p, next, b.acct.lastNum))
    && (forall t :: t in b.acct.trades ==> GoodTrade(t))
  }

  ghost predicate EnteredByMarket(b: Book, i: nat) {
    forall p :: p in b.positions && p.entryIdx == i ==> p.signal.entryType == Market
  }

  /** What every step of the simulator keeps. */
  ghost predicate Kept(b: Book, r: Book) {
    && BookDue(r) == BookDue(b)
    && b.acct.lastNum <= r.acct.lastNum
    && b.acct.trades <= r.acct.trades
    && (forall q :: q in r.positions ==> q in b.positions || q.num > b.acct.lastNum)
  }

  // ---------------------------------------------------------------- one step

  lemma RiskPositive(c: Costs, s: Signal, px: real, lots: real)
    requires GoodCosts(c) && lots > 0.0 && !BeyondStop(s, px)
    ensures RiskOf(c, s, px, lots) > 0.0
  {
    var d := Abs(px - s.stopPrice);
    assert d > 0.0;
    assert d * c.contractSize > 0.0;
    assert d * c.contractSize * lots > 0.0;
  }

  lemma OpenKeeps(c: Costs, bar: Bar, i: nat, b: Book, s: Signal, lots: real, px: real)
    requires GoodCosts(c) && lots > 0.0 && Sound(b, i + 1)
    ensures var r := Open(c, bar, i, b, s, lots, px);
      && Sound(r, i + 1) && Kept(b, r) && r.pending == b.pending && r.market == b.market
      && (EnteredByMarket(b, i) && s.entryType == Market ==> EnteredByMarket(r, i))
  {
    if !BeyondStop(s, px) {
      var p := Opened(c, bar, i, b, s, lots, px);
      RiskPositive(c, s, px, lots);
      CarryAppend(b.positions, p);
      assert GoodPosition(p, i + 1, b.acct.lastNum + 1);
    }
  }

  lemma CloseKeeps(c: Costs, bar: Bar, i: nat, b: Book, p: Position, px: real, reason: ExitReason)
    requires Sound(b, i + 1) && p in b.positions
    requires reason == TargetHit && p.entryIdx == i ==> p.signal.entryType == Market
    ensures var r := Close(c, bar, i, b, p, px, reason);
      && Sound(r, i + 1) && Kept(b, r) && r.pending == b.pending && r.market == b.market
      && (EnteredByMarket(b, i) ==> EnteredByMarket(r, i))
  {
    var t := Closed(c, bar, i, p, px, reason);
    CarryRemove(b.positions, p);
    NetSumAppend(b.acct.trades, t);
    assert GoodTrade(t);
  }

  lemma CheckExitKeeps(c: Costs, bar: Bar, i: nat, b: Book, p: Position, allowTarget: bool)
    requires Sound(b, i + 1) && (allowTarget ==> EnteredByMarket(b, i))
    ensures var r := CheckExit(c, bar, i, b, p, allowTarget);
      && Sound(r, i + 1) && Kept(b, r) && r.pending == b.pending && r.market == b.market
      && (EnteredByMarket(b, i) ==> EnteredByMarket(r, i))
  {
    if p in b.positions {
      var x := ExitPrice(bar, p, i, allowTarget);
      if x.Some? {
        CloseKeeps(c, bar, i, b, p, x.value.0, x.value.1);
      }
    }
  }

  lemma {:induction false} FoundIsHeld(ps: seq<Position>, id: string)
    ensures FindPosition(ps, id).Some? ==> FindPosition(ps, id).value in ps
  {
    if ps != [] && ps[0].Id() != id {
      FoundIsHeld(ps[1..], id);
    }
  }

  lemma {:induction false} FillMarketKeeps(c: Costs, bar: Bar, i: nat, b: Book, os: seq<MarketOrder>)
    requires GoodCosts(c) && Sound(b, i + 1) && EnteredByMarket(b, i) && (forall o :: o in os ==> GoodMarket(o))
    ensures var r := FillMarket(c, bar, i, b, os);
      Sound(r, i + 1) && Kept(b, r) && EnteredByMarket(r, i) && r.pending == b.pending
    decreases |os|
  {
    if os != [] {
      assert GoodMarket(os[0]);
      if os[0].Entry? {
        MarketEntryKeeps(c, bar, i, b, os[0]);
      } else {
        MarketExitKeeps(c, bar, i, b, os[0]);
      }
      FillMarketKeeps(c, bar, i, FillMarketOrder(c, bar, i, b, os[0]), os[1..]);
    }
  }

  lemma MarketEntryKeeps(c: Costs, bar: Bar, i: nat, b: Book, o: MarketOrder)
    requires GoodCosts(c) && Sound(b, i + 1) && EnteredByMarket(b, i) && o.Entry? && GoodMarket(o)
    ensures var r := FillMarketOrder(c, bar, i, b, o);
      Sound(r, i + 1) && Kept(b, r) && EnteredByMarket(r, i) && r.pending == b.pending
  {
    OpenKeeps(c, bar, i, b, o.signal, o.lots,
      if o.signal.side == Buy then bar.AskO() + bar.slip else bar.bidO - bar.slip);
  }

  lemma MarketExitKeeps(c: Costs, bar: Bar, i: nat, b: Book, o: MarketOrder)
    requires Sound(b, i + 1) && EnteredByMarket(b, i) && o.Exit?
    ensures var r := FillMarketOrder(c, bar, i, b, o);
      Sound(r, i + 1) && Kept(b, r) && EnteredByMarket(r, i) && r.pending == b.pending
  {
    FoundIsHeld(b.positions, o.positionId);
    var f := FindPosition(b.positions, o.positionId);
    if f.Some? {
      var px := if f.value.Side() == Buy then bar.bidO - bar.slip else bar.AskO() + bar.slip;
      CloseKeeps(c, bar, i, b, f.value, px, o.reason);
    }
  }

  lemma {:induction false} CheckExitsKeeps(c: Costs, bar: Bar, i: nat, b: Book, ps: seq<Position>)
    requires Sound(b, i + 1) && EnteredByMarket(b, i)
    ensures var r := CheckExits(c, bar, i, b, ps);
      Sound(r, i + 1) && Kept(b, r) && r.pending == b.pending && r.market == b.market
    decreases |ps|
  {
    if ps != [] {
      CheckExitKeeps(c, bar, i, b, ps[0], true);
      CheckExitsKeeps(c, bar, i, CheckExit(c, bar, i, b, ps[0], true), ps[1..]);
    }
  }

  lemma TriggerOrderKeeps(c: Costs, bar: Bar, i: nat, b: Book, o: PendingOrder)
    requires GoodCosts(c) && Sound(b, i + 1) && GoodPending(o)
    ensures var r := TriggerOrder(c, bar, i, b, o); Sound(r, i + 1) && Kept(b, r)
    ensures forall t :: t in TriggerOrder(c, bar, i, b, o).acct.trades[|b.acct.trades|..] ==> t.reason == StopHit
  {
    if PendingTriggers(c, bar, o) {
      var b1 := b.(pending := Remove(b.pending, o));
      RemoveKeeps(b.pending, o);
      var px := TriggerPrice(bar, o.signal);
      OpenKeeps(c, bar, i, b1, o.signal, o.lots, px);
      var b2 := Open(c, bar, i, b1, o.signal, o.lots, px);
      if !BeyondStop(o.signal, px) {
        CheckExitKeeps(c, bar, i, b2, Opened(c, bar, i, b1, o.signal, o.lots, px), false);
      }
    }
  }

  /** Orders that fill inside a bar can only be stopped out on it: no trade added here took a target. */
  lemma {:induction false} TriggerOrdersKeeps(c: Costs, bar: Bar, i: nat, b: Book, os: seq<PendingOrder>)
    requires GoodCosts(c) && Sound(b, i + 1) && (forall o :: o in os ==> GoodPending(o))
    ensures var r := TriggerOrders(c, bar, i, b, os); Sound(r, i + 1) && Kept(b, r)
    ensures forall t :: t in TriggerOrders(c, bar, i, b, os).acct.trades[|b.acct.trades|..] ==> t.reason == StopHit
    decreases |os|
  {
    if os != [] {
      assert GoodPending(os[0]);
      TriggerOrderKeeps(c, bar, i, b, os[0]);
      var b1 := TriggerOrder(c, bar, i, b, os[0]);
      TriggerOrdersKeeps(c, bar, i, b1, os[1..]);
      var n, ts1, ts := |b.acct.trades|, b1.acct.trades, TriggerOrders(c, bar, i, b, os).acct.trades;
      assert ts[n..] == ts1[n..] + ts[|ts1|..];
    }
  }

  lemma {:induction false} UnexpiredKeeps(bar: Bar, os: seq<PendingOrder>)
    ensures forall o :: o in Unexpired(bar, os) <==> o in os && !Expired(bar, o)
  {
    if os != [] {
      UnexpiredKeeps(bar, os[1..]);
    }
  }

  lemma ProcessBarKeeps(c: Costs, bar: Bar, i: nat, b: Book)
    requires GoodCosts(c) && Sound(b, i)
    ensures Sound(ProcessBar(c, bar, i, b), i + 1) && Kept(b, ProcessBar(c, bar, i, b))
  {
    var b0 := b.(market := []);
    FillMarketKeeps(c, bar, i, b0, b.market);
    var b1 := FillMarket(c, bar, i, b0, b.market);
    UnexpiredKeeps(bar, b1.pending);
    var b2 := AfterMarket(c, bar, i, b);
    CheckExitsKeeps(c, bar, i, b2, b2.positions);
    var b3 := AfterExits(c, bar, i, b);
    TriggerOrdersKeeps(c, bar, i, b3, b3.pending);
  }

  lemma {:induction false} ScanKeeps(c: Costs, bars: seq<Bar>, b: Book, lo: nat, hi: nat)
    requires GoodCosts(c) && lo <= hi <= |bars| && Sound(b, lo)
    ensures Sound(Scan(c, bars, b, lo, hi), hi) && Kept(b, Scan(c, bars, b, lo, hi))
    decreases hi - lo
  {
    if lo < hi {
      ProcessBarKeeps(c, bars[lo], lo, b);
      ScanKeeps(c, bars, ProcessBar(c, bars[lo], lo, b), lo + 1, hi);
    }
  }

  /** Advancing in two goes is advancing in one. */
  lemma {:induction false} ScanSplits(c: Costs, bars: seq<Bar>, b: Book, lo: nat, mid: nat, hi: nat)
    requires lo <= mid <= hi <= |bars|
    ensures Scan(c, bars, Scan(c, bars, b, lo, mid), mid, hi) == Scan(c, bars, b, lo, hi)
    decreases mid - lo
  {
    if lo < mid {
      ScanSplits(c, bars, ProcessBar(c, bars[lo], lo, b), lo + 1, mid, hi);
    }
  }

  // ---------------------------------------------------------------- the whole broker

  function CarryAll(pss: seq<seq<Position>>): real {
    if pss == [] then 0.0 else CarryAll(pss[..|pss| - 1]) + Carry(pss[|pss| - 1])
  }

  lemma {:induction false} CarryUpdate(pss: seq<seq<Position>>, k: nat, ps: seq<Position>)
    requires k < |pss|
    ensures CarryAll(pss[k := ps]) == CarryAll(pss) - Carry(pss[k]) + Carry(ps)
  {
    var n := |pss| - 1;
    if k < n {
      assert pss[k := ps][..n] == pss[..n][k := ps];
      CarryUpdate(pss[..n], k, ps);
    } else {
      assert pss[k := ps][..n] == pss[..n];
    }
  }

  /** Balance not explained by closed trades and open positions. */
  function Due(b: Broker): real { b.acct.balance - NetSum(b.acct.trades) - CarryAll(b.positions) }

  ghost predicate BrokerSound(symbols: seq<SymbolData>, b: Broker) {
    && Shaped(symbols, b)
    && (forall k :: 0 <= k < |symbols| ==> GoodCosts(symbols[k].costs))
    && (forall k :: 0 <= k < |symbols| ==> Sound(Focus(b, k), b.lastIdx[k] + 1))
  }

  /** The same position later on: only its swaps have grown and its stop has tightened. */
  predicate SamePosition(p: Position, q: Position) {
    && q == p.(stop := q.stop, swap := q.swap)
    && StopNoLooser(p.Side(), p.stop, q.stop)
  }

  ghost predicate Came(old_: seq<Position>, lastNum: nat, q: Position) {
    q.num > lastNum || exists p :: p in old_ && SamePosition(p, q)
  }

  /** What every call keeps: the unexplained balance, the record of trades, and the identity of positions. */
  ghost predicate Follows(b: Broker, r: Broker)
    requires |b.positions| == |r.positions|
  {
    && Due(r) == Due(b)
    && b.acct.lastNum <= r.acct.lastNum
    && b.acct.trades <= r.acct.trades
    && forall k, q :: 0 <= k < |b.positions| && q in r.positions[k] ==> Came(b.positions[k], b.acct.lastNum, q)
  }

  lemma FollowsTransitive(a: Broker, b: Broker, c: Broker)
    requires |a.positions| == |b.positions| == |c.positions| && Follows(a, b) && Follows(b, c)
    ensures Follows(a, c)
  {
    forall k, q | 0 <= k < |a.positions| && q in c.positions[k]
      ensures Came(a.positions[k], a.acct.lastNum, q)
    {
      assert Came(b.positions[k], b.acct.lastNum, q);
      if q.num <= b.acct.lastNum {
        var p :| p in b.positions[k] && SamePosition(p, q);
        assert Came(a.positions[k], a.acct.lastNum, p);
      }
    }
  }

  /** As Kept, but swaps may be charged and stops tightened. */
  ghost predicate Continues(b: Book, r: Book) {
    && BookDue(r) == BookDue(b)
    && b.acct.lastNum <= r.acct.lastNum
    && b.acct.trades <= r.acct.trades
    && forall q :: q in r.positions ==> Came(b.positions, b.acct.lastNum, q)
  }

  lemma KeptContinues(b: Book, r: Book)
    requires Kept(b, r)
    ensures Continues(b, r)
  {
    forall q | q in r.positions
      ensures Came(b.positions, b.acct.lastNum, q)
    {
      assert SamePosition(q, q);
    }
  }

  /** A step that keeps one symbol's book sound and leaves the others alone. */
  lemma MergeKeeps(symbols: seq<SymbolData>, b: Broker, k: nat, idx: int, r: Book)
    requires BrokerSound(symbols, b) && k < |symbols| && b.lastIdx[k] <= idx < |symbols[k].bars|
    requires Sound(r, idx + 1) && Continues(Focus(b, k), r)
    ensures var c := Merge(b.(lastIdx := b.lastIdx[k := idx]), k, r); BrokerSound(symbols, c) && Follows(b, c)
  {
    var c := Merge(b.(lastIdx := b.lastIdx[k := idx]), k, r);
    CarryUpdate(b.positions, k, r.positions);
    forall j | 0 <= j < |symbols|
      ensures Sound(Focus(c, j), c.lastIdx[j] + 1)
    {
      assert Sound(Focus(b, j), b.lastIdx[j] + 1);
    }
    forall j, q | 0 <= j < |b.positions| && q in c.positions[j]
      ensures Came(b.positions[j], b.acct.lastNum, q)
    {
      if j == k {
        assert Came(Focus(b, k).positions, b.acct.lastNum, q);
      } else {
        assert q in b.positions[j] && SamePosition(q, q);
      }
    }
  }

  /** The same when no bar is consumed. */
  lemma BookStepKeeps(symbols: seq<SymbolData>, b: Broker, k: nat, r: Book)
    requires BrokerSound(symbols, b) && k < |symbols|
    requires Sound(r, b.lastIdx[k] + 1) && Continues(Focus(b, k), r)
    ensures BrokerSound(symbols, Merge(b, k, r)) && Follows(b, Merge(b, k, r))
  {
    assert b.lastIdx[k := b.lastIdx[k]] == b.lastIdx;
    MergeKeeps(symbols, b, k, b.lastIdx[k], r);
  }

  lemma BookIsSound(symbols: seq<SymbolData>, b: Broker, k: nat)
    requires BrokerSound(symbols, b) && k < |symbols|
    ensures Sound(Focus(b, k), b.lastIdx[k] + 1) && GoodCosts(symbols[k].costs)
  {}

  lemma AdvanceBook(c: Costs, bars: seq<Bar>, x: Book, lo: nat, hi: nat)
    requires GoodCosts(c) && lo <= hi <= |bars| && Sound(x, lo)
    ensures Sound(Scan(c, bars, x, lo, hi), hi) && Continues(x, Scan(c, bars, x, lo, hi))
  {
    ScanKeeps(c, bars, x, lo, hi);
    KeptContinues(x, Scan(c, bars, x, lo, hi));
  }

  lemma AdvanceKeeps(symbols: seq<SymbolData>, b: Broker, k: nat, hi: nat)
    requires BrokerSound(symbols, b) && k < |symbols| && hi <= |symbols[k].bars|
    ensures var r := Advanced(symbols, b, k, b.lastIdx[k] + 1, hi); BrokerSound(symbols, r) && Follows(b, r)
  {
    if b.lastIdx[k] + 1 < hi {
      BrokerScanKeeps(symbols, b, k, b.lastIdx[k] + 1, hi,
                      Scan(symbols[k].costs, symbols[k].bars, Focus(b, k), b.lastIdx[k] + 1, hi));
    } else {
      FollowsSelf(b);
    }
  }

  lemma BrokerScanKeeps(symbols: seq<SymbolData>, b: Broker, k: nat, lo: nat, hi: nat, x: Book)
    requires BrokerSound(symbols, b) && k < |symbols| && lo == b.lastIdx[k] + 1 < hi <= |symbols[k].bars|
    requires x == Scan(symbols[k].costs, symbols[k].bars, Focus(b, k), lo, hi)
    ensures var r := Merge(b.(lastIdx := b.lastIdx[k := hi - 1]), k, x); BrokerSound(symbols, r) && Follows(b, r)
  {
    BookIsSound(symbols, b, k);
    AdvanceBook(symbols[k].costs, symbols[k].bars, Focus(b, k), lo, hi);
    MergeKeeps(symbols, b, k, hi - 1, x);
  }

  lemma FollowsSelf(b: Broker)
    ensures Follows(b, b)
  {
    forall k, q | 0 <= k < |b.positions| && q in b.positions[k]
      ensures Came(b.positions[k], b.acct.lastNum, q)
    {
      assert SamePosition(q, q);
    }
  }

  /** A change to the account that leaves the balance, the trades and the numbering as they are. */
  lemma NoteKeeps(symbols: seq<SymbolData>, b: Broker, now: int, what: What, id: string, why: string)
    requires BrokerSound(symbols, b)
    ensures BrokerSound(symbols, Rejected(b, now, what, id, why)) && Follows(b, Rejected(b, now, what, id, why))
  {
    var r := Rejected(b, now, what, id, why);
    forall j | 0 <= j < |symbols|
      ensures Sound(Focus(r, j), r.lastIdx[j] + 1)
    {
      assert Sound(Focus(b, j), b.lastIdx[j] + 1);
    }
    FollowsSelf(b);
  }

  lemma SubmitKeeps(symbols: seq<SymbolData>, b: Broker, s: Signal, lots: real, now: int, tf: nat)
    requires BrokerSound(symbols, b) && s.symbol < |symbols| && lots > 0.0
    ensures var r := Submitted(b, s, lots, now, tf); BrokerSound(symbols, r) && Follows(b, r)
  {
    BookIsSound(symbols, b, s.symbol);
    SubmitBook(Focus(b, s.symbol), b.lastIdx[s.symbol] + 1, s, lots, now, tf);
    BookStepKeeps(symbols, b, s.symbol, WithOrder(Focus(b, s.symbol), s, lots, now, tf));
  }

  lemma SubmitBook(x: Book, next: nat, s: Signal, lots: real, now: int, tf: nat)
    requires Sound(x, next) && lots > 0.0
    ensures Sound(WithOrder(x, s, lots, now, tf), next) && Continues(x, WithOrder(x, s, lots, now, tf))
  {
    KeptContinues(x, WithOrder(x, s, lots, now, tf));
  }

  lemma CancelKeeps(symbols: seq<SymbolData>, b: Broker, strategyId: string, id: string, now: int)
    requires BrokerSound(symbols, b)
    ensures var r := Cancelled(b, strategyId, id, now); BrokerSound(symbols, r) && Follows(b, r)
  {
    var f := FindPending(b.pending, 0, strategyId, id);
    if f.None? {
      NoteKeeps(symbols, b, now, CancelOf, id, "no such pending order");
    } else {
      var k, x := f.value.0, Focus(b, f.value.0);
      assert Sound(x, b.lastIdx[k] + 1);
      RemoveKeeps(b.pending[k], f.value.1);
      KeptContinues(x, x.(pending := Remove(x.pending, f.value.1)));
      BookStepKeeps(symbols, b, k, x.(pending := Remove(x.pending, f.value.1)));
      MergeSame(b, k);
    }
  }

  lemma MergeSame(b: Broker, k: nat)
    requires k < |b.market| == |b.pending| == |b.positions| == |b.lastIdx|
    ensures b.lastIdx[k := b.lastIdx[k]] == b.lastIdx
    ensures b.market[k := b.market[k]] == b.market
    ensures b.pending[k := b.pending[k]] == b.pending
    ensures b.positions[k := b.positions[k]] == b.positions
  {}

  lemma CloseRequestKeeps(
    symbols: seq<SymbolData>, b: Broker, strategyId: string, id: string, now: int, reason: ExitReason)
    requires BrokerSound(symbols, b)
    ensures var r := CloseRequest(b, strategyId, id, now, reason); BrokerSound(symbols, r) && Follows(b, r)
  {
    var h := FindHeld(b.positions, 0, strategyId, id);
    if h.None? {
      NoteKeeps(symbols, b, now, CloseOf, id, "no such position");
    } else {
      var k := h.value.0;
      FollowsSelf(b);
      ExitStep(symbols, b, k, id, reason);
    }
  }

  lemma ExitStep(symbols: seq<SymbolData>, b: Broker, k: nat, id: string, reason: ExitReason)
    requires BrokerSound(symbols, b) && k < |symbols|
    ensures var num := b.acct.lastNum + 1;
      var r := b.(market := b.market[k := b.market[k] + [Exit(num, id, reason)]], acct := b.acct.(lastNum := num));
      BrokerSound(symbols, r) && Follows(b, r)
  {
    MergeSame(b, k);
    BookIsSound(symbols, b, k);
    CloseBook(Focus(b, k), b.lastIdx[k] + 1, id, reason);
    BookStepKeeps(symbols, b, k, WithExit(Focus(b, k), id, reason));
  }

  function WithExit(x: Book, id: string, reason: ExitReason): Book {
    var num := x.acct.lastNum + 1;
    x.(market := x.market + [Exit(num, id, reason)], acct := x.acct.(lastNum := num))
  }

  lemma CloseBook(x: Book, next: nat, id: string, reason: ExitReason)
    requires Sound(x, next)
    ensures Sound(WithExit(x, id, reason), next) && Continues(x, WithExit(x, id, reason))
  {
    KeptContinues(x, WithExit(x, id, reason));
  }

  lemma {:induction false} CarryStop(ps: seq<Position>, n: nat, stop: real)
    requires n < |ps|
    ensures Carry(ps[n := ps[n].(stop := stop)]) == Carry(ps)
  {
    if n > 0 {
      assert ps[n := ps[n].(stop := stop)][1..] == ps[1..][n - 1 := ps[n].(stop := stop)];
      CarryStop(ps[1..], n - 1, stop);
    }
  }

  lemma ModifyStopKeeps(symbols: seq<SymbolData>, b: Broker, strategyId: string, id: string, newStop: real, now: int)
    requires BrokerSound(symbols, b)
    ensures var r := StopModified(symbols, b, strategyId, id, newStop, now); BrokerSound(symbols, r) && Follows(b, r)
  {
    var h := FindHeld(b.positions, 0, strategyId, id);
    if h.None? {
      NoteKeeps(symbols, b, now, ModifyOf, id, "no such position");
      return;
    }
    var k, n := h.value.0, h.value.1;
    var p, i := b.positions[k][n], b.lastIdx[k];
    NoteKeeps(symbols, b, now, ModifyOf, id, "no price yet");
    NoteKeeps(symbols, b, now, ModifyOf, id, "only tightening stops is allowed");
    if i >= 0 && Tightens(p, newStop, symbols[k].bars[i]) {
      StopStep(symbols, b, k, n, newStop);
      MergeSame(b, k);
    }
  }

  lemma StopStep(symbols: seq<SymbolData>, b: Broker, k: nat, n: nat, newStop: real)
    requires BrokerSound(symbols, b) && k < |symbols| && n < |b.positions[k]|
    requires StopNoLooser(b.positions[k][n].Side(), b.positions[k][n].stop, newStop)
    ensures var r := Merge(b, k, Focus(b, k).(positions := b.positions[k][n := b.positions[k][n].(stop := newStop)]));
      BrokerSound(symbols, r) && Follows(b, r)
  {
    var x, p := Focus(b, k), b.positions[k][n];
    assert Sound(x, b.lastIdx[k] + 1);
    var r := x.(positions := x.positions[n := p.(stop := newStop)]);
    CarryStop(x.positions, n, newStop);
    assert p in x.positions && SamePosition(p, p.(stop := newStop));
    forall q | q in r.positions
      ensures Came(x.positions, x.acct.lastNum, q) && GoodPosition(q, b.lastIdx[k] + 1, b.acct.lastNum)
    {
      assert q in x.positions ==> SamePosition(q, q);
    }
    BookStepKeeps(symbols, b, k, r);
  }

  lemma {:induction false} CarrySwaps(c: Costs, ps: seq<Position>, price: real, weekday: int)
    ensures Carry(WithSwaps(c, ps, price, weekday)) == Carry(ps) + SwapTotal(c, ps, price, weekday)
  {
    if ps != [] {
      var n := |ps| - 1;
      CarrySwaps(c, ps[..n], price, weekday);
      assert ps == ps[..n] + [ps[n]];
      CarryAppend(ps[..n], ps[n]);
      CarryAppend(WithSwaps(c, ps[..n], price, weekday), WithSwap(c, ps[n], price, weekday));
    }
  }

  lemma {:induction false} SwapsKeep(symbols: seq<SymbolData>, b: Broker, weekday: int, k: nat)
    requires BrokerSound(symbols, b)
    ensures var r := SwapsFrom(symbols, b, weekday, k); BrokerSound(symbols, r) && Follows(b, r)
    decreases |symbols| - k
  {
    if k >= |symbols| {
      FollowsSelf(b);
    } else if b.lastIdx[k] < 0 {
      SwapsKeep(symbols, b, weekday, k + 1);
    } else {
      var c, price := symbols[k].costs, symbols[k].bars[b.lastIdx[k]].bidC;
      var r := Swapped(b, k, c, price, weekday);
      SwapStep(symbols, b, k, c, price, weekday);
      SwapsKeep(symbols, r, weekday, k + 1);
      FollowsTransitive(b, r, SwapsFrom(symbols, r, weekday, k + 1));
      OneMoreSwap(symbols, b, weekday, k, r);
    }
  }

  lemma OneMoreSwap(symbols: seq<SymbolData>, b: Broker, weekday: int, k: nat, r: Broker)
    requires Shaped(symbols, b) && k < |symbols| && b.lastIdx[k] >= 0
    requires r == Swapped(b, k, symbols[k].costs, symbols[k].bars[b.lastIdx[k]].bidC, weekday)
    ensures Shaped(symbols, r) && SwapsFrom(symbols, b, weekday, k) == SwapsFrom(symbols, r, weekday, k + 1)
  {}

  function Swapped(b: Broker, k: nat, c: Costs, price: real, weekday: int): Broker
    requires k < |b.positions|
  {
    b.(positions := b.positions[k := WithSwaps(c, b.positions[k], price, weekday)],
       acct := b.acct.(balance := b.acct.balance + SwapTotal(c, b.positions[k], price, weekday)))
  }

  lemma SwapStep(symbols: seq<SymbolData>, b: Broker, k: nat, c: Costs, price: real, weekday: int)
    requires BrokerSound(symbols, b) && k < |symbols|
    ensures BrokerSound(symbols, Swapped(b, k, c, price, weekday)) && Follows(b, Swapped(b, k, c, price, weekday))
  {
    MergeSame(b, k);
    BookIsSound(symbols, b, k);
    SwapBook(Focus(b, k), b.lastIdx[k] + 1, c, price, weekday);
    BookStepKeeps(symbols, b, k, SwappedBook(Focus(b, k), c, price, weekday));
  }

  function SwappedBook(x: Book, c: Costs, price: real, weekday: int): Book {
    x.(positions := WithSwaps(c, x.positions, price, weekday),
       acct := x.acct.(balance := x.acct.balance + SwapTotal(c, x.positions, price, weekday)))
  }

  lemma SwapBook(x: Book, next: nat, c: Costs, price: real, weekday: int)
    requires Sound(x, next)
    ensures Sound(SwappedBook(x, c, price, weekday), next) && Continues(x, SwappedBook(x, c, price, weekday))
  {
    var ps, qs := x.positions, WithSwaps(c, x.positions, price, weekday);
    CarrySwaps(c, ps, price, weekday);
    forall q | q in qs
      ensures Came(ps, x.acct.lastNum, q) && GoodPosition(q, next, x.acct.lastNum)
    {
      var n :| 0 <= n < |qs| && q == qs[n];
      assert ps[n] in ps && SamePosition(ps[n], WithSwap(c, ps[n], price, weekday));
    }
  }

  /** Closing each position of a symbol in turn empties it. */
  lemma {:induction false} CloseEachKeeps(d: SymbolData, i: nat, x: Book, reason: ExitReason)
    requires i < |d.bars| && Sound(x, i + 1) && reason != TargetHit
    ensures var r := CloseEach(d, i, x, x.positions, reason);
      Sound(r, i + 1) && Kept(x, r) && r.positions == [] && r.acct.lastNum == x.acct.lastNum
    decreases |x.positions|
  {
    if x.positions != [] {
      var p := x.positions[0];
      var px := if p.Side() == Buy then d.bars[i].bidC else d.bars[i].AskC();
      CloseKeeps(d.costs, d.bars[i], i, x, p, px, reason);
      CloseEachKeeps(d, i, SimModel.Close(d.costs, d.bars[i], i, x, p, px, reason), reason);
    }
  }

  lemma NothingYet(x: Book, next: nat)
    requires Sound(x, next)
    ensures x.positions != [] ==> next > 0
  {
    if x.positions != [] {
      assert GoodPosition(x.positions[0], next, x.acct.lastNum);
    }
  }

  lemma {:induction false} CloseSymbolsKeeps(symbols: seq<SymbolData>, b: Broker, byName: seq<nat>, reason: ExitReason)
    requires BrokerSound(symbols, b) && Names(symbols, byName) && reason != TargetHit
    ensures var r := CloseSymbols(symbols, b, byName, reason);
      && BrokerSound(symbols, r) && Follows(b, r)
      && (forall k :: 0 <= k < |symbols| && b.positions[k] == [] ==> r.positions[k] == [])
      && (forall k :: k in byName && k < |symbols| ==> r.positions[k] == [])
    decreases |byName|
  {
    if byName == [] {
      FollowsSelf(b);
    } else {
      var k := byName[0];
      var x := Focus(b, k);
      assert Sound(x, b.lastIdx[k] + 1);
      if b.lastIdx[k] < 0 {
        NothingYet(x, b.lastIdx[k] + 1);
        CloseSymbolsKeeps(symbols, b, byName[1..], reason);
      } else {
        var i := b.lastIdx[k];
        CloseEachKeeps(symbols[k], i, x, reason);
        var y := CloseEach(symbols[k], i, x, x.positions, reason);
        KeptContinues(x, y);
        BookStepKeeps(symbols, b, k, y);
        CloseSymbolsKeeps(symbols, Merge(b, k, y), byName[1..], reason);
        FollowsTransitive(b, Merge(b, k, y), CloseSymbols(symbols, Merge(b, k, y), byName[1..], reason));
      }
    }
  }

  lemma {:induction false} CarryNone(pss: seq<seq<Position>>)
    requires forall k :: 0 <= k < |pss| ==> pss[k] == []
    ensures CarryAll(pss) == 0.0
  {
    if pss != [] {
      CarryNone(pss[..|pss| - 1]);
    }
  }

  lemma {:induction false} FloatingNone(symbols: seq<SymbolData>, b: Broker, n: nat)
    requires Shaped(symbols, b) && n <= |symbols|
    requires forall k :: 0 <= k < n ==> b.positions[k] == []
    ensures FloatingUpTo(symbols, b, n) == 0.0
  {
    if n > 0 {
      FloatingNone(symbols, b, n - 1);
    }
  }

  /** After everything is closed, equity is what the account started with plus the net of every trade. */
  lemma AllClosedBalances(symbols: seq<SymbolData>, b: Broker, byName: seq<nat>, reason: ExitReason)
    requires BrokerSound(symbols, b) && Names(symbols, byName) && reason != TargetHit
    requires forall k :: 0 <= k < |symbols| ==> k in byName
    ensures var r := AllClosed(symbols, b, byName, reason);
      && BrokerSound(symbols, r) && Follows(b, r)
      && (forall k :: 0 <= k < |symbols| ==> r.positions[k] == [] && r.pending[k] == [] && r.market[k] == [])
      && Equity(symbols, r) == Due(b) + NetSum(r.acct.trades)
  {
    CloseSymbolsKeeps(symbols, b, byName, reason);
    var m := CloseSymbols(symbols, b, byName, reason);
    var r := AllClosed(symbols, b, byName, reason);
    assert r.positions == m.positions && r.acct == m.acct;
    forall j | 0 <= j < |symbols|
      ensures Sound(Focus(r, j), r.lastIdx[j] + 1)
    {
      assert Sound(Focus(m, j), m.lastIdx[j] + 1);
    }
    CarryNone(r.positions);
    FloatingNone(symbols, r, |symbols|);
  }

  /** Stopping at a bar in between and going on leaves what going straight through leaves. */
  lemma AdvanceSplits(symbols: seq<SymbolData>, b: Broker, k: nat, lo: nat, mid: nat, hi: nat)
    requires Shaped(symbols, b) && k < |symbols| && lo <= mid <= hi <= |symbols[k].bars|
    ensures Advanced(symbols, Advanced(symbols, b, k, lo, mid), k, mid, hi) == Advanced(symbols, b, k, lo, hi)
  {
    if lo < mid < hi {
      var c, bars, x := symbols[k].costs, symbols[k].bars, Focus(b, k);
      ScanSplits(c, bars, x, lo, mid, hi);
      var y := Scan(c, bars, x, lo, mid);
      MergeTwice(b.(lastIdx := b.lastIdx[k := mid - 1]), k, y, y);
      MergeTwice(b.(lastIdx := b.lastIdx[k := hi - 1]), k, y, Scan(c, bars, x, lo, hi));
      assert b.lastIdx[k := mid - 1][k := hi - 1] == b.lastIdx[k := hi - 1];
    }
  }

  // ---------------------------------------------------------------- every run

  datatype Action =
    | Submit(s: Signal, lots: real, now: int, tfMinutes: nat)
    | CancelOrder(strategyId: string, id: string, now: int)
    | ClosePosition(strategyId: string, id: string, now: int)
    | MoveStop(strategyId: string, id: string, stop: real, now: int)
    | AdvanceTo(k: nat, hi: nat)
    | Rollover(weekday: int)
    | CloseOut(byName: seq<nat>)

  /** What the callers of the broker take care of. */
  ghost predicate Proper(symbols: seq<SymbolData>, a: Action) {
    match a
    case Submit(s, lots, _, _) => s.symbol < |symbols| && lots > 0.0
    case AdvanceTo(k, hi) => k < |symbols| && hi <= |symbols[k].bars|
    case CloseOut(byName) => Names(symbols, byName) && forall k :: 0 <= k < |symbols| ==> k in byName
    case _ => true
  }

  function Apply(symbols: seq<SymbolData>, b: Broker, a: Action): (r: Broker)
    requires Shaped(symbols, b) && Proper(symbols, a)
    ensures Shaped(symbols, r)
  {
    match a
    case Submit(s, lots, now, tf) => Submitted(b, s, lots, now, tf)
    case CancelOrder(strategyId, id, now) => Cancelled(b, strategyId, id, now)
    case ClosePosition(strategyId, id, now) => CloseRequest(b, strategyId, id, now, CloseRequested)
    case MoveStop(strategyId, id, stop, now) => StopModified(symbols, b, strategyId, id, stop, now)
    case AdvanceTo(k, hi) => Advanced(symbols, b, k, b.lastIdx[k] + 1, hi)
    case Rollover(weekday) => SwapsCharged(symbols, b, weekday)
    case CloseOut(byName) => AllClosed(symbols, b, byName, EndOfData)
  }

  lemma ActionKeeps(symbols: seq<SymbolData>, b: Broker, a: Action)
    requires BrokerSound(symbols, b) && Proper(symbols, a)
    ensures BrokerSound(symbols, Apply(symbols, b, a)) && Follows(b, Apply(symbols, b, a))
  {
    match a
    case Submit(s, lots, now, tf) => SubmitKeeps(symbols, b, s, lots, now, tf);
    case CancelOrder(strategyId, id, now) => CancelKeeps(symbols, b, strategyId, id, now);
    case ClosePosition(strategyId, id, now) => CloseRequestKeeps(symbols, b, strategyId, id, now, CloseRequested);
    case MoveStop(strategyId, id, stop, now) => ModifyStopKeeps(symbols, b, strategyId, id, stop, now);
    case AdvanceTo(k, hi) => AdvanceKeeps(symbols, b, k, hi);
    case Rollover(weekday) => SwapsKeep(symbols, b, weekday, 0);
    case CloseOut(byName) => AllClosedBalances(symbols, b, byName, EndOfData);
  }

  ghost function Run(symbols: seq<SymbolData>, b: Broker, actions: seq<Action>): (r: Broker)
    requires Shaped(symbols, b) && forall n :: 0 <= n < |actions| ==> Proper(symbols, actions[n])
    ensures Shaped(symbols, r)
    decreases |actions|
  {
    if actions == [] then b else Run(symbols, Apply(symbols, b, actions[0]), actions[1..])
  }

  function Fresh(n: nat, balance: real): Broker {
    Broker(seq(n, (_: int) => []), seq(n, (_: int) => []), seq(n, (_: int) => []), seq(n, (_: int) => -1),
           Account(balance, [], [], [], 0))
  }

  lemma {:induction false} RunFollows(symbols: seq<SymbolData>, b: Broker, actions: seq<Action>)
    requires BrokerSound(symbols, b) && forall n :: 0 <= n < |actions| ==> Proper(symbols, actions[n])
    ensures BrokerSound(symbols, Run(symbols, b, actions)) && Follows(b, Run(symbols, b, actions))
    decreases |actions|
  {
    if actions == [] {
      FollowsSelf(b);
    } else {
      var b1 := Apply(symbols, b, actions[0]);
      ActionKeeps(symbols, b, actions[0]);
      RunFollows(symbols, b1, actions[1..]);
      FollowsTransitive(b, b1, Run(symbols, b1, actions[1..]));
    }
  }

  lemma FreshSound(symbols: seq<SymbolData>, balance: real)
    requires forall k :: 0 <= k < |symbols| ==> GoodCosts(symbols[k].costs)
    ensures BrokerSound(symbols, Fresh(|symbols|, balance)) && Due(Fresh(|symbols|, balance)) == balance
  {
    CarryNone(Fresh(|symbols|, balance).positions);
  }

  /** In every reachable state the balance is the initial balance, plus the net of every closed trade, plus
      swaps less entry commissions of what is open; and the invariants of orders, positions and trades hold. */
  lemma Conservation(symbols: seq<SymbolData>, balance: real, actions: seq<Action>)
    requires forall n :: 0 <= n < |actions| ==> Proper(symbols, actions[n])
    requires forall k :: 0 <= k < |symbols| ==> GoodCosts(symbols[k].costs)
    ensures Shaped(symbols, Fresh(|symbols|, balance))
    ensures var r := Run(symbols, Fresh(|symbols|, balance), actions);
      && BrokerSound(symbols, r)
      && r.acct.balance == balance + NetSum(r.acct.trades) + CarryAll(r.positions)
  {
    FreshSound(symbols, balance);
    RunFollows(symbols, Fresh(|symbols|, balance), actions);
  }
}
