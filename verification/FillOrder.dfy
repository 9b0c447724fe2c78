/** Orders and positions are handled in the order of their numbers. The simulator sorts its lists by number before each
    phase of a bar; in every reachable state the lists are in that order already, so list order and number order are
    the same. */
module FillOrder {
  import opened Types
  import opened SimModel
  import opened BrokerModel
  import opened BrokerLaws

  // ---------------------------------------------------------------- sorting by number

  function InsertBy<T>(x: T, xs: seq<T>, num: T -> nat): seq<T> {
    if xs == [] || num(x) <= num(xs[0]) then [x] + xs else [xs[0]] + InsertBy(x, xs[1..], num)
  }

  /** Stable sort by number. */
  function SortBy<T>(xs: seq<T>, num: T -> nat): seq<T> {
    if xs == [] then [] else InsertBy(xs[0], SortBy(xs[1..], num), num)
  }

  ghost predicate InOrder<T>(xs: seq<T>, num: T -> nat) {
    forall i, j :: 0 <= i < j < |xs| ==> num(xs[i]) <= num(xs[j])
  }

  lemma {:induction false} InsertHolds<T>(x: T, xs: seq<T>, num: T -> nat)
    ensures multiset(InsertBy(x, xs, num)) == multiset(xs) + multiset{x}
    ensures forall y :: y in InsertBy(x, xs, num) ==> y == x || y in xs
  {
    if xs != [] && num(x) > num(xs[0]) {
      InsertHolds(x, xs[1..], num);
      assert xs == [xs[0]] + xs[1..];
    }
  }

  lemma {:induction false} InsertOrders<T>(x: T, xs: seq<T>, num: T -> nat)
    requires InOrder(xs, num)
    ensures InOrder(InsertBy(x, xs, num), num)
  {
    if xs != [] && num(x) > num(xs[0]) {
      InsertOrders(x, xs[1..], num);
      InsertHolds(x, xs[1..], num);
      var r := InsertBy(x, xs[1..], num);
      forall j | 0 <= j < |r|
        ensures num(xs[0]) <= num(r[j])
      {
        assert r[j] in r;
      }
    }
  }

  lemma {:induction false} SortIs<T>(xs: seq<T>, num: T -> nat)
    ensures multiset(SortBy(xs, num)) == multiset(xs) && InOrder(SortBy(xs, num), num)
  {
    if xs != [] {
      SortIs(xs[1..], num);
      InsertHolds(xs[0], SortBy(xs[1..], num), num);
      InsertOrders(xs[0], SortBy(xs[1..], num), num);
      assert xs == [xs[0]] + xs[1..];
    }
  }

  /** Numbers ascend, the last is at most `top`. */
  ghost predicate Climbs<T>(xs: seq<T>, num: T -> nat, top: nat) {
    && (forall i, j :: 0 <= i < j < |xs| ==> num(xs[i]) < num(xs[j]))
    && (forall i :: 0 <= i < |xs| ==> num(xs[i]) <= top)
  }

  lemma {:induction false} AlreadySorted<T>(xs: seq<T>, num: T -> nat, top: nat)
    requires Climbs(xs, num, top)
    ensures SortBy(xs, num) == xs
  {
    if xs != [] {
      AlreadySorted(xs[1..], num, top);
    }
  }

  lemma {:induction false} RemoveClimbs<T>(xs: seq<T>, x: T, num: T -> nat, top: nat)
    requires Climbs(xs, num, top)
    ensures Climbs(Remove(xs, x), num, top)
    ensures forall y :: y in Remove(xs, x) ==> y in xs
  {
    if xs != [] && xs[0] != x {
      RemoveClimbs(xs[1..], x, num, top);
      var r := Remove(xs[1..], x);
      forall j | 0 <= j < |r|
        ensures num(xs[0]) < num(r[j])
      {
        assert r[j] in xs[1..];
      }
    }
  }

  lemma SnocClimbs<T>(xs: seq<T>, x: T, num: T -> nat, top: nat)
    requires Climbs(xs, num, top) && num(x) == top + 1
    ensures Climbs(xs + [x], num, top + 1)
  {}

  // ---------------------------------------------------------------- the numbers of a book

  function MarketNum(o: MarketOrder): nat { o.num }
  function PendingNum(o: PendingOrder): nat { o.num }
  function PositionNum(p: Position): nat { p.num }

  ghost predicate Numbered(b: Book) {
    && Climbs(b.market, MarketNum, b.acct.lastNum)
    && Climbs(b.pending, PendingNum, b.acct.lastNum)
    && Climbs(b.positions, PositionNum, b.acct.lastNum)
  }

  /** Numbers still ascend, and none is given out twice. */
  ghost predicate Stays(b: Book, r: Book) { Numbered(r) && b.acct.lastNum <= r.acct.lastNum }

  lemma OpenNumbered(c: Costs, bar: Bar, i: nat, b: Book, s: Signal, lots: real, px: real)
    requires Numbered(b)
    ensures Stays(b, Open(c, bar, i, b, s, lots, px))
  {
    SnocClimbs(b.positions, Opened(c, bar, i, b, s, lots, px), PositionNum, b.acct.lastNum);
  }

  lemma CloseNumbered(c: Costs, bar: Bar, i: nat, b: Book, p: Position, px: real, reason: ExitReason)
    requires Numbered(b)
    ensures Stays(b, Close(c, bar, i, b, p, px, reason))
  {
    RemoveClimbs(b.positions, p, PositionNum, b.acct.lastNum);
  }

  lemma CheckExitNumbered(c: Costs, bar: Bar, i: nat, b: Book, p: Position, allowTarget: bool)
    requires Numbered(b)
    ensures Stays(b, CheckExit(c, bar, i, b, p, allowTarget))
  {
    var x := ExitPrice(bar, p, i, allowTarget);
    if x.Some? {
      CloseNumbered(c, bar, i, b, p, x.value.0, x.value.1);
    }
  }

  lemma EntryNumbered(c: Costs, bar: Bar, i: nat, b: Book, o: MarketOrder)
    requires Numbered(b) && o.Entry?
    ensures Stays(b, FillMarketOrder(c, bar, i, b, o))
  {
    OpenNumbered(c, bar, i, b, o.signal, o.lots,
      if o.signal.side == Buy then bar.AskO() + bar.slip else bar.bidO - bar.slip);
  }

  lemma ExitNumbered(c: Costs, bar: Bar, i: nat, b: Book, o: MarketOrder)
    requires Numbered(b) && o.Exit?
    ensures Stays(b, FillMarketOrder(c, bar, i, b, o))
  {
    var f := FindPosition(b.positions, o.positionId);
    if f.Some? {
      CloseNumbered(c, bar, i, b, f.value,
        if f.value.Side() == Buy then bar.bidO - bar.slip else bar.AskO() + bar.slip, o.reason);
    }
  }

  lemma {:induction false} FillMarketNumbered(c: Costs, bar: Bar, i: nat, b: Book, os: seq<MarketOrder>)
    requires Numbered(b)
    ensures Stays(b, FillMarket(c, bar, i, b, os))
    decreases |os|
  {
    if os != [] {
      if os[0].Entry? {
        EntryNumbered(c, bar, i, b, os[0]);
      } else {
        ExitNumbered(c, bar, i, b, os[0]);
      }
      FillMarketNumbered(c, bar, i, FillMarketOrder(c, bar, i, b, os[0]), os[1..]);
    }
  }

  lemma {:induction false} UnexpiredClimbs(bar: Bar, os: seq<PendingOrder>, top: nat)
    requires Climbs(os, PendingNum, top)
    ensures Climbs(Unexpired(bar, os), PendingNum, top)
    ensures forall o :: o in Unexpired(bar, os) ==> o in os
  {
    if os != [] {
      UnexpiredClimbs(bar, os[1..], top);
      var r := Unexpired(bar, os[1..]);
      forall j | 0 <= j < |r|
        ensures os[0].num < r[j].num
      {
        assert r[j] in os[1..];
      }
    }
  }

  lemma {:induction false} CheckExitsNumbered(c: Costs, bar: Bar, i: nat, b: Book, ps: seq<Position>)
    requires Numbered(b)
    ensures Stays(b, CheckExits(c, bar, i, b, ps))
    decreases |ps|
  {
    if ps != [] {
      CheckExitNumbered(c, bar, i, b, ps[0], true);
      CheckExitsNumbered(c, bar, i, CheckExit(c, bar, i, b, ps[0], true), ps[1..]);
    }
  }

  lemma TriggerOrderNumbered(c: Costs, bar: Bar, i: nat, b: Book, o: PendingOrder)
    requires Numbered(b)
    ensures Stays(b, TriggerOrder(c, bar, i, b, o))
  {
    if PendingTriggers(c, bar, o) {
      var b1 := b.(pending := Remove(b.pending, o));
      RemoveClimbs(b.pending, o, PendingNum, b.acct.lastNum);
      var px := TriggerPrice(bar, o.signal);
      OpenNumbered(c, bar, i, b1, o.signal, o.lots, px);
      CheckExitNumbered(c, bar, i, Open(c, bar, i, b1, o.signal, o.lots, px),
        Opened(c, bar, i, b1, o.signal, o.lots, px), false);
    }
  }

  lemma {:induction false} TriggerOrdersNumbered(c: Costs, bar: Bar, i: nat, b: Book, os: seq<PendingOrder>)
    requires Numbered(b)
    ensures Stays(b, TriggerOrders(c, bar, i, b, os))
    decreases |os|
  {
    if os != [] {
      TriggerOrderNumbered(c, bar, i, b, os[0]);
      TriggerOrdersNumbered(c, bar, i, TriggerOrder(c, bar, i, b, os[0]), os[1..]);
    }
  }

  // ---------------------------------------------------------------- one bar, sorted before each phase

  function MarketSorted(c: Costs, bar: Bar, i: nat, b: Book): Book {
    var b1 := FillMarket(c, bar, i, b.(market := []), SortBy(b.market, MarketNum));
    b1.(pending := Unexpired(bar, b1.pending))
  }

  function ExitsSorted(c: Costs, bar: Bar, i: nat, b: Book): Book {
    var b2 := MarketSorted(c, bar, i, b);
    CheckExits(c, bar, i, b2, SortBy(b2.positions, PositionNum))
  }

  function BarSorted(c: Costs, bar: Bar, i: nat, b: Book): Book {
    var b3 := ExitsSorted(c, bar, i, b);
    TriggerOrders(c, bar, i, b3, SortBy(b3.pending, PendingNum))
  }

  lemma MarketInOrder(c: Costs, bar: Bar, i: nat, b: Book)
    requires Numbered(b)
    ensures MarketSorted(c, bar, i, b) == AfterMarket(c, bar, i, b) && Stays(b, AfterMarket(c, bar, i, b))
  {
    AlreadySorted(b.market, MarketNum, b.acct.lastNum);
    FillMarketNumbered(c, bar, i, b.(market := []), b.market);
    var b1 := FillMarket(c, bar, i, b.(market := []), b.market);
    UnexpiredClimbs(bar, b1.pending, b1.acct.lastNum);
  }

  lemma ExitsInOrder(c: Costs, bar: Bar, i: nat, b: Book)
    requires Numbered(b)
    ensures ExitsSorted(c, bar, i, b) == AfterExits(c, bar, i, b) && Stays(b, AfterExits(c, bar, i, b))
  {
    MarketInOrder(c, bar, i, b);
    var b2 := AfterMarket(c, bar, i, b);
    AlreadySorted(b2.positions, PositionNum, b2.acct.lastNum);
    CheckExitsNumbered(c, bar, i, b2, b2.positions);
  }

  /** With ascending numbers, sorting before each phase of the bar changes nothing, and the numbers still ascend. */
  lemma BarInOrder(c: Costs, bar: Bar, i: nat, b: Book)
    requires Numbered(b)
    ensures BarSorted(c, bar, i, b) == ProcessBar(c, bar, i, b) && Stays(b, ProcessBar(c, bar, i, b))
  {
    ExitsInOrder(c, bar, i, b);
    var b3 := AfterExits(c, bar, i, b);
    AlreadySorted(b3.pending, PendingNum, b3.acct.lastNum);
    TriggerOrdersNumbered(c, bar, i, b3, b3.pending);
  }

  function ScanSorted(c: Costs, bars: seq<Bar>, b: Book, lo: nat, hi: nat): Book
    requires hi <= |bars|
    decreases hi - lo
  {
    if lo >= hi then b else ScanSorted(c, bars, BarSorted(c, bars[lo], lo, b), lo + 1, hi)
  }

  lemma {:induction false} ScanInOrder(c: Costs, bars: seq<Bar>, b: Book, lo: nat, hi: nat)
    requires hi <= |bars| && Numbered(b)
    ensures ScanSorted(c, bars, b, lo, hi) == Scan(c, bars, b, lo, hi) && Stays(b, Scan(c, bars, b, lo, hi))
    decreases hi - lo
  {
    if lo < hi {
      BarInOrder(c, bars[lo], lo, b);
      ScanInOrder(c, bars, ProcessBar(c, bars[lo], lo, b), lo + 1, hi);
    }
  }

  // ---------------------------------------------------------------- the whole broker

  ghost predicate AllNumbered(b: Broker) {
    && |b.market| == |b.pending| == |b.positions|
    && forall k :: 0 <= k < |b.market| ==> Numbered(Focus(b, k))
  }

  lemma MergeNumbered(b: Broker, k: nat, r: Book)
    requires AllNumbered(b) && k < |b.market| && Stays(Focus(b, k), r)
    ensures AllNumbered(Merge(b, k, r))
  {
    forall j | 0 <= j < |b.market|
      ensures Numbered(Focus(Merge(b, k, r), j))
    {
      assert Numbered(Focus(b, j));
    }
  }

  /** A change that leaves every number as it is. */
  lemma SameNumbers(b: Broker, r: Broker)
    requires AllNumbered(b) && |r.market| == |r.pending| == |r.positions| == |b.market|
    requires b.acct.lastNum <= r.acct.lastNum && r.market == b.market && r.pending == b.pending
    requires forall k :: 0 <= k < |b.positions| ==> SamePositionNums(b.positions[k], r.positions[k])
    ensures AllNumbered(r)
  {
    forall j | 0 <= j < |b.market|
      ensures Numbered(Focus(r, j))
    {
      assert Numbered(Focus(b, j)) && SamePositionNums(b.positions[j], r.positions[j]);
    }
  }

  ghost predicate SamePositionNums(ps: seq<Position>, qs: seq<Position>) {
    |ps| == |qs| && forall n :: 0 <= n < |ps| ==> qs[n].num == ps[n].num
  }

  lemma SubmitNumbered(b: Broker, s: Signal, lots: real, now: int, tf: nat)
    requires AllNumbered(b) && s.symbol < |b.market|
    ensures AllNumbered(Submitted(b, s, lots, now, tf))
  {
    var x := Focus(b, s.symbol);
    var num := x.acct.lastNum + 1;
    SnocClimbs(x.market, Entry(num, s, lots), MarketNum, x.acct.lastNum);
    SnocClimbs(x.pending, PendingOrder(s, lots, now, ExpiryOf(s, now, tf), num), PendingNum, x.acct.lastNum);
    MergeNumbered(b, s.symbol, WithOrder(x, s, lots, now, tf));
  }

  lemma CancelNumbered(b: Broker, strategyId: string, id: string, now: int)
    requires AllNumbered(b)
    ensures AllNumbered(Cancelled(b, strategyId, id, now))
  {
    var f := FindPending(b.pending, 0, strategyId, id);
    if f.Some? {
      var k, x := f.value.0, Focus(b, f.value.0);
      RemoveClimbs(x.pending, f.value.1, PendingNum, x.acct.lastNum);
      MergeNumbered(b, k, x.(pending := Remove(x.pending, f.value.1)));
      MergeOne(b, k);
    } else {
      SameNumbers(b, Rejected(b, now, CancelOf, id, "no such pending order"));
    }
  }

  lemma MergeOne(b: Broker, k: nat)
    requires k < |b.market| == |b.pending| == |b.positions|
    ensures b.market[k := b.market[k]] == b.market
    ensures b.pending[k := b.pending[k]] == b.pending
    ensures b.positions[k := b.positions[k]] == b.positions
  {}

  lemma CloseRequestNumbered(b: Broker, strategyId: string, id: string, now: int, reason: ExitReason)
    requires AllNumbered(b)
    ensures AllNumbered(CloseRequest(b, strategyId, id, now, reason))
  {
    var h := FindHeld(b.positions, 0, strategyId, id);
    if h.Some? {
      var k, x := h.value.0, Focus(b, h.value.0);
      SnocClimbs(x.market, Exit(x.acct.lastNum + 1, id, reason), MarketNum, x.acct.lastNum);
      MergeNumbered(b, k, WithExit(x, id, reason));
      MergeOne(b, k);
    } else {
      SameNumbers(b, Rejected(b, now, CloseOf, id, "no such position"));
    }
  }

  lemma StopNumbered(symbols: seq<SymbolData>, b: Broker, strategyId: string, id: string, newStop: real, now: int)
    requires AllNumbered(b) && Shaped(symbols, b)
    ensures AllNumbered(StopModified(symbols, b, strategyId, id, newStop, now))
  {
    SameNumbers(b, StopModified(symbols, b, strategyId, id, newStop, now));
  }

  lemma {:induction false} SwapsNumbered(symbols: seq<SymbolData>, b: Broker, weekday: int, k: nat)
    requires AllNumbered(b) && Shaped(symbols, b)
    ensures AllNumbered(SwapsFrom(symbols, b, weekday, k))
    decreases |symbols| - k
  {
    if k < |symbols| {
      if b.lastIdx[k] < 0 {
        SwapsNumbered(symbols, b, weekday, k + 1);
      } else {
        var r := Swapped(b, k, symbols[k].costs, symbols[k].bars[b.lastIdx[k]].bidC, weekday);
        SameNumbers(b, r);
        SwapsNumbered(symbols, r, weekday, k + 1);
        OneMoreSwap(symbols, b, weekday, k, r);
      }
    }
  }

  lemma AdvanceNumbered(symbols: seq<SymbolData>, b: Broker, k: nat, hi: nat)
    requires AllNumbered(b) && Shaped(symbols, b) && k < |symbols| && hi <= |symbols[k].bars|
    ensures AllNumbered(Advanced(symbols, b, k, b.lastIdx[k] + 1, hi))
  {
    var lo := b.lastIdx[k] + 1;
    if lo < hi {
      assert Numbered(Focus(b, k));
      ScanInOrder(symbols[k].costs, symbols[k].bars, Focus(b, k), lo, hi);
      SameNumbers(b, b.(lastIdx := b.lastIdx[k := hi - 1]));
      MergeNumbered(b.(lastIdx := b.lastIdx[k := hi - 1]), k,
        Scan(symbols[k].costs, symbols[k].bars, Focus(b, k), lo, hi));
    }
  }

  lemma {:induction false} CloseEachNumbered(d: SymbolData, i: nat, x: Book, ps: seq<Position>, reason: ExitReason)
    requires i < |d.bars| && Numbered(x)
    ensures Stays(x, CloseEach(d, i, x, ps, reason))
    decreases |ps|
  {
    if ps != [] {
      var px := if ps[0].Side() == Buy then d.bars[i].bidC else d.bars[i].AskC();
      CloseNumbered(d.costs, d.bars[i], i, x, ps[0], px, reason);
      CloseEachNumbered(d, i, SimModel.Close(d.costs, d.bars[i], i, x, ps[0], px, reason), ps[1..], reason);
    }
  }

  lemma {:induction false} CloseSymbolsNumbered(
    symbols: seq<SymbolData>, b: Broker, byName: seq<nat>, reason: ExitReason)
    requires AllNumbered(b) && Shaped(symbols, b) && Names(symbols, byName)
    ensures AllNumbered(CloseSymbols(symbols, b, byName, reason))
    decreases |byName|
  {
    if byName != [] {
      var k := byName[0];
      if b.lastIdx[k] < 0 {
        CloseSymbolsNumbered(symbols, b, byName[1..], reason);
      } else {
        var x := Focus(b, k);
        assert Numbered(x);
        CloseEachNumbered(symbols[k], b.lastIdx[k], x, x.positions, reason);
        var r := Merge(b, k, CloseEach(symbols[k], b.lastIdx[k], x, x.positions, reason));
        MergeNumbered(b, k, CloseEach(symbols[k], b.lastIdx[k], x, x.positions, reason));
        CloseSymbolsNumbered(symbols, r, byName[1..], reason);
      }
    }
  }

  lemma AllClosedNumbered(symbols: seq<SymbolData>, b: Broker, byName: seq<nat>, reason: ExitReason)
    requires AllNumbered(b) && Shaped(symbols, b) && Names(symbols, byName)
    ensures AllNumbered(AllClosed(symbols, b, byName, reason))
  {
    CloseSymbolsNumbered(symbols, b, byName, reason);
    var m, r := CloseSymbols(symbols, b, byName, reason), AllClosed(symbols, b, byName, reason);
    forall j | 0 <= j < |r.market|
      ensures Numbered(Focus(r, j))
    {
      assert Numbered(Focus(m, j));
    }
  }

  lemma ActionNumbered(symbols: seq<SymbolData>, b: Broker, a: Action)
    requires AllNumbered(b) && Shaped(symbols, b) && Proper(symbols, a)
    ensures AllNumbered(Apply(symbols, b, a))
  {
    match a
    case Submit(s, lots, now, tf) => SubmitNumbered(b, s, lots, now, tf);
    case CancelOrder(strategyId, id, now) => CancelNumbered(b, strategyId, id, now);
    case ClosePosition(strategyId, id, now) => CloseRequestNumbered(b, strategyId, id, now, CloseRequested);
    case MoveStop(strategyId, id, stop, now) => StopNumbered(symbols, b, strategyId, id, stop, now);
    case AdvanceTo(k, hi) => AdvanceNumbered(symbols, b, k, hi);
    case Rollover(weekday) => SwapsNumbered(symbols, b, weekday, 0);
    case CloseOut(byName) => AllClosedNumbered(symbols, b, byName, EndOfData);
  }

  lemma {:induction false} RunNumbered(symbols: seq<SymbolData>, b: Broker, actions: seq<Action>)
    requires AllNumbered(b) && Shaped(symbols, b) && forall n :: 0 <= n < |actions| ==> Proper(symbols, actions[n])
    ensures AllNumbered(Run(symbols, b, actions))
    decreases |actions|
  {
    if actions != [] {
      ActionNumbered(symbols, b, actions[0]);
      RunNumbered(symbols, Apply(symbols, b, actions[0]), actions[1..]);
    }
  }

  /** In every reachable state each list is in the order of its numbers, so that processing any stretch of bars with
      the lists sorted before every phase is processing it in list order. */
  lemma HandledInOrder(symbols: seq<SymbolData>, balance: real, actions: seq<Action>, k: nat, hi: nat)
    requires forall n :: 0 <= n < |actions| ==> Proper(symbols, actions[n])
    requires k < |symbols| && hi <= |symbols[k].bars|
    ensures Shaped(symbols, Fresh(|symbols|, balance))
    ensures var b := Run(symbols, Fresh(|symbols|, balance), actions);
      && SortBy(b.market[k], MarketNum) == b.market[k] && SortBy(b.pending[k], PendingNum) == b.pending[k]
      && SortBy(b.positions[k], PositionNum) == b.positions[k]
      && forall lo: nat :: ScanSorted(symbols[k].costs, symbols[k].bars, Focus(b, k), lo, hi)
           == Scan(symbols[k].costs, symbols[k].bars, Focus(b, k), lo, hi)
  {
    var b := Run(symbols, Fresh(|symbols|, balance), actions);
    assert AllNumbered(Fresh(|symbols|, balance));
    RunNumbered(symbols, Fresh(|symbols|, balance), actions);
    assert Numbered(Focus(b, k));
    AlreadySorted(b.market[k], MarketNum, b.acct.lastNum);
    AlreadySorted(b.pending[k], PendingNum, b.acct.lastNum);
    AlreadySorted(b.positions[k], PositionNum, b.acct.lastNum);
    forall lo: nat
      ensures ScanSorted(symbols[k].costs, symbols[k].bars, Focus(b, k), lo, hi)
        == Scan(symbols[k].costs, symbols[k].bars, Focus(b, k), lo, hi)
    {
      ScanInOrder(symbols[k].costs, symbols[k].bars, Focus(b, k), lo, hi);
    }
  }
}
