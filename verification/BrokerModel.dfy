/** The whole fill simulator as a value, and what each of its calls does to it. */
module BrokerModel {
  import opened Types
  import opened SimModel

  /** The whole broker as a value; lists are indexed by symbol. `lastIdx` is -1 before the first bar. */
  datatype Broker = Broker(
    market: seq<seq<MarketOrder>>, pending: seq<seq<PendingOrder>>, positions: seq<seq<Position>>,
    lastIdx: seq<int>, acct: Account)

  ghost predicate Shaped(symbols: seq<SymbolData>, b: Broker) {
    && |b.market| == |b.pending| == |b.positions| == |b.lastIdx| == |symbols|
    && forall k :: 0 <= k < |symbols| ==> -1 <= b.lastIdx[k] < |symbols[k].bars|
  }

  /** Open times ascend, which is what the search for an expiry relies on. */
  ghost predicate Ascending(bars: seq<Bar>) {
    forall i, j :: 0 <= i < j < |bars| ==> bars[i].openTime < bars[j].openTime && bars[i].closeTime < bars[j].closeTime
  }

  function Focus(b: Broker, k: nat): Book
    requires k < |b.market| == |b.pending| == |b.positions|
  {
    Book(b.market[k], b.pending[k], b.positions[k], b.acct)
  }

  function Merge(b: Broker, k: nat, x: Book): Broker
    requires k < |b.market| == |b.pending| == |b.positions|
  {
    b.(market := b.market[k := x.market], pending := b.pending[k := x.pending],
       positions := b.positions[k := x.positions], acct := x.acct)
  }

  lemma MergeTwice(b: Broker, k: nat, x: Book, y: Book)
    requires k < |b.market| == |b.pending| == |b.positions|
    ensures Merge(Merge(b, k, x), k, y) == Merge(b, k, y)
    ensures Focus(Merge(b, k, x), k) == x
    ensures Merge(b, k, Focus(b, k)) == b
  {
    assert b.market[k := x.market][k := y.market] == b.market[k := y.market];
    assert b.pending[k := x.pending][k := y.pending] == b.pending[k := y.pending];
    assert b.positions[k := x.positions][k := y.positions] == b.positions[k := y.positions];
    assert b.market[k := b.market[k]] == b.market;
    assert b.pending[k := b.pending[k]] == b.pending;
    assert b.positions[k := b.positions[k]] == b.positions;
  }

  // ---------------------------------------------------------------- order intake

  function ExpiryOf(s: Signal, now: int, tfMinutes: nat): Option<int> {
    match s.expiryBars
    case None => None
    case Some(n) => Some(now + n * tfMinutes * NS_PER_MINUTE)
  }

  function Submitted(b: Broker, s: Signal, lots: real, now: int, tfMinutes: nat): Broker
    requires s.symbol < |b.market| == |b.pending| == |b.positions|
  {
    Merge(b, s.symbol, WithOrder(Focus(b, s.symbol), s, lots, now, tfMinutes))
  }

  function WithOrder(x: Book, s: Signal, lots: real, now: int, tfMinutes: nat): Book {
    var num := x.acct.lastNum + 1;
    var acct := x.acct.(lastNum := num);
    if s.entryType == Market then x.(market := x.market + [Entry(num, s, lots)], acct := acct)
    else x.(pending := x.pending + [PendingOrder(s, lots, now, ExpiryOf(s, now, tfMinutes), num)], acct := acct)
  }

  function Rejected(b: Broker, now: int, what: What, id: string, why: string): Broker {
    b.(acct := b.acct.(rejections := b.acct.rejections + [Rejection(now, what, id, why)]))
  }

  function FindOrder(os: seq<PendingOrder>, strategyId: string, id: string): (r: Option<PendingOrder>)
    ensures r.Some? ==> r.value in os
  {
    if os == [] then None
    else if os[0].signal.id == id && os[0].signal.strategyId == strategyId then Some(os[0])
    else FindOrder(os[1..], strategyId, id)
  }

  /** The first symbol from k on that holds the order, and the order. */
  function FindPending(
    pending: seq<seq<PendingOrder>>, k: nat, strategyId: string, id: string): (r: Option<(nat, PendingOrder)>)
    ensures r.Some? ==> k <= r.value.0 < |pending| && r.value.1 in pending[r.value.0]
    decreases |pending| - k
  {
    if k >= |pending| then None
    else match FindOrder(pending[k], strategyId, id)
      case Some(o) => Some((k, o))
      case None => FindPending(pending, k + 1, strategyId, id)
  }

  function Cancelled(b: Broker, strategyId: string, id: string, now: int): Broker {
    match FindPending(b.pending, 0, strategyId, id)
    case Some(f) => b.(pending := b.pending[f.0 := Remove(b.pending[f.0], f.1)])
    case None => Rejected(b, now, CancelOf, id, "no such pending order")
  }

  function FindOwn(ps: seq<Position>, strategyId: string, id: string): (r: Option<nat>)
    ensures r.Some? ==> r.value < |ps| && ps[r.value].Id() == id
  {
    if ps == [] then None
    else if ps[0].Id() == id && ps[0].signal.strategyId == strategyId then Some(0)
    else match FindOwn(ps[1..], strategyId, id)
      case Some(n) => Some(n + 1)
      case None => None
  }

  /** The first symbol from k on that holds the position, and its place in that symbol's list. */
  function FindHeld(positions: seq<seq<Position>>, k: nat, strategyId: string, id: string): (r: Option<(nat, nat)>)
    ensures r.Some? ==> k <= r.value.0 < |positions| && r.value.1 < |positions[r.value.0]|
    decreases |positions| - k
  {
    if k >= |positions| then None
    else match FindOwn(positions[k], strategyId, id)
      case Some(n) => Some((k, n))
      case None => FindHeld(positions, k + 1, strategyId, id)
  }

  predicate ClosePending(os: seq<MarketOrder>, id: string) {
    exists o :: o in os && o.Exit? && o.positionId == id
  }

  function CloseRequest(b: Broker, strategyId: string, id: string, now: int, reason: ExitReason): Broker
    requires |b.market| == |b.positions|
  {
    match FindHeld(b.positions, 0, strategyId, id)
    case None => Rejected(b, now, CloseOf, id, "no such position")
    case Some(h) =>
      if ClosePending(b.market[h.0], id) then b
      else
        var num := b.acct.lastNum + 1;
        b.(market := b.market[h.0 := b.market[h.0] + [Exit(num, id, reason)]], acct := b.acct.(lastNum := num))
  }

  /** A new stop is accepted only strictly between the old stop and the last price. */
  predicate Tightens(p: Position, newStop: real, bar: Bar) {
    if p.Side() == Buy then p.stop < newStop < bar.bidC else bar.AskC() < newStop < p.stop
  }

  function StopModified(
    symbols: seq<SymbolData>, b: Broker, strategyId: string, id: string, newStop: real, now: int): Broker
    requires Shaped(symbols, b)
  {
    match FindHeld(b.positions, 0, strategyId, id)
    case None => Rejected(b, now, ModifyOf, id, "no such position")
    case Some(h) =>
      var p, i := b.positions[h.0][h.1], b.lastIdx[h.0];
      if i < 0 then Rejected(b, now, ModifyOf, id, "no price yet")
      else if !Tightens(p, newStop, symbols[h.0].bars[i]) then
        Rejected(b, now, ModifyOf, id, "only tightening stops is allowed")
      else b.(positions := b.positions[h.0 := b.positions[h.0][h.1 := p.(stop := newStop)]])
  }

  // ---------------------------------------------------------------- the account

  function Advanced(symbols: seq<SymbolData>, b: Broker, k: nat, lo: nat, hi: nat): Broker
    requires Shaped(symbols, b) && k < |symbols| && hi <= |symbols[k].bars|
  {
    if hi <= lo then b
    else
      Merge(b.(lastIdx := b.lastIdx[k := hi - 1]), k,
            Scan(symbols[k].costs, symbols[k].bars, Focus(b, k), lo, hi))
  }

  function SwapPerNight(c: Costs, p: Position, price: real): real {
    var rate := if p.Side() == Buy then c.swapLong else c.swapShort;
    match c.swapMode
    case Points => rate * c.tickSize * c.contractSize * p.lots * c.toAccount
    case Money => rate * p.lots
    case Percent => rate / 100.0 / 360.0 * price * c.contractSize * p.lots * c.toAccount
  }

  function SwapAmount(c: Costs, p: Position, price: real, weekday: int): real {
    (if weekday == c.tripleSwapWeekday then 3.0 else 1.0) * SwapPerNight(c, p, price)
  }

  function WithSwap(c: Costs, p: Position, price: real, weekday: int): Position {
    p.(swap := p.swap + SwapAmount(c, p, price, weekday))
  }

  function WithSwaps(c: Costs, ps: seq<Position>, price: real, weekday: int): (r: seq<Position>)
    ensures |r| == |ps|
    ensures forall n :: 0 <= n < |ps| ==> r[n] == WithSwap(c, ps[n], price, weekday)
  {
    if ps == [] then []
    else WithSwaps(c, ps[..|ps| - 1], price, weekday) + [WithSwap(c, ps[|ps| - 1], price, weekday)]
  }

  function SwapTotal(c: Costs, ps: seq<Position>, price: real, weekday: int): real {
    if ps == [] then 0.0
    else SwapTotal(c, ps[..|ps| - 1], price, weekday) + SwapAmount(c, ps[|ps| - 1], price, weekday)
  }

  function SwapsFrom(symbols: seq<SymbolData>, b: Broker, weekday: int, k: nat): (r: Broker)
    requires Shaped(symbols, b)
    ensures Shaped(symbols, r) && r.lastIdx == b.lastIdx
    decreases |symbols| - k
  {
    if k >= |symbols| then b
    else if b.lastIdx[k] < 0 then SwapsFrom(symbols, b, weekday, k + 1)
    else
      var c, price := symbols[k].costs, symbols[k].bars[b.lastIdx[k]].bidC;
      SwapsFrom(symbols,
        b.(positions := b.positions[k := WithSwaps(c, b.positions[k], price, weekday)],
           acct := b.acct.(balance := b.acct.balance + SwapTotal(c, b.positions[k], price, weekday))),
        weekday, k + 1)
  }

  function SwapsCharged(symbols: seq<SymbolData>, b: Broker, weekday: int): (r: Broker)
    requires Shaped(symbols, b)
    ensures Shaped(symbols, r) && r.lastIdx == b.lastIdx
  {
    SwapsFrom(symbols, b, weekday, 0)
  }

  function FloatingOf(c: Costs, ps: seq<Position>, bar: Bar): real {
    if ps == [] then 0.0
    else
      FloatingOf(c, ps[..|ps| - 1], bar) +
      var p := ps[|ps| - 1];
      (if p.Side() == Buy then bar.bidC - p.entryPrice else p.entryPrice - bar.AskC())
        * c.contractSize * p.lots * c.toAccount
  }

  function FloatingUpTo(symbols: seq<SymbolData>, b: Broker, n: nat): real
    requires Shaped(symbols, b) && n <= |symbols|
  {
    if n == 0 then 0.0
    else
      FloatingUpTo(symbols, b, n - 1) +
      if b.lastIdx[n - 1] < 0 then 0.0
      else FloatingOf(symbols[n - 1].costs, b.positions[n - 1], symbols[n - 1].bars[b.lastIdx[n - 1]])
  }

  function Equity(symbols: seq<SymbolData>, b: Broker): real
    requires Shaped(symbols, b)
  {
    b.acct.balance + FloatingUpTo(symbols, b, |symbols|)
  }

  function CloseEach(d: SymbolData, i: nat, x: Book, ps: seq<Position>, reason: ExitReason): (r: Book)
    requires i < |d.bars|
    ensures r.market == x.market && r.pending == x.pending
    decreases |ps|
  {
    if ps == [] then x
    else
      var px := if ps[0].Side() == Buy then d.bars[i].bidC else d.bars[i].AskC();
      CloseEach(d, i, SimModel.Close(d.costs, d.bars[i], i, x, ps[0], px, reason), ps[1..], reason)
  }

  /** Symbols listed by name: each entry is a symbol of the run. */
  ghost predicate Names(symbols: seq<SymbolData>, byName: seq<nat>) {
    forall n :: 0 <= n < |byName| ==> byName[n] < |symbols|
  }

  /** Symbols are visited in the order of their names. */
  function CloseSymbols(symbols: seq<SymbolData>, b: Broker, byName: seq<nat>, reason: ExitReason): (r: Broker)
    requires Shaped(symbols, b) && Names(symbols, byName)
    ensures Shaped(symbols, r) && r.lastIdx == b.lastIdx
    decreases |byName|
  {
    if byName == [] then b
    else
      var k := byName[0];
      if b.lastIdx[k] < 0 then CloseSymbols(symbols, b, byName[1..], reason)
      else
        var x := Focus(b, k);
        CloseSymbols(symbols, Merge(b, k, CloseEach(symbols[k], b.lastIdx[k], x, x.positions, reason)), byName[1..],
          reason)
  }

  function AllClosed(symbols: seq<SymbolData>, b: Broker, byName: seq<nat>, reason: ExitReason): (r: Broker)
    requires Shaped(symbols, b) && Names(symbols, byName)
    ensures Shaped(symbols, r) && r.lastIdx == b.lastIdx
  {
    CloseSymbols(symbols, b, byName, reason).(
      pending := seq(|symbols|, (_: int) => []), market := seq(|symbols|, (_: int) => []))
  }
}
