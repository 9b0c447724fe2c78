/** What the fill simulator does with one bar, and what it should mean to advance over many bars:
    the plain bar-by-bar simulator that the event-jumping broker has to agree with. */
module SimModel {
  import opened Types

  /** One M1 bar with the spread and slippage modelled for it. */
  datatype Bar = Bar(
    openTime: int, closeTime: int,
    bidO: real, bidH: real, bidL: real, bidC: real,
    spread: real, slip: real)
  {
    function AskO(): real { bidO + spread }
    function AskH(): real { bidH + spread }
    function AskL(): real { bidL + spread }
    function AskC(): real { bidC + spread }
  }

  datatype SwapMode = Points | Money | Percent

  datatype Costs = Costs(
    tickSize: real, contractSize: real, commissionPerLotSide: real,
    swapLong: real, swapShort: real, swapMode: SwapMode, tripleSwapWeekday: int,
    toAccount: real)

  datatype SymbolData = SymbolData(costs: Costs, bars: seq<Bar>)

  datatype ExitReason = StopHit | TargetHit | CloseRequested | EndOfData | Forced

  datatype PendingOrder = PendingOrder(signal: Signal, lots: real, activeFrom: int, expires: Option<int>, num: nat)

  datatype MarketOrder =
    | Entry(num: nat, signal: Signal, lots: real)
    | Exit(num: nat, positionId: string, reason: ExitReason)

  datatype Position = Position(
    signal: Signal, lots: real, entryPrice: real, entryIdx: nat, entryTime: int,
    stop: real, moneyAtRisk: real, commission: real, swap: real, num: nat)
  {
    function Id(): string { signal.id }
    function Side(): Side { signal.side }
  }

  datatype Trade = Trade(
    signal: Signal, lots: real, entryTime: int, entryPrice: real,
    exitTime: int, exitPrice: real, reason: ExitReason,
    gross: real, commission: real, swap: real, net: real, moneyAtRisk: real, barsHeld: int)

  datatype FillKind = EntryFill | ExitFill(reason: ExitReason)
  datatype Fill = Fill(signal: Signal, kind: FillKind, price: real, lots: real, at: int)

  datatype What = EntryOf | CancelOf | CloseOf | ModifyOf | SignalOf
  datatype Rejection = Rejection(at: int, what: What, id: string, why: string)

  datatype Account = Account(
    balance: real, trades: seq<Trade>, fills: seq<Fill>, rejections: seq<Rejection>, lastNum: nat)

  /** One symbol's orders and positions together with the account they share. */
  datatype Book = Book(market: seq<MarketOrder>, pending: seq<PendingOrder>, positions: seq<Position>, acct: Account)

  // ---------------------------------------------------------------- opening and closing

  predicate BeyondStop(s: Signal, px: real) {
    || (s.side == Buy && s.stopPrice >= px)
    || (s.side == Sell && s.stopPrice <= px)
    || Abs(px - s.stopPrice) == 0.0
  }

  function RiskOf(c: Costs, s: Signal, px: real, lots: real): real {
    Abs(px - s.stopPrice) * c.contractSize * lots * c.toAccount
  }

  function Opened(c: Costs, bar: Bar, i: nat, b: Book, s: Signal, lots: real, px: real): Position {
    Position(s, lots, px, i, bar.openTime, s.stopPrice, RiskOf(c, s, px, lots),
             c.commissionPerLotSide * lots, 0.0, b.acct.lastNum + 1)
  }

  /** A fill beyond the stop is recorded as a rejection and opens nothing. */
  function Open(c: Costs, bar: Bar, i: nat, b: Book, s: Signal, lots: real, px: real): Book {
    if BeyondStop(s, px) then
      b.(acct := b.acct.(rejections :=
        b.acct.rejections + [Rejection(bar.openTime, EntryOf, s.id, "fill price beyond stop")]))
    else
      var p := Opened(c, bar, i, b, s, lots, px);
      b.(positions := b.positions + [p],
         acct := b.acct.(
           balance := b.acct.balance - p.commission,
           fills := b.acct.fills + [Fill(s, EntryFill, px, lots, bar.openTime)],
           lastNum := b.acct.lastNum + 1))
  }

  function Gross(c: Costs, p: Position, px: real): real {
    (if p.Side() == Buy then 1.0 else -1.0) * (px - p.entryPrice) * c.contractSize * p.lots * c.toAccount
  }

  function Closed(c: Costs, bar: Bar, i: nat, p: Position, px: real, reason: ExitReason): Trade {
    var gross := Gross(c, p, px);
    var commission := p.commission + c.commissionPerLotSide * p.lots;
    Trade(p.signal, p.lots, p.entryTime, p.entryPrice,
          if reason == CloseRequested then bar.openTime else bar.closeTime, px, reason,
          gross, commission, p.swap, gross - commission + p.swap, p.moneyAtRisk, i - p.entryIdx + 1)
  }

  function Close(c: Costs, bar: Bar, i: nat, b: Book, p: Position, px: real, reason: ExitReason): Book {
    var t := Closed(c, bar, i, p, px, reason);
    b.(positions := Remove(b.positions, p),
       acct := b.acct.(
         balance := b.acct.balance + (t.gross - c.commissionPerLotSide * p.lots),
         trades := b.acct.trades + [t],
         fills := b.acct.fills + [Fill(p.signal, ExitFill(reason), px, p.lots, t.exitTime)]))
  }

  // ---------------------------------------------------------------- triggers

  /** Does this bar take the position out, and where? The stop is looked at before the target. */
  function ExitPrice(bar: Bar, p: Position, i: nat, allowTarget: bool): Option<(real, ExitReason)> {
    if p.Side() == Buy then
      if bar.bidL <= p.stop then
        var gap := bar.bidO <= p.stop && i != p.entryIdx;
        Some(((if gap then bar.bidO else p.stop) - bar.slip, StopHit))
      else if allowTarget && p.signal.targetPrice.Some? && bar.bidH >= p.signal.targetPrice.value then
        Some((p.signal.targetPrice.value, TargetHit))
      else None
    else
      if bar.AskH() >= p.stop then
        var gap := bar.AskO() >= p.stop && i != p.entryIdx;
        Some(((if gap then bar.AskO() else p.stop) + bar.slip, StopHit))
      else if allowTarget && p.signal.targetPrice.Some? && bar.AskL() <= p.signal.targetPrice.value then
        Some((p.signal.targetPrice.value, TargetHit))
      else None
  }

  function CheckExit(c: Costs, bar: Bar, i: nat, b: Book, p: Position, allowTarget: bool): Book {
    if p !in b.positions then b
    else match ExitPrice(bar, p, i, allowTarget)
      case None => b
      case Some(x) => Close(c, bar, i, b, p, x.0, x.1)
  }

  function LevelOf(s: Signal): real { if s.entryPrice.Some? then s.entryPrice.value else 0.0 }

  predicate PendingTriggers(c: Costs, bar: Bar, o: PendingOrder) {
    var s, px := o.signal, LevelOf(o.signal);
    && (if s.entryType == Limit then
          if s.side == Buy then bar.AskL() <= px - c.tickSize else bar.bidH >= px + c.tickSize
        else
          if s.side == Buy then bar.AskH() >= px else bar.bidL <= px)
    && bar.openTime >= o.activeFrom
  }

  predicate Expired(bar: Bar, o: PendingOrder) { o.expires.Some? && bar.openTime >= o.expires.value }

  predicate ExitTriggers(bar: Bar, p: Position) {
    if p.Side() == Buy then
      bar.bidL <= p.stop || (p.signal.targetPrice.Some? && bar.bidH >= p.signal.targetPrice.value)
    else
      bar.AskH() >= p.stop || (p.signal.targetPrice.Some? && bar.AskL() <= p.signal.targetPrice.value)
  }

  /** Does the bar concern any open item? These are the bars that the broker stops at. */
  predicate Eventful(c: Costs, bar: Bar, b: Book) {
    || b.market != []
    || (exists o :: o in b.pending && (Expired(bar, o) || PendingTriggers(c, bar, o)))
    || (exists p :: p in b.positions && ExitTriggers(bar, p))
  }

  // ---------------------------------------------------------------- one bar

  function FillMarketOrder(c: Costs, bar: Bar, i: nat, b: Book, o: MarketOrder): Book {
    match o
    case Entry(_, s, lots) =>
      Open(c, bar, i, b, s, lots, if s.side == Buy then bar.AskO() + bar.slip else bar.bidO - bar.slip)
    case Exit(_, id, reason) =>
      match FindPosition(b.positions, id)
      case None => b
      case Some(p) =>
        Close(c, bar, i, b, p, if p.Side() == Buy then bar.bidO - bar.slip else bar.AskO() + bar.slip, reason)
  }

  function FindPosition(ps: seq<Position>, id: string): Option<Position> {
    if ps == [] then None else if ps[0].Id() == id then Some(ps[0]) else FindPosition(ps[1..], id)
  }

  function FillMarket(c: Costs, bar: Bar, i: nat, b: Book, orders: seq<MarketOrder>): Book
    decreases |orders|
  {
    if orders == [] then b
    else FillMarket(c, bar, i, FillMarketOrder(c, bar, i, b, orders[0]), orders[1..])
  }

  function Unexpired(bar: Bar, orders: seq<PendingOrder>): seq<PendingOrder> {
    if orders == [] then []
    else (if Expired(bar, orders[0]) then [] else [orders[0]]) + Unexpired(bar, orders[1..])
  }

  function CheckExits(c: Costs, bar: Bar, i: nat, b: Book, ps: seq<Position>): Book
    decreases |ps|
  {
    if ps == [] then b
    else CheckExits(c, bar, i, CheckExit(c, bar, i, b, ps[0], true), ps[1..])
  }

  function TriggerPrice(bar: Bar, s: Signal): real {
    if s.entryType == Stop then
      if s.side == Buy then Max(LevelOf(s), bar.AskO()) + bar.slip else Min(LevelOf(s), bar.bidO) - bar.slip
    else LevelOf(s)
  }

  /** A pending entry that fills may be stopped out on the same bar, but cannot reach its target on it. */
  function TriggerOrder(c: Costs, bar: Bar, i: nat, b: Book, o: PendingOrder): Book {
    if !PendingTriggers(c, bar, o) then b
    else
      var b1 := b.(pending := Remove(b.pending, o));
      var px := TriggerPrice(bar, o.signal);
      var b2 := Open(c, bar, i, b1, o.signal, o.lots, px);
      if BeyondStop(o.signal, px) then b2
      else CheckExit(c, bar, i, b2, Opened(c, bar, i, b1, o.signal, o.lots, px), false)
  }

  function TriggerOrders(c: Costs, bar: Bar, i: nat, b: Book, orders: seq<PendingOrder>): Book
    decreases |orders|
  {
    if orders == [] then b
    else TriggerOrders(c, bar, i, TriggerOrder(c, bar, i, b, orders[0]), orders[1..])
  }

  function AfterMarket(c: Costs, bar: Bar, i: nat, b: Book): Book {
    var b1 := FillMarket(c, bar, i, b.(market := []), b.market);
    b1.(pending := Unexpired(bar, b1.pending))
  }

  function AfterExits(c: Costs, bar: Bar, i: nat, b: Book): Book {
    var b2 := AfterMarket(c, bar, i, b);
    CheckExits(c, bar, i, b2, b2.positions)
  }

  /** Market orders at the open, expiries, exits, then pending triggers. */
  function ProcessBar(c: Costs, bar: Bar, i: nat, b: Book): Book {
    var b3 := AfterExits(c, bar, i, b);
    TriggerOrders(c, bar, i, b3, b3.pending)
  }

  /** The plain simulator: every bar in [lo, hi), in order. */
  function Scan(c: Costs, bars: seq<Bar>, b: Book, lo: nat, hi: nat): Book
    requires hi <= |bars|
    decreases hi - lo
  {
    if lo >= hi then b else Scan(c, bars, ProcessBar(c, bars[lo], lo, b), lo + 1, hi)
  }
}
