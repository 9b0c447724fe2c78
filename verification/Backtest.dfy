/** The backtest event loop as a function of the data: what one event time does, and what a whole run is. */
module Backtest {
  import opened Types
  import opened SimModel
  import opened BrokerModel

  /** One-minute bars per symbol for the broker, and the closed bars of every subscribed series. */
  datatype Data = Data(symbols: seq<SymbolData>, series: seq<seq<Candle>>)

  datatype Request =
    | Emit(signal: Signal)
    | CancelEntry(id: string)
    | CloseOpen(id: string)
    | MoveStopTo(id: string, stop: real)

  /** Everything a strategy can look at when it is called. */
  datatype View = View(now: int, visible: seq<seq<Candle>>, broker: Broker)

  datatype GateRequest = GateRequest(
    signal: Signal, refEntry: real, spread: real, equity: real, openRisk: real, costs: Costs)

  /** The strategy (any deterministic one, with its own state S), the order gate and the subscriptions. */
  datatype Env<!S> = Env(
    strategyId: string, version: string,
    minutes: seq<nat>,
    warmup: seq<nat>,
    onFill: (S, View, Fill) -> (S, seq<Request>),
    onBar: (S, View, nat, Candle) -> (S, seq<Request>),
    decide: GateRequest -> (real, string))

  /** What raised, if anything did: the strategy broke its contract, or a series bar was passed over. */
  datatype Halt = Going | StrategyError | BarSkipped

  /** `next[k]` counts the bars of series k already visible. */
  datatype Run<S> = Run(
    broker: Broker, next: seq<nat>, strategy: S,
    signals: seq<Signal>, seen: set<string>, equity: seq<(int, real)>, halt: Halt)
  {
    predicate Failed() { halt != Going }
  }

  ghost predicate Fits<S>(env: Env<S>, data: Data, run: Run<S>) {
    && Shaped(data.symbols, run.broker)
    && |run.next| == |data.series| == |env.minutes| == |env.warmup|
    && (forall k :: 0 <= k < |data.series| ==> run.next[k] <= |data.series[k]|)
  }

  function ViewOf<S>(data: Data, run: Run<S>, now: int): View
    requires |run.next| == |data.series| && forall k :: 0 <= k < |data.series| ==> run.next[k] <= |data.series[k]|
  {
    View(now, seq(|data.series|, k requires 0 <= k < |data.series| => data.series[k][..run.next[k]]), run.broker)
  }

  // ---------------------------------------------------------------- requests

  /** A signal must be the strategy's own, created now, on a known symbol, with an id never used before. */
  function CheckRequests<S>(
    env: Env<S>, symbols: nat, reqs: seq<Request>, now: int, seen: set<string>): (r: Option<set<string>>)
    ensures r.Some? ==> forall n :: 0 <= n < |reqs| && reqs[n].Emit? ==>
      reqs[n].signal.symbol < symbols && reqs[n].signal.createdAt == now
    decreases |reqs|
  {
    if reqs == [] then Some(seen)
    else if !reqs[0].Emit? then CheckRequests(env, symbols, reqs[1..], now, seen)
    else
      var s := reqs[0].signal;
      if s.strategyId != env.strategyId || s.version != env.version then None
      else if s.createdAt != now then None
      else if s.symbol >= symbols then None
      else if s.id in seen then None
      else CheckRequests(env, symbols, reqs[1..], now, seen + {s.id})
  }

  function OpenRiskOf(c: Costs, ps: seq<Position>): real {
    if ps == [] then 0.0
    else
      var p := ps[0];
      var perUnit := if p.Side() == Buy then p.entryPrice - p.stop else p.stop - p.entryPrice;
      Max(0.0, perUnit) * c.contractSize * p.lots * c.toAccount + OpenRiskOf(c, ps[1..])
  }

  function OpenRisk(symbols: seq<SymbolData>, b: Broker, n: nat): real
    requires Shaped(symbols, b) && n <= |symbols|
  {
    if n == 0 then 0.0 else OpenRisk(symbols, b, n - 1) + OpenRiskOf(symbols[n - 1].costs, b.positions[n - 1])
  }

  function Ask<S>(env: Env<S>, symbols: seq<SymbolData>, b: Broker, s: Signal): (real, string)
    requires Shaped(symbols, b) && s.symbol < |symbols| && b.lastIdx[s.symbol] >= 0
  {
    var d := symbols[s.symbol];
    var bar := d.bars[b.lastIdx[s.symbol]];
    var refEntry := if s.entryType == Market then if s.side == Buy then bar.AskC() else bar.bidC else LevelOf(s);
    env.decide(GateRequest(s, refEntry, bar.spread, Equity(symbols, b), OpenRisk(symbols, b, |symbols|), d.costs))
  }

  function EntryOutcome<S>(
    env: Env<S>, symbols: seq<SymbolData>, b: Broker, s: Signal, now: int, minutes: nat): (r: Broker)
    requires Shaped(symbols, b) && s.symbol < |symbols|
    ensures Shaped(symbols, r)
  {
    if b.lastIdx[s.symbol] < 0 then Rejected(b, now, SignalOf, s.id, "no price yet")
    else
      var (lots, why) := Ask(env, symbols, b, s);
      if lots <= 0.0 then Rejected(b, now, SignalOf, s.id, why) else Submitted(b, s, lots, now, minutes)
  }

  function HandleOne<S>(env: Env<S>, data: Data, run: Run<S>, req: Request, now: int, minutes: nat): (r: Run<S>)
    requires Fits(env, data, run) && (req.Emit? ==> req.signal.symbol < |data.symbols|)
    ensures Fits(env, data, r) && r == run.(broker := r.broker, signals := r.signals)
  {
    match req
    case Emit(s) =>
      run.(signals := run.signals + [s], broker := EntryOutcome(env, data.symbols, run.broker, s, now, minutes))
    case CancelEntry(id) => run.(broker := Cancelled(run.broker, env.strategyId, id, now))
    case CloseOpen(id) => run.(broker := CloseRequest(run.broker, env.strategyId, id, now, CloseRequested))
    case MoveStopTo(id, stop) =>
      run.(broker := StopModified(data.symbols, run.broker, env.strategyId, id, stop, now))
  }

  function HandleAll<S>(env: Env<S>, data: Data, run: Run<S>, reqs: seq<Request>, now: int, minutes: nat): (r: Run<S>)
    requires Fits(env, data, run)
    requires forall n :: 0 <= n < |reqs| && reqs[n].Emit? ==> reqs[n].signal.symbol < |data.symbols|
    ensures Fits(env, data, r)
    decreases |reqs|
  {
    if reqs == [] then run
    else HandleAll(env, data, HandleOne(env, data, run, reqs[0], now, minutes), reqs[1..], now, minutes)
  }

  /** Check what the strategy returned, then act on it; a breach of contract stops the run. */
  function Handle<S>(env: Env<S>, data: Data, run: Run<S>, reqs: seq<Request>, now: int, minutes: nat): (r: Run<S>)
    requires Fits(env, data, run)
    ensures Fits(env, data, r)
  {
    match CheckRequests(env, |data.symbols|, reqs, now, run.seen)
    case None => run.(halt := StrategyError)
    case Some(seen) => HandleAll(env, data, run.(seen := seen), reqs, now, minutes)
  }

  // ---------------------------------------------------------------- one event time

  /** How many bars have closed at or before t. */
  function ClosedBy(bars: seq<Bar>, t: int): (n: nat)
    ensures n <= |bars|
  {
    if bars == [] || bars[|bars| - 1].closeTime <= t then |bars| else ClosedBy(bars[..|bars| - 1], t)
  }

  function AdvanceFrom(symbols: seq<SymbolData>, b: Broker, t: int, k: nat): (r: Broker)
    requires Shaped(symbols, b)
    ensures Shaped(symbols, r)
    decreases |symbols| - k
  {
    if k >= |symbols| then b
    else AdvanceFrom(symbols, Advanced(symbols, b, k, b.lastIdx[k] + 1, ClosedBy(symbols[k].bars, t)), t, k + 1)
  }

  function OneFill<S>(env: Env<S>, data: Data, run: Run<S>, fill: Fill, t: int): (r: Run<S>)
    requires Fits(env, data, run) && |env.minutes| > 0
    ensures Fits(env, data, r)
  {
    if run.Failed() then run
    else
      var (strategy, reqs) := env.onFill(run.strategy, ViewOf(data, run, t), fill);
      Handle(env, data, run.(strategy := strategy), reqs, t, env.minutes[0])
  }

  function Fills<S>(env: Env<S>, data: Data, run: Run<S>, fills: seq<Fill>, t: int): (r: Run<S>)
    requires Fits(env, data, run) && |env.minutes| > 0
    ensures Fits(env, data, r)
    decreases |fills|
  {
    if fills == [] then run else Fills(env, data, OneFill(env, data, run, fills[0], t), fills[1..], t)
  }

  function TakeFills<S>(run: Run<S>): Run<S> { run.(broker := run.broker.(acct := run.broker.acct.(fills := []))) }

  function ChargeRollover<S>(env: Env<S>, data: Data, run: Run<S>, rolls: map<int, int>, t: int): (r: Run<S>)
    requires Fits(env, data, run)
    ensures Fits(env, data, r)
  {
    if run.Failed() || t !in rolls then run
    else
      var b := SwapsCharged(data.symbols, run.broker, rolls[t]);
      run.(broker := b, equity := run.equity + [(t, Equity(data.symbols, b))])
  }

  predicate IsDue(series: seq<seq<Candle>>, next: seq<nat>, t: int, k: nat)
    requires k < |series| == |next|
  {
    next[k] < |series[k]| && series[k][next[k]].closeTime == t
  }

  /** A bar that should have been made visible earlier: the loop would raise. */
  predicate Skipped(series: seq<seq<Candle>>, next: seq<nat>, t: int)
    requires |series| == |next|
  {
    exists k :: 0 <= k < |series| && next[k] < |series[k]| && series[k][next[k]].closeTime < t
  }

  function Reveal(series: seq<seq<Candle>>, next: seq<nat>, t: int): (r: seq<nat>)
    requires |series| == |next|
    ensures |r| == |next|
    ensures forall k :: 0 <= k < |next| ==> r[k] == if IsDue(series, next, t, k) then next[k] + 1 else next[k]
  {
    seq(|next|, k requires 0 <= k < |next| => if IsDue(series, next, t, k) then next[k] + 1 else next[k])
  }

  function DueList(series: seq<seq<Candle>>, next: seq<nat>, t: int, n: nat): (r: seq<nat>)
    requires n <= |series| == |next|
    ensures forall m :: 0 <= m < |r| ==> r[m] < n && IsDue(series, next, t, r[m])
  {
    if n == 0 then []
    else DueList(series, next, t, n - 1) + if IsDue(series, next, t, n - 1) then [n - 1] else []
  }

  predicate Warmed(next: seq<nat>, warmup: seq<nat>)
    requires |next| == |warmup|
  {
    forall k :: 0 <= k < |next| ==> next[k] >= warmup[k]
  }

  function OneBar<S>(env: Env<S>, data: Data, run: Run<S>, k: nat, t: int): (r: Run<S>)
    requires Fits(env, data, run) && k < |data.series| && run.next[k] > 0
    ensures Fits(env, data, r) && r.next == run.next
  {
    if run.Failed() then run
    else
      var (strategy, reqs) := env.onBar(run.strategy, ViewOf(data, run, t), k, data.series[k][run.next[k] - 1]);
      HandleNext(env, data, run.(strategy := strategy), reqs, t, env.minutes[k]);
      Handle(env, data, run.(strategy := strategy), reqs, t, env.minutes[k])
  }

  lemma {:induction false} HandleAllNext<S>(
    env: Env<S>, data: Data, run: Run<S>, reqs: seq<Request>, now: int, minutes: nat)
    requires Fits(env, data, run)
    requires forall n :: 0 <= n < |reqs| && reqs[n].Emit? ==> reqs[n].signal.symbol < |data.symbols|
    ensures HandleAll(env, data, run, reqs, now, minutes).next == run.next
    decreases |reqs|
  {
    if reqs != [] {
      HandleAllNext(env, data, HandleOne(env, data, run, reqs[0], now, minutes), reqs[1..], now, minutes);
    }
  }

  lemma HandleNext<S>(env: Env<S>, data: Data, run: Run<S>, reqs: seq<Request>, now: int, minutes: nat)
    requires Fits(env, data, run)
    ensures Handle(env, data, run, reqs, now, minutes).next == run.next
  {
    var seen := CheckRequests(env, |data.symbols|, reqs, now, run.seen);
    if seen.Some? {
      HandleAllNext(env, data, run.(seen := seen.value), reqs, now, minutes);
    }
  }

  function Bars<S>(env: Env<S>, data: Data, run: Run<S>, due: seq<nat>, t: int): (r: Run<S>)
    requires Fits(env, data, run) && forall m :: 0 <= m < |due| ==> due[m] < |data.series| && run.next[due[m]] > 0
    ensures Fits(env, data, r)
    decreases |due|
  {
    if due == [] then run else Bars(env, data, OneBar(env, data, run, due[0], t), due[1..], t)
  }

  /** Reveal every bar that closes at t, then call the strategy once for each, in subscription order. */
  function BarStep<S>(env: Env<S>, data: Data, run: Run<S>, t: int): (r: Run<S>)
    requires Fits(env, data, run)
    ensures Fits(env, data, r)
  {
    if run.Failed() then run
    else if Skipped(data.series, run.next, t) then run.(halt := BarSkipped)
    else
      var due := DueList(data.series, run.next, t, |data.series|);
      var run1 := run.(next := Reveal(data.series, run.next, t));
      if due != [] && Warmed(run1.next, env.warmup) then Bars(env, data, run1, due, t) else run1
  }

  /** One event time: simulate, deliver fills, charge swaps, reveal bars and call the strategy. */
  function StepTime<S>(env: Env<S>, data: Data, rolls: map<int, int>, run: Run<S>, t: int): (r: Run<S>)
    requires Fits(env, data, run) && |env.minutes| > 0
    ensures Fits(env, data, r)
  {
    if run.Failed() then run
    else
      var run1 := run.(broker := AdvanceFrom(data.symbols, run.broker, t, 0));
      var run2 := Fills(env, data, TakeFills(run1), run1.broker.acct.fills, t);
      BarStep(env, data, ChargeRollover(env, data, run2, rolls, t), t)
  }

  function RunTimes<S>(env: Env<S>, data: Data, rolls: map<int, int>, run: Run<S>, times: seq<int>): (r: Run<S>)
    requires Fits(env, data, run) && |env.minutes| > 0
    ensures Fits(env, data, r)
    decreases |times|
  {
    if times == [] then run
    else RunTimes(env, data, rolls, StepTime(env, data, rolls, run, times[0]), times[1..])
  }

  // ---------------------------------------------------------------- the timeline

  function Insert(times: seq<int>, t: int): seq<int> {
    if times == [] then [t]
    else if t < times[0] then [t] + times
    else if t == times[0] then times
    else [times[0]] + Insert(times[1..], t)
  }

  /** numpy's unique: the distinct values in ascending order. */
  function Unique(ts: seq<int>): seq<int> {
    if ts == [] then [] else Insert(Unique(ts[1..]), ts[0])
  }

  function CloseTimes(cs: seq<Candle>): (r: seq<int>)
    ensures |r| == |cs| && forall i :: 0 <= i < |cs| ==> r[i] == cs[i].closeTime
  {
    seq(|cs|, i requires 0 <= i < |cs| => cs[i].closeTime)
  }

  function AllCloses(series: seq<seq<Candle>>): seq<int> {
    if series == [] then [] else CloseTimes(series[0]) + AllCloses(series[1..])
  }

  predicate HasBars(data: Data) {
    |data.symbols| > 0 && forall k :: 0 <= k < |data.symbols| ==> |data.symbols[k].bars| > 0
  }

  function StartOf(symbols: seq<SymbolData>): int
    requires |symbols| > 0 && forall k :: 0 <= k < |symbols| ==> |symbols[k].bars| > 0
  {
    var own := symbols[0].bars[0].openTime;
    if |symbols| == 1 then own else var rest := StartOf(symbols[1..]); if own <= rest then own else rest
  }

  function EndOf(symbols: seq<SymbolData>): int
    requires |symbols| > 0 && forall k :: 0 <= k < |symbols| ==> |symbols[k].bars| > 0
  {
    var own := symbols[0].bars[|symbols[0].bars| - 1].closeTime;
    if |symbols| == 1 then own else var rest := EndOf(symbols[1..]); if own >= rest then own else rest
  }

  /** The rollovers (time and weekday) between the first open and the last close of the data. */
  function RollsIn(calendar: seq<(int, int)>, start: int, end: int): (r: seq<(int, int)>)
    ensures forall n :: 0 <= n < |r| ==> r[n] in calendar && start <= r[n].0 <= end
    ensures forall x :: x in calendar && start <= x.0 <= end ==> x in r
  {
    if calendar == [] then []
    else (if start <= calendar[0].0 <= end then [calendar[0]] else []) + RollsIn(calendar[1..], start, end)
  }

  function AsMap(rolls: seq<(int, int)>): map<int, int> {
    if rolls == [] then map[] else map[rolls[0].0 := rolls[0].1] + AsMap(rolls[1..])
  }

  function Times(rolls: seq<(int, int)>): (r: seq<int>)
    ensures |r| == |rolls| && forall i :: 0 <= i < |rolls| ==> r[i] == rolls[i].0
  {
    seq(|rolls|, i requires 0 <= i < |rolls| => rolls[i].0)
  }

  function Rolls(calendar: seq<(int, int)>, data: Data): seq<(int, int)>
    requires HasBars(data)
  {
    RollsIn(calendar, StartOf(data.symbols), EndOf(data.symbols))
  }

  function Timeline(calendar: seq<(int, int)>, data: Data): seq<int>
    requires HasBars(data)
  {
    Unique(Times(Rolls(calendar, data)) + AllCloses(data.series))
  }

  function Start<S>(data: Data, strategy: S, balance: real): Run<S> {
    var n := |data.symbols|;
    Run(Broker(seq(n, (_: int) => []), seq(n, (_: int) => []), seq(n, (_: int) => []), seq(n, (_: int) => -1),
               Account(balance, [], [], [], 0)),
        seq(|data.series|, (_: int) => 0), strategy, [], {}, [], Going)
  }

  /** The run before the final settlement. */
  function WholeRun<S>(env: Env<S>, calendar: seq<(int, int)>, data: Data, strategy: S, balance: real): (r: Run<S>)
    requires HasBars(data) && |data.series| == |env.minutes| == |env.warmup| && |env.minutes| > 0
    ensures Fits(env, data, r)
  {
    RunTimes(env, data, AsMap(Rolls(calendar, data)), Start(data, strategy, balance), Timeline(calendar, data))
  }

  function FinishFrom(symbols: seq<SymbolData>, b: Broker, k: nat): (r: Broker)
    requires Shaped(symbols, b)
    ensures Shaped(symbols, r)
    decreases |symbols| - k
  {
    if k >= |symbols| then b
    else FinishFrom(symbols, Advanced(symbols, b, k, b.lastIdx[k] + 1, |symbols[k].bars|), k + 1)
  }

  /** After the last event time: the remaining bars, then everything is closed at the last price. */
  function Settled<S>(env: Env<S>, data: Data, run: Run<S>, byName: seq<nat>): (r: Run<S>)
    requires Fits(env, data, run) && HasBars(data) && Names(data.symbols, byName)
    ensures Fits(env, data, r)
  {
    var b := AllClosed(data.symbols, FinishFrom(data.symbols, run.broker, 0), byName, EndOfData);
    run.(
      broker := b.(acct := b.acct.(fills := [])),
      equity := run.equity + [(EndOf(data.symbols), Equity(data.symbols, b))])
  }
}
