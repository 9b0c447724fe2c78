/** The backtest loop with its state updated in place, proved to compute the runs of Backtest. */
module EventLoop {
  import opened Types
  import opened SimModel
  import opened BrokerModel
  import opened Backtest
  import opened Causality
  import SB = SimBroker

  /** One run of the loop: the broker, the pointers into the data and what the strategy has produced. */
  class EventLoop<S> {
    const env: Env<S>
    const data: Data
    const broker: SB.SimBroker
    var ptr: seq<nat>
    var nextClose: seq<nat>
    var strategy: S
    var signals: seq<Signal>
    var seenIds: set<string>
    var equityCurve: seq<(int, real)>
    var halt: Halt

    ghost function State(): Run<S>
      reads this, broker
    {
      Run(broker.State(), nextClose, strategy, signals, seenIds, equityCurve, halt)
    }

    ghost predicate Valid()
      reads this, broker
    {
      && broker.Valid() && broker.symbols == data.symbols
      && Fits(env, data, State()) && |env.minutes| > 0
      && |ptr| == |data.symbols|
      && forall k :: 0 <= k < |ptr| ==> ptr[k] == broker.lastIdx[k] + 1
    }

    constructor (env: Env<S>, data: Data, strategy: S, balance: real)
      requires Subscribed(env, data) && forall k :: 0 <= k < |data.symbols| ==> Ascending(data.symbols[k].bars)
      ensures Valid() && fresh(broker)
      ensures this.env == env && this.data == data
      ensures State() == Start(data, strategy, balance)
    {
      this.env := env;
      this.data := data;
      this.strategy := strategy;
      broker := new SB.SimBroker(data.symbols, balance);
      ptr := seq(|data.symbols|, (_: int) => 0);
      nextClose := seq(|data.series|, (_: int) => 0);
      signals, seenIds, equityCurve, halt := [], {}, [], Going;
    }

    /** Simulate every bar that has closed by t. */
    method AdvanceBroker(t: int)
      requires Valid()
      modifies this`ptr, broker
      ensures Valid()
      ensures State() == old(State()).(broker := AdvanceFrom(data.symbols, old(State()).broker, t, 0))
    {
      for k := 0 to |data.symbols|
        invariant Valid()
        invariant State() == old(State()).(broker := broker.State())
        invariant AdvanceFrom(data.symbols, broker.State(), t, k)
          == AdvanceFrom(data.symbols, old(broker.State()), t, 0)
      {
        ghost var before := broker.State();
        AdvanceOne(k, t);
        AdvanceStep(data.symbols, before, t, k);
      }
    }

    method AdvanceOne(k: nat, t: int)
      requires Valid() && k < |data.symbols|
      modifies this`ptr, broker
      ensures Valid()
      ensures broker.State() == Advanced(
        data.symbols, old(broker.State()), k, old(broker.State()).lastIdx[k] + 1, ClosedBy(data.symbols[k].bars, t))
      ensures State() == old(State()).(broker := broker.State())
    {
      var hi := ClosedBy(data.symbols[k].bars, t);
      if hi > ptr[k] {
        broker.Advance(k, ptr[k], hi);
        ptr := ptr[k := hi];
      }
    }

    method HandleRequest(req: Request, now: int, minutes: nat)
      requires Valid() && (req.Emit? ==> req.signal.symbol < |data.symbols|)
      modifies this`signals, broker
      ensures Valid()
      ensures State() == HandleOne(env, data, old(State()), req, now, minutes)
    {
      match req {
        case Emit(s) =>
          signals := signals + [s];
          if broker.lastIdx[s.symbol] < 0 {
            broker.Reject(now, SignalOf, s.id, "no price yet");
          } else {
            var (lots, why) := Ask(env, data.symbols, CurrentBroker(), s);
            if lots <= 0.0 {
              broker.Reject(now, SignalOf, s.id, why);
            } else {
              broker.SubmitEntry(s, lots, now, minutes);
            }
          }
        case CancelEntry(id) =>
          var ok := broker.Cancel(env.strategyId, id, now);
        case CloseOpen(id) =>
          var ok := broker.RequestClose(env.strategyId, id, now, CloseRequested);
        case MoveStopTo(id, stop) =>
          var ok := broker.ModifyStop(env.strategyId, id, stop, now);
      }
    }

    /** The broker as the gate and the strategy see it. */
    function CurrentBroker(): (r: Broker)
      reads this, broker
      ensures r == broker.State()
    {
      Broker(broker.market, broker.pending, broker.positions, broker.lastIdx,
             Account(broker.balance, broker.trades, broker.fillsOut, broker.rejections, broker.lastNum))
    }

    function Visible(now: int): (r: View)
      requires Valid()
      reads this, broker
      ensures r == ViewOf(data, State(), now)
    {
      var next := nextClose;
      View(now, seq(|data.series|, k requires 0 <= k < |data.series| => data.series[k][..next[k]]), CurrentBroker())
    }

    method HandleRequests(reqs: seq<Request>, now: int, minutes: nat)
      requires Valid()
      modifies this`signals, this`seenIds, this`halt, broker
      ensures Valid()
      ensures State() == Handle(env, data, old(State()), reqs, now, minutes)
    {
      var seen := CheckRequests(env, |data.symbols|, reqs, now, seenIds);
      if seen.None? {
        halt := StrategyError;
        return;
      }
      seenIds := seen.value;
      ghost var start := State();
      for n := 0 to |reqs|
        invariant Valid() && nextClose == old(nextClose) && ptr == old(ptr)
        invariant HandleAll(env, data, State(), reqs[n..], now, minutes)
          == HandleAll(env, data, start, reqs, now, minutes)
      {
        assert reqs[n..][0] == reqs[n] && reqs[n..][1..] == reqs[n + 1..];
        HandleRequest(reqs[n], now, minutes);
      }
    }

    method DeliverFills(t: int)
      requires Valid()
      modifies this, broker
      ensures Valid()
      ensures State() == Fills(env, data, TakeFills(old(State())), old(State()).broker.acct.fills, t)
    {
      var fills := broker.TakeFills();
      ghost var start := State();
      assert start == TakeFills(old(State()));
      for n := 0 to |fills|
        invariant Valid()
        invariant Fills(env, data, State(), fills[n..], t) == Fills(env, data, start, fills, t)
      {
        assert fills[n..][0] == fills[n] && fills[n..][1..] == fills[n + 1..];
        if halt == Going {
          var (next, reqs) := env.onFill(strategy, Visible(t), fills[n]);
          strategy := next;
          HandleRequests(reqs, t, env.minutes[0]);
        }
      }
    }

    method ChargeSwaps(rolls: map<int, int>, t: int)
      requires Valid()
      modifies this`equityCurve, broker
      ensures Valid()
      ensures State() == ChargeRollover(env, data, old(State()), rolls, t)
    {
      if halt == Going && t in rolls {
        broker.ChargeSwaps(rolls[t]);
        equityCurve := equityCurve + [(t, Equity(data.symbols, CurrentBroker()))];
      }
    }

    /** Make the bars closing at t visible and call the strategy for each of them. */
    method CloseBars(t: int)
      requires Valid()
      modifies this, broker
      ensures Valid()
      ensures State() == BarStep(env, data, old(State()), t)
    {
      if halt != Going {
        return;
      }
      if Skipped(data.series, nextClose, t) {
        halt := BarSkipped;
        return;
      }
      var due := RevealBars(t);
      if due != [] && Warmed(nextClose, env.warmup) {
        CallStrategy(due, t);
      }
    }

    method RevealBars(t: int) returns (due: seq<nat>)
      requires Valid()
      modifies this`nextClose
      ensures Valid()
      ensures State() == old(State()).(next := Reveal(data.series, old(nextClose), t))
      ensures due == DueList(data.series, old(nextClose), t, |data.series|)
    {
      due := [];
      for k := 0 to |data.series|
        invariant Valid() && State() == old(State()).(next := nextClose)
        invariant due == DueList(data.series, old(nextClose), t, k)
        invariant forall j :: 0 <= j < k ==> nextClose[j] == Reveal(data.series, old(nextClose), t)[j]
        invariant forall j :: k <= j < |nextClose| ==> nextClose[j] == old(nextClose)[j]
      {
        if IsDue(data.series, nextClose, t, k) {
          nextClose := nextClose[k := nextClose[k] + 1];
          due := due + [k];
        }
      }
      assert nextClose == Reveal(data.series, old(nextClose), t);
    }

    method CallStrategy(due: seq<nat>, t: int)
      requires Valid() && forall m :: 0 <= m < |due| ==> due[m] < |data.series| && nextClose[due[m]] > 0
      modifies this, broker
      ensures Valid()
      ensures State() == Bars(env, data, old(State()), due, t)
    {
      ghost var start := State();
      for n := 0 to |due|
        invariant Valid() && nextClose == start.next
        invariant Bars(env, data, State(), due[n..], t) == Bars(env, data, start, due, t)
      {
        assert due[n..][0] == due[n] && due[n..][1..] == due[n + 1..];
        CallOnBar(due[n], t);
      }
    }

    method CallOnBar(k: nat, t: int)
      requires Valid() && k < |data.series| && nextClose[k] > 0
      modifies this, broker
      ensures Valid()
      ensures State() == OneBar(env, data, old(State()), k, t)
    {
      if halt == Going {
        var (next, reqs) := env.onBar(strategy, Visible(t), k, data.series[k][nextClose[k] - 1]);
        strategy := next;
        HandleRequests(reqs, t, env.minutes[k]);
      }
    }

    /** The event loop over the whole timeline. */
    method RunAll(calendar: seq<(int, int)>)
      requires Valid() && Subscribed(env, data)
      modifies this, broker
      ensures Valid()
      ensures State() == RunTimes(env, data, AsMap(Rolls(calendar, data)), old(State()), Timeline(calendar, data))
    {
      var times, rolls := Timeline(calendar, data), AsMap(Rolls(calendar, data));
      ghost var start := State();
      for n := 0 to |times|
        invariant Valid()
        invariant RunTimes(env, data, rolls, State(), times[n..]) == RunTimes(env, data, rolls, start, times)
      {
        assert times[n..][0] == times[n] && times[n..][1..] == times[n + 1..];
        StepAt(rolls, times[n]);
      }
    }

    method StepAt(rolls: map<int, int>, t: int)
      requires Valid()
      modifies this, broker
      ensures Valid()
      ensures State() == StepTime(env, data, rolls, old(State()), t)
    {
      if halt != Going {
        return;
      }
      AdvanceBroker(t);
      DeliverFills(t);
      ChargeSwaps(rolls, t);
      CloseBars(t);
    }

    /** The bars after the last event time, then everything is closed at the last price. */
    method Settle(byName: seq<nat>)
      requires Valid() && HasBars(data) && Names(data.symbols, byName)
      modifies this, broker
      ensures Valid()
      ensures State() == Settled(env, data, old(State()), byName)
    {
      FinishBars();
      broker.CloseAll(byName, EndOfData);
      var equity := Equity(data.symbols, CurrentBroker());
      var fills := broker.TakeFills();
      equityCurve := equityCurve + [(EndOf(data.symbols), equity)];
    }

    method FinishBars()
      requires Valid()
      modifies this`ptr, broker
      ensures Valid()
      ensures State() == old(State()).(broker := FinishFrom(data.symbols, old(State()).broker, 0))
    {
      for k := 0 to |data.symbols|
        invariant Valid()
        invariant State() == old(State()).(broker := broker.State())
        invariant FinishFrom(data.symbols, broker.State(), k) == FinishFrom(data.symbols, old(broker.State()), 0)
      {
        var n := |data.symbols[k].bars|;
        if n > ptr[k] {
          broker.Advance(k, ptr[k], n);
          ptr := ptr[k := n];
        }
      }
    }
  }

  /** A backtest: the loop, and the settlement unless the loop was stopped. */
  method RunBacktest<S>(
    env: Env<S>, calendar: seq<(int, int)>, data: Data, strategy: S, balance: real, byName: seq<nat>)
    returns (r: EventLoop<S>)
    requires Subscribed(env, data) && Names(data.symbols, byName)
    requires forall k :: 0 <= k < |data.symbols| ==> Ascending(data.symbols[k].bars)
    ensures r.env == env && r.data == data && r.Valid()
    ensures var run := WholeRun(env, calendar, data, strategy, balance);
      r.State() == if run.halt == Going then Settled(env, data, run, byName) else run
  {
    r := new EventLoop(env, data, strategy, balance);
    r.RunAll(calendar);
    if r.halt == Going {
      r.Settle(byName);
    }
  }
}
