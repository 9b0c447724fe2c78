/** What every backtest keeps: the account, the order of its signals, and that each bar is delivered once. */
module BacktestLaws {
  import opened Types
  import opened SimModel
  import opened BrokerModel
  import opened BrokerLaws
  import opened Backtest
  import opened Causality

  /** From run to r, while the clock stands at t: the account stays sound, nothing recorded is lost, and new
      signals are dated t. */
  ghost predicate Grows<S>(data: Data, run: Run<S>, r: Run<S>, t: int) {
    && BrokerSound(data.symbols, r.broker)
    && Due(r.broker) == Due(run.broker)
    && run.broker.acct.trades <= r.broker.acct.trades
    && run.signals <= r.signals
    && (forall n :: |run.signals| <= n < |r.signals| ==> r.signals[n].createdAt == t)
  }

  ghost predicate Sane<S>(env: Env<S>, data: Data, run: Run<S>) {
    Fits(env, data, run) && BrokerSound(data.symbols, run.broker) && |env.minutes| > 0
  }

  lemma EntryKeeps<S>(env: Env<S>, symbols: seq<SymbolData>, b: Broker, s: Signal, now: int, minutes: nat)
    requires BrokerSound(symbols, b) && s.symbol < |symbols|
    ensures var r := EntryOutcome(env, symbols, b, s, now, minutes); BrokerSound(symbols, r) && Follows(b, r)
  {
    NoteKeeps(symbols, b, now, SignalOf, s.id, "no price yet");
    if b.lastIdx[s.symbol] >= 0 {
      var (lots, why) := Ask(env, symbols, b, s);
      if lots <= 0.0 {
        NoteKeeps(symbols, b, now, SignalOf, s.id, why);
      } else {
        SubmitKeeps(symbols, b, s, lots, now, minutes);
      }
    }
  }

  lemma HandleOneGrows<S>(env: Env<S>, data: Data, run: Run<S>, req: Request, now: int, minutes: nat)
    requires Sane(env, data, run) && (req.Emit? ==> req.signal.symbol < |data.symbols| && req.signal.createdAt == now)
    ensures Grows(data, run, HandleOne(env, data, run, req, now, minutes), now)
  {
    match req
    case Emit(s) => EntryKeeps(env, data.symbols, run.broker, s, now, minutes);
    case CancelEntry(id) => CancelKeeps(data.symbols, run.broker, env.strategyId, id, now);
    case CloseOpen(id) => CloseRequestKeeps(data.symbols, run.broker, env.strategyId, id, now, CloseRequested);
    case MoveStopTo(id, stop) => ModifyStopKeeps(data.symbols, run.broker, env.strategyId, id, stop, now);
  }

  lemma {:induction false} HandleAllGrows<S>(
    env: Env<S>, data: Data, run: Run<S>, reqs: seq<Request>, now: int, minutes: nat)
    requires Sane(env, data, run)
    requires forall n :: 0 <= n < |reqs| && reqs[n].Emit? ==>
      reqs[n].signal.symbol < |data.symbols| && reqs[n].signal.createdAt == now
    ensures Grows(data, run, HandleAll(env, data, run, reqs, now, minutes), now)
    decreases |reqs|
  {
    if reqs != [] {
      HandleOneGrows(env, data, run, reqs[0], now, minutes);
      HandleAllGrows(env, data, HandleOne(env, data, run, reqs[0], now, minutes), reqs[1..], now, minutes);
    }
  }

  lemma HandleGrows<S>(env: Env<S>, data: Data, run: Run<S>, reqs: seq<Request>, now: int, minutes: nat)
    requires Sane(env, data, run)
    ensures Grows(data, run, Handle(env, data, run, reqs, now, minutes), now)
  {
    var seen := CheckRequests(env, |data.symbols|, reqs, now, run.seen);
    if seen.Some? {
      HandleAllGrows(env, data, run.(seen := seen.value), reqs, now, minutes);
    }
  }

  lemma OneFillGrows<S>(env: Env<S>, data: Data, run: Run<S>, fill: Fill, t: int)
    requires Sane(env, data, run)
    ensures Grows(data, run, OneFill(env, data, run, fill, t), t)
  {
    if !run.Failed() {
      var (strategy, reqs) := env.onFill(run.strategy, ViewOf(data, run, t), fill);
      HandleGrows(env, data, run.(strategy := strategy), reqs, t, env.minutes[0]);
    }
  }

  lemma {:induction false} FillsGrow<S>(env: Env<S>, data: Data, run: Run<S>, fills: seq<Fill>, t: int)
    requires Sane(env, data, run)
    ensures Grows(data, run, Fills(env, data, run, fills, t), t)
    decreases |fills|
  {
    if fills != [] {
      OneFillGrows(env, data, run, fills[0], t);
      FillsGrow(env, data, OneFill(env, data, run, fills[0], t), fills[1..], t);
    }
  }

  lemma OneBarGrows<S>(env: Env<S>, data: Data, run: Run<S>, k: nat, t: int)
    requires Sane(env, data, run) && k < |data.series| && run.next[k] > 0
    ensures Grows(data, run, OneBar(env, data, run, k, t), t)
  {
    if !run.Failed() {
      var (strategy, reqs) := env.onBar(run.strategy, ViewOf(data, run, t), k, data.series[k][run.next[k] - 1]);
      HandleGrows(env, data, run.(strategy := strategy), reqs, t, env.minutes[k]);
    }
  }

  lemma {:induction false} BarsGrow<S>(env: Env<S>, data: Data, run: Run<S>, due: seq<nat>, t: int)
    requires Sane(env, data, run) && forall m :: 0 <= m < |due| ==> due[m] < |data.series| && run.next[due[m]] > 0
    ensures Grows(data, run, Bars(env, data, run, due, t), t)
    decreases |due|
  {
    if due != [] {
      OneBarGrows(env, data, run, due[0], t);
      BarsGrow(env, data, OneBar(env, data, run, due[0], t), due[1..], t);
    }
  }

  lemma BarStepGrows<S>(env: Env<S>, data: Data, run: Run<S>, t: int)
    requires Sane(env, data, run)
    ensures Grows(data, run, BarStep(env, data, run, t), t)
  {
    if !run.Failed() && !Skipped(data.series, run.next, t) {
      var run1 := run.(next := Reveal(data.series, run.next, t));
      BarsGrow(env, data, run1, DueList(data.series, run.next, t, |data.series|), t);
    }
  }

  lemma {:induction false} AdvanceFromKeeps(symbols: seq<SymbolData>, b: Broker, t: int, k: nat)
    requires BrokerSound(symbols, b)
    ensures var r := AdvanceFrom(symbols, b, t, k); BrokerSound(symbols, r) && Follows(b, r)
    decreases |symbols| - k
  {
    if k >= |symbols| {
      FollowsSelf(b);
    } else {
      var hi := ClosedBy(symbols[k].bars, t);
      AdvanceKeeps(symbols, b, k, hi);
      var b1 := Advanced(symbols, b, k, b.lastIdx[k] + 1, hi);
      AdvanceFromKeeps(symbols, b1, t, k + 1);
      FollowsTransitive(b, b1, AdvanceFrom(symbols, b1, t, k + 1));
    }
  }

  lemma DrainKeeps(symbols: seq<SymbolData>, b: Broker)
    requires BrokerSound(symbols, b)
    ensures var r := b.(acct := b.acct.(fills := [])); BrokerSound(symbols, r) && Due(r) == Due(b)
  {
    var r := b.(acct := b.acct.(fills := []));
    forall j | 0 <= j < |symbols|
      ensures Sound(Focus(r, j), r.lastIdx[j] + 1)
    {
      BookIsSound(symbols, b, j);
    }
  }

  lemma RolloverGrows<S>(env: Env<S>, data: Data, run: Run<S>, rolls: map<int, int>, t: int)
    requires Sane(env, data, run)
    ensures Grows(data, run, ChargeRollover(env, data, run, rolls, t), t)
  {
    if !run.Failed() && t in rolls {
      SwapsKeep(data.symbols, run.broker, rolls[t], 0);
    }
  }

  lemma StepGrows<S>(env: Env<S>, data: Data, rolls: map<int, int>, run: Run<S>, t: int)
    requires Sane(env, data, run)
    ensures Grows(data, run, StepTime(env, data, rolls, run, t), t)
  {
    if run.Failed() {
      return;
    }
    var run1 := run.(broker := AdvanceFrom(data.symbols, run.broker, t, 0));
    AdvanceGrows(data, run, run1, t);
    FillsGrow(env, data, TakeFills(run1), run1.broker.acct.fills, t);
    var run2 := Fills(env, data, TakeFills(run1), run1.broker.acct.fills, t);
    RolloverGrows(env, data, run2, rolls, t);
    var run3 := ChargeRollover(env, data, run2, rolls, t);
    BarStepGrows(env, data, run3, t);
    var run4 := BarStep(env, data, run3, t);
    GrowsTwice(data, run, TakeFills(run1), run2, t);
    GrowsTwice(data, run, run2, run3, t);
    GrowsTwice(data, run, run3, run4, t);
  }

  lemma GrowsTwice<S>(data: Data, a: Run<S>, b: Run<S>, c: Run<S>, t: int)
    requires Grows(data, a, b, t) && Grows(data, b, c, t)
    ensures Grows(data, a, c, t)
  {}

  lemma AdvanceGrows<S>(data: Data, run: Run<S>, r: Run<S>, t: int)
    requires BrokerSound(data.symbols, run.broker)
    requires r == run.(broker := AdvanceFrom(data.symbols, run.broker, t, 0))
    ensures Grows(data, run, TakeFills(r), t)
  {
    AdvanceFromKeeps(data.symbols, run.broker, t, 0);
    DrainKeeps(data.symbols, r.broker);
  }

  /** Over a stretch of event times that all have a property, every new signal is dated at such a time. */
  lemma {:induction false} RunGrows<S>(
    env: Env<S>, data: Data, rolls: map<int, int>, run: Run<S>, times: seq<int>, dated: int -> bool)
    requires Sane(env, data, run)
    requires forall n :: 0 <= n < |times| ==> dated(times[n])
    ensures var r := RunTimes(env, data, rolls, run, times);
      && Sane(env, data, r) && Due(r.broker) == Due(run.broker)
      && run.broker.acct.trades <= r.broker.acct.trades && run.signals <= r.signals
      && (forall n :: |run.signals| <= n < |r.signals| ==> dated(r.signals[n].createdAt))
    decreases |times|
  {
    if times != [] {
      StepGrows(env, data, rolls, run, times[0]);
      RunGrows(env, data, rolls, StepTime(env, data, rolls, run, times[0]), times[1..], dated);
    }
  }

  lemma RunCut<S>(
    env: Env<S>, data: Data, rolls: map<int, int>, run: Run<S>, a: seq<int>, b: seq<int>, T: int)
    requires Sane(env, data, run) && run.signals == []
    requires (forall n :: 0 <= n < |a| ==> a[n] <= T) && (forall n :: 0 <= n < |b| ==> b[n] > T)
    ensures var mid, r := RunTimes(env, data, rolls, run, a), RunTimes(env, data, rolls, run, a + b);
      SignalsUpTo(r.signals, T) == mid.signals && mid.broker.acct.trades <= r.broker.acct.trades
  {
    RunSplits(env, data, rolls, run, a, b);
    RunGrows(env, data, rolls, run, a, (x: int) => x <= T);
    var mid := RunTimes(env, data, rolls, run, a);
    RunGrows(env, data, rolls, mid, b, (x: int) => x > T);
    SignalsCut(RunTimes(env, data, rolls, mid, b).signals, |mid.signals|, T);
  }

  lemma {:induction false} RunSplits<S>(
    env: Env<S>, data: Data, rolls: map<int, int>, run: Run<S>, a: seq<int>, b: seq<int>)
    requires Fits(env, data, run) && |env.minutes| > 0
    ensures RunTimes(env, data, rolls, run, a + b) == RunTimes(env, data, rolls, RunTimes(env, data, rolls, run, a), b)
    decreases |a|
  {
    if a == [] {
      assert a + b == b;
    } else {
      assert (a + b)[0] == a[0] && (a + b)[1..] == a[1..] + b;
      RunSplits(env, data, rolls, StepTime(env, data, rolls, run, a[0]), a[1..], b);
    }
  }

  function SignalsUpTo(ss: seq<Signal>, T: int): seq<Signal> {
    if ss == [] then []
    else SignalsUpTo(ss[..|ss| - 1], T) + if ss[|ss| - 1].createdAt <= T then [ss[|ss| - 1]] else []
  }

  lemma {:induction false} SignalsCut(ss: seq<Signal>, n: nat, T: int)
    requires n <= |ss|
    requires forall i :: 0 <= i < n ==> ss[i].createdAt <= T
    requires forall i :: n <= i < |ss| ==> ss[i].createdAt > T
    ensures SignalsUpTo(ss, T) == ss[..n]
  {
    if ss != [] {
      var m := |ss| - 1;
      SignalsCut(ss[..m], if n <= m then n else m, T);
      assert n == |ss| ==> ss == ss[..m] + [ss[m]];
    }
  }

  ghost predicate Priced(data: Data) { forall k :: 0 <= k < |data.symbols| ==> GoodCosts(data.symbols[k].costs) }

  lemma StartSane<S>(env: Env<S>, data: Data, strategy: S, balance: real)
    requires Subscribed(env, data) && Priced(data)
    ensures Sane(env, data, Start(data, strategy, balance)) && Due(Start(data, strategy, balance).broker) == balance
  {
    var b := Start(data, strategy, balance).broker;
    CarryNone(b.positions);
  }

  /** The signals of the complete run that are dated up to T are those of the run stopped at T. */
  lemma SignalsOfRun<S>(env: Env<S>, calendar: seq<(int, int)>, data: Data, strategy: S, balance: real, T: int)
    requires Subscribed(env, data) && Priced(data)
    ensures SignalsUpTo(WholeRun(env, calendar, data, strategy, balance).signals, T)
      == RunUpTo(env, calendar, data, strategy, balance, T).signals
    ensures RunUpTo(env, calendar, data, strategy, balance, T).broker.acct.trades
      <= WholeRun(env, calendar, data, strategy, balance).broker.acct.trades
  {
    var rest := TimelineSplits(calendar, data, T);
    StartSane(env, data, strategy, balance);
    RunCut(env, data, AsMap(Rolls(calendar, data)), Start(data, strategy, balance),
      UpTo(Timeline(calendar, data), T), rest, T);
  }

  lemma TimelineSplits(calendar: seq<(int, int)>, data: Data, T: int) returns (rest: seq<int>)
    requires HasBars(data)
    ensures Timeline(calendar, data) == UpTo(Timeline(calendar, data), T) + rest
    ensures forall n :: 0 <= n < |rest| ==> rest[n] > T
  {
    UniqueSpec(Times(Rolls(calendar, data)) + AllCloses(data.series));
    rest := RestAfter(Timeline(calendar, data), T);
  }

  lemma RestAfter(times: seq<int>, T: int) returns (rest: seq<int>)
    requires Ascends(times)
    ensures times == UpTo(times, T) + rest && forall n :: 0 <= n < |rest| ==> rest[n] > T
  {
    rest := times[|UpTo(times, T)|..];
  }

  /** No lookahead in whole runs: bars that close after T cannot change any signal dated up to T. */
  lemma NoLookahead<S>(env: Env<S>, calendar: seq<(int, int)>, d1: Data, d2: Data, strategy: S, balance: real, T: int)
    requires Subscribed(env, d1) && Subscribed(env, d2) && Priced(d1) && Priced(d2)
    requires Past(d1, T) == Past(d2, T) && RollsUpTo(calendar, d1, T) == RollsUpTo(calendar, d2, T)
    ensures SignalsUpTo(WholeRun(env, calendar, d1, strategy, balance).signals, T)
      == SignalsUpTo(WholeRun(env, calendar, d2, strategy, balance).signals, T)
  {
    SamePastSameRun(env, calendar, d1, d2, strategy, balance, T);
    SignalsOfRun(env, calendar, d1, strategy, balance, T);
    SignalsOfRun(env, calendar, d2, strategy, balance, T);
  }

  // ---------------------------------------------------------------- the account at the end

  lemma {:induction false} FinishKeeps(symbols: seq<SymbolData>, b: Broker, k: nat)
    requires BrokerSound(symbols, b)
    ensures var r := FinishFrom(symbols, b, k); BrokerSound(symbols, r) && Follows(b, r)
    decreases |symbols| - k
  {
    if k >= |symbols| {
      FollowsSelf(b);
    } else {
      AdvanceKeeps(symbols, b, k, |symbols[k].bars|);
      var b1 := Advanced(symbols, b, k, b.lastIdx[k] + 1, |symbols[k].bars|);
      FinishKeeps(symbols, b1, k + 1);
      FollowsTransitive(b, b1, FinishFrom(symbols, b1, k + 1));
    }
  }

  /** Once the run is settled, the last point of the equity curve is the given balance plus the net of every trade,
      and every trade is sound. */
  ghost predicate SettlesTo<S>(env: Env<S>, data: Data, run: Run<S>, byName: seq<nat>, balance: real)
    requires Fits(env, data, run) && HasBars(data) && Names(data.symbols, byName)
  {
    var r := Settled(env, data, run, byName);
    && |r.equity| > 0
    && r.equity[|r.equity| - 1] == (EndOf(data.symbols), balance + NetSum(r.broker.acct.trades))
    && (forall t :: t in r.broker.acct.trades ==> GoodTrade(t))
  }

  /** The last point of the equity curve is the initial balance plus the net of every trade. */
  lemma FinalEquity<S>(
    env: Env<S>, calendar: seq<(int, int)>, data: Data, strategy: S, balance: real, byName: seq<nat>)
    requires Subscribed(env, data) && Priced(data) && Names(data.symbols, byName)
    requires forall k :: 0 <= k < |data.symbols| ==> k in byName
    ensures SettlesTo(env, data, WholeRun(env, calendar, data, strategy, balance), byName, balance)
  {
    WholeRunSound(env, calendar, data, strategy, balance);
    SettledIs(env, data, WholeRun(env, calendar, data, strategy, balance), byName, balance);
  }

  lemma SettledIs<S>(env: Env<S>, data: Data, run: Run<S>, byName: seq<nat>, balance: real)
    requires Fits(env, data, run) && HasBars(data) && Names(data.symbols, byName)
    requires BrokerSound(data.symbols, run.broker) && Due(run.broker) == balance
    requires forall k :: 0 <= k < |data.symbols| ==> k in byName
    ensures SettlesTo(env, data, run, byName, balance)
  {
    SettledBalances(data.symbols, run.broker, byName);
  }

  lemma WholeRunSound<S>(env: Env<S>, calendar: seq<(int, int)>, data: Data, strategy: S, balance: real)
    requires Subscribed(env, data) && Priced(data)
    ensures var b := WholeRun(env, calendar, data, strategy, balance).broker;
      BrokerSound(data.symbols, b) && Due(b) == balance
  {
    StartSane(env, data, strategy, balance);
    RunGrows(env, data, AsMap(Rolls(calendar, data)), Start(data, strategy, balance), Timeline(calendar, data),
             (x: int) => true);
  }

  lemma SettledBalances(symbols: seq<SymbolData>, b: Broker, byName: seq<nat>)
    requires BrokerSound(symbols, b) && Names(symbols, byName) && |symbols| > 0
    requires forall k :: 0 <= k < |symbols| ==> k in byName
    ensures var c := AllClosed(symbols, FinishFrom(symbols, b, 0), byName, EndOfData);
      && Equity(symbols, c) == Due(b) + NetSum(c.acct.trades)
      && (forall t :: t in c.acct.trades ==> GoodTrade(t))
  {
    FinishKeeps(symbols, b, 0);
    var b1 := FinishFrom(symbols, b, 0);
    AllClosedBalances(symbols, b1, byName, EndOfData);
    BookIsSound(symbols, AllClosed(symbols, b1, byName, EndOfData), 0);
  }

  // ---------------------------------------------------------------- delivery

  ghost predicate SeriesAscend(data: Data) {
    forall k, i, j :: 0 <= k < |data.series| && 0 <= i < j < |data.series[k]|
      ==> data.series[k][i].closeTime < data.series[k][j].closeTime
  }

  /** What is not yet visible closes at one of the remaining times. */
  ghost predicate Ahead(series: seq<seq<Candle>>, next: seq<nat>, rest: seq<int>)
    requires |next| == |series|
  {
    forall k: nat, i: nat :: Unseen(series, next, k, i) ==> series[k][i].closeTime in rest
  }

  ghost predicate Unseen(series: seq<seq<Candle>>, next: seq<nat>, k: nat, i: nat)
    requires |next| == |series|
  {
    k < |series| && next[k] <= i < |series[k]|
  }

  lemma {:induction false} FillsNext<S>(env: Env<S>, data: Data, run: Run<S>, fills: seq<Fill>, t: int)
    requires Fits(env, data, run) && |env.minutes| > 0
    ensures Fills(env, data, run, fills, t).next == run.next
    ensures run.halt != BarSkipped ==> Fills(env, data, run, fills, t).halt != BarSkipped
    decreases |fills|
  {
    if fills != [] {
      if !run.Failed() {
        var (strategy, reqs) := env.onFill(run.strategy, ViewOf(data, run, t), fills[0]);
        HandleNext(env, data, run.(strategy := strategy), reqs, t, env.minutes[0]);
        HandleHalt(env, data, run.(strategy := strategy), reqs, t, env.minutes[0]);
      }
      FillsNext(env, data, OneFill(env, data, run, fills[0], t), fills[1..], t);
    }
  }

  lemma HandleHalt<S>(env: Env<S>, data: Data, run: Run<S>, reqs: seq<Request>, now: int, minutes: nat)
    requires Fits(env, data, run) && run.halt != BarSkipped
    ensures Handle(env, data, run, reqs, now, minutes).halt != BarSkipped
  {
    var seen := CheckRequests(env, |data.symbols|, reqs, now, run.seen);
    if seen.Some? {
      HandleAllHalt(env, data, run.(seen := seen.value), reqs, now, minutes);
    }
  }

  lemma {:induction false} HandleAllHalt<S>(
    env: Env<S>, data: Data, run: Run<S>, reqs: seq<Request>, now: int, minutes: nat)
    requires Fits(env, data, run)
    requires forall n :: 0 <= n < |reqs| && reqs[n].Emit? ==> reqs[n].signal.symbol < |data.symbols|
    ensures HandleAll(env, data, run, reqs, now, minutes).halt == run.halt
    decreases |reqs|
  {
    if reqs != [] {
      HandleAllHalt(env, data, HandleOne(env, data, run, reqs[0], now, minutes), reqs[1..], now, minutes);
    }
  }

  lemma {:induction false} BarsHalt<S>(env: Env<S>, data: Data, run: Run<S>, due: seq<nat>, t: int)
    requires Fits(env, data, run) && run.halt != BarSkipped
    requires forall m :: 0 <= m < |due| ==> due[m] < |data.series| && run.next[due[m]] > 0
    ensures Bars(env, data, run, due, t).halt != BarSkipped && Bars(env, data, run, due, t).next == run.next
    decreases |due|
  {
    if due != [] {
      if !run.Failed() {
        var k := due[0];
        var (strategy, reqs) := env.onBar(run.strategy, ViewOf(data, run, t), k, data.series[k][run.next[k] - 1]);
        HandleHalt(env, data, run.(strategy := strategy), reqs, t, env.minutes[k]);
      }
      BarsHalt(env, data, OneBar(env, data, run, due[0], t), due[1..], t);
    }
  }

  lemma StepAhead<S>(env: Env<S>, data: Data, rolls: map<int, int>, run: Run<S>, times: seq<int>)
    requires Fits(env, data, run) && |env.minutes| > 0 && SeriesAscend(data)
    requires Ascends(times) && times != [] && Ahead(data.series, run.next, times) && run.halt != BarSkipped
    ensures var r := StepTime(env, data, rolls, run, times[0]);
      r.halt != BarSkipped && (r.halt == Going ==> Ahead(data.series, r.next, times[1..]))
  {
    if !run.Failed() {
      var run1 := run.(broker := AdvanceFrom(data.symbols, run.broker, times[0], 0));
      FillsNext(env, data, TakeFills(run1), run1.broker.acct.fills, times[0]);
      var run2 := Fills(env, data, TakeFills(run1), run1.broker.acct.fills, times[0]);
      BarStepAhead(env, data, ChargeRollover(env, data, run2, rolls, times[0]), times);
    }
  }

  lemma BarStepAhead<S>(env: Env<S>, data: Data, run: Run<S>, times: seq<int>)
    requires Fits(env, data, run) && SeriesAscend(data)
    requires Ascends(times) && times != [] && Ahead(data.series, run.next, times) && run.halt != BarSkipped
    ensures var r := BarStep(env, data, run, times[0]);
      r.halt != BarSkipped && (r.halt == Going ==> Ahead(data.series, r.next, times[1..]))
  {
    var t := times[0];
    if !run.Failed() {
      RevealAhead(data, run.next, times);
      BarsHalt(env, data, run.(next := Reveal(data.series, run.next, t)),
               DueList(data.series, run.next, t, |data.series|), t);
    }
  }

  lemma RevealAhead(data: Data, next: seq<nat>, times: seq<int>)
    requires SeriesAscend(data) && |next| == |data.series|
    requires Ascends(times) && times != [] && Ahead(data.series, next, times)
    ensures !Skipped(data.series, next, times[0])
    ensures Ahead(data.series, Reveal(data.series, next, times[0]), times[1..])
  {
    forall k | 0 <= k < |data.series| && next[k] < |data.series[k]|
      ensures data.series[k][next[k]].closeTime >= times[0]
    {
      assert Unseen(data.series, next, k, next[k]);
    }
    forall k: nat, i: nat | Unseen(data.series, Reveal(data.series, next, times[0]), k, i)
      ensures data.series[k][i].closeTime in times[1..]
    {
      assert Unseen(data.series, next, k, i) && Unseen(data.series, next, k, next[k]);
    }
  }

  lemma {:induction false} RunAhead<S>(env: Env<S>, data: Data, rolls: map<int, int>, run: Run<S>, times: seq<int>)
    requires Fits(env, data, run) && |env.minutes| > 0 && SeriesAscend(data)
    requires Ascends(times) && run.halt != BarSkipped && (run.halt == Going ==> Ahead(data.series, run.next, times))
    ensures var r := RunTimes(env, data, rolls, run, times);
      r.halt != BarSkipped && (r.halt == Going ==> Ahead(data.series, r.next, []))
    decreases |times|
  {
    if times != [] {
      if run.halt == Going {
        StepAhead(env, data, rolls, run, times);
      }
      RunAhead(env, data, rolls, StepTime(env, data, rolls, run, times[0]), times[1..]);
    }
  }

  /** When the bars of each series close in order, the loop never finds a bar it passed over, and a run that
      the strategy does not break has made every bar visible. */
  lemma EveryBarDelivered<S>(env: Env<S>, calendar: seq<(int, int)>, data: Data, strategy: S, balance: real)
    requires Subscribed(env, data) && SeriesAscend(data)
    ensures var r := WholeRun(env, calendar, data, strategy, balance);
      && r.halt != BarSkipped
      && (r.halt == Going ==> forall k :: 0 <= k < |data.series| ==> r.next[k] == |data.series[k]|)
  {
    var times, start := Timeline(calendar, data), Start(data, strategy, balance);
    UniqueSpec(Times(Rolls(calendar, data)) + AllCloses(data.series));
    forall k: nat, i: nat | Unseen(data.series, start.next, k, i)
      ensures data.series[k][i].closeTime in times
    {
      ClosesSpec(data.series, data.series[k][i].closeTime);
    }
    RunAhead(env, data, AsMap(Rolls(calendar, data)), start, times);
    var r := WholeRun(env, calendar, data, strategy, balance);
    if r.halt == Going {
      forall k | 0 <= k < |data.series|
        ensures r.next[k] == |data.series[k]|
      {
        assert !Unseen(data.series, r.next, k, r.next[k]);
      }
    }
  }

  // ---------------------------------------------------------------- rollovers and the span of the data

  function Marks(equity: seq<(int, real)>): (r: seq<int>)
    ensures |r| == |equity| && forall i :: 0 <= i < |r| ==> r[i] == equity[i].0
  {
    seq(|equity|, i requires 0 <= i < |equity| => equity[i].0)
  }

  function Rolled(times: seq<int>, rolls: map<int, int>): (r: seq<int>)
    ensures forall x :: x in r <==> x in times && x in rolls
  {
    if times == [] then []
    else (if times[0] in rolls then [times[0]] else []) + Rolled(times[1..], rolls)
  }

  lemma {:induction false} FillsEquity<S>(env: Env<S>, data: Data, run: Run<S>, fills: seq<Fill>, t: int)
    requires Fits(env, data, run) && |env.minutes| > 0
    ensures Fills(env, data, run, fills, t).equity == run.equity
    decreases |fills|
  {
    if fills != [] {
      if !run.Failed() {
        var (strategy, reqs) := env.onFill(run.strategy, ViewOf(data, run, t), fills[0]);
        HandleEquity(env, data, run.(strategy := strategy), reqs, t, env.minutes[0]);
      }
      FillsEquity(env, data, OneFill(env, data, run, fills[0], t), fills[1..], t);
    }
  }

  lemma HandleEquity<S>(env: Env<S>, data: Data, run: Run<S>, reqs: seq<Request>, now: int, minutes: nat)
    requires Fits(env, data, run)
    ensures var r := Handle(env, data, run, reqs, now, minutes); r.equity == run.equity && (run.Failed() ==> r.Failed())
  {
    var seen := CheckRequests(env, |data.symbols|, reqs, now, run.seen);
    if seen.Some? {
      HandleAllEquity(env, data, run.(seen := seen.value), reqs, now, minutes);
      HandleAllHalt(env, data, run.(seen := seen.value), reqs, now, minutes);
    }
  }

  lemma {:induction false} HandleAllEquity<S>(
    env: Env<S>, data: Data, run: Run<S>, reqs: seq<Request>, now: int, minutes: nat)
    requires Fits(env, data, run)
    requires forall n :: 0 <= n < |reqs| && reqs[n].Emit? ==> reqs[n].signal.symbol < |data.symbols|
    ensures HandleAll(env, data, run, reqs, now, minutes).equity == run.equity
    decreases |reqs|
  {
    if reqs != [] {
      HandleAllEquity(env, data, HandleOne(env, data, run, reqs[0], now, minutes), reqs[1..], now, minutes);
    }
  }

  lemma {:induction false} BarsEquity<S>(env: Env<S>, data: Data, run: Run<S>, due: seq<nat>, t: int)
    requires Fits(env, data, run) && forall m :: 0 <= m < |due| ==> due[m] < |data.series| && run.next[due[m]] > 0
    ensures var r := Bars(env, data, run, due, t); r.equity == run.equity && (run.Failed() ==> r.Failed())
    decreases |due|
  {
    if due != [] {
      OneBarEquity(env, data, run, due[0], t);
      BarsEquity(env, data, OneBar(env, data, run, due[0], t), due[1..], t);
    }
  }

  lemma OneBarEquity<S>(env: Env<S>, data: Data, run: Run<S>, k: nat, t: int)
    requires Fits(env, data, run) && k < |data.series| && run.next[k] > 0
    ensures var r := OneBar(env, data, run, k, t); r.equity == run.equity && (run.Failed() ==> r.Failed())
  {
    if !run.Failed() {
      var (strategy, reqs) := env.onBar(run.strategy, ViewOf(data, run, t), k, data.series[k][run.next[k] - 1]);
      HandleEquity(env, data, run.(strategy := strategy), reqs, t, env.minutes[k]);
    }
  }

  lemma StepMarks<S>(env: Env<S>, data: Data, rolls: map<int, int>, run: Run<S>, t: int)
    requires Fits(env, data, run) && |env.minutes| > 0
    ensures var r := StepTime(env, data, rolls, run, t);
      !r.Failed() ==> !run.Failed() && Marks(r.equity) == Marks(run.equity) + if t in rolls then [t] else []
  {
    if run.Failed() {
      return;
    }
    var run1 := run.(broker := AdvanceFrom(data.symbols, run.broker, t, 0));
    FillsEquity(env, data, TakeFills(run1), run1.broker.acct.fills, t);
    var run2 := Fills(env, data, TakeFills(run1), run1.broker.acct.fills, t);
    ChargeMarks(env, data, run2, rolls, t);
    BarStepEquity(env, data, ChargeRollover(env, data, run2, rolls, t), t);
  }

  lemma ChargeMarks<S>(env: Env<S>, data: Data, run: Run<S>, rolls: map<int, int>, t: int)
    requires Fits(env, data, run)
    ensures var r := ChargeRollover(env, data, run, rolls, t);
      && (run.Failed() ==> r.Failed())
      && (!r.Failed() ==> Marks(r.equity) == Marks(run.equity) + if t in rolls then [t] else [])
  {}

  lemma BarStepEquity<S>(env: Env<S>, data: Data, run: Run<S>, t: int)
    requires Fits(env, data, run)
    ensures var r := BarStep(env, data, run, t); r.equity == run.equity && (run.Failed() ==> r.Failed())
  {
    if !run.Failed() && !Skipped(data.series, run.next, t) {
      var run4 := run.(next := Reveal(data.series, run.next, t));
      BarsEquity(env, data, run4, DueList(data.series, run.next, t, |data.series|), t);
    }
  }

  /** A run that is still going has marked its equity at exactly the rollovers it has passed. */
  ghost predicate Marked<S>(run: Run<S>, marks: seq<int>) { !run.Failed() && Marks(run.equity) == marks }

  lemma {:induction false} RunMarks<S>(
    env: Env<S>, data: Data, rolls: map<int, int>, run: Run<S>, times: seq<int>, before: seq<int>)
    requires Fits(env, data, run) && |env.minutes| > 0
    requires Marked(run, before) || run.Failed()
    ensures var r := RunTimes(env, data, rolls, run, times);
      Marked(r, before + Rolled(times, rolls)) || r.Failed()
    decreases |times|
  {
    if times == [] {
      assert before + Rolled(times, rolls) == before;
    } else {
      var one := if times[0] in rolls then [times[0]] else [];
      assert (before + one) + Rolled(times[1..], rolls) == before + Rolled(times, rolls);
      var run1 := MarkStep(env, data, rolls, run, times[0], before, one);
      RunMarks(env, data, rolls, run1, times[1..], before + one);
    }
  }

  lemma MarkStep<S>(
    env: Env<S>, data: Data, rolls: map<int, int>, run: Run<S>, t: int, before: seq<int>, one: seq<int>)
    returns (r: Run<S>)
    requires Fits(env, data, run) && |env.minutes| > 0
    requires Marked(run, before) || run.Failed()
    requires one == if t in rolls then [t] else []
    ensures r == StepTime(env, data, rolls, run, t) && Fits(env, data, r) && (Marked(r, before + one) || r.Failed())
  {
    r := StepTime(env, data, rolls, run, t);
    StepMarks(env, data, rolls, run, t);
  }

  ghost predicate DistinctTimes(calendar: seq<(int, int)>) {
    forall x, y :: x in calendar && y in calendar && x.0 == y.0 ==> x == y
  }

  lemma {:induction false} AsMapValue(rolls: seq<(int, int)>, t: int)
    requires t in AsMap(rolls)
    ensures (t, AsMap(rolls)[t]) in rolls
  {
    if t in AsMap(rolls[1..]) {
      AsMapValue(rolls[1..], t);
    }
  }

  lemma MarksOfRun<S>(
    env: Env<S>, calendar: seq<(int, int)>, data: Data, strategy: S, balance: real, T: int, t: int)
    requires Subscribed(env, data) && t <= T
    requires !RunUpTo(env, calendar, data, strategy, balance, T).Failed()
    ensures t in Marks(RunUpTo(env, calendar, data, strategy, balance, T).equity) <==> t in RollsUpTo(calendar, data, T)
  {
    RunMarks(env, data, AsMap(Rolls(calendar, data)), Start(data, strategy, balance),
      UpTo(Timeline(calendar, data), T), []);
    RollsOnTimeline(calendar, data, T, t);
  }

  lemma RollsOnTimeline(calendar: seq<(int, int)>, data: Data, T: int, t: int)
    requires HasBars(data) && t <= T
    ensures t in Rolled(UpTo(Timeline(calendar, data), T), AsMap(Rolls(calendar, data)))
      <==> t in RollsUpTo(calendar, data, T)
  {
    var m, times := AsMap(Rolls(calendar, data)), Timeline(calendar, data);
    var a := UpTo(times, T);
    UniqueSpec(Times(Rolls(calendar, data)) + AllCloses(data.series));
    AsMapKeys(Rolls(calendar, data), t);
    if t in m {
      assert t in times;
      var n :| 0 <= n < |times| && times[n] == t;
      assert n < |a|;
      assert a[n] == t;
    }
  }

  /** Two data sets with the same past give the same run up to T exactly when they contain the same rollovers
      up to T. */
  lemma SameRunIffSameRollovers<S>(
    env: Env<S>, calendar: seq<(int, int)>, d1: Data, d2: Data, strategy: S, balance: real, T: int)
    requires Subscribed(env, d1) && Subscribed(env, d2) && Past(d1, T) == Past(d2, T) && DistinctTimes(calendar)
    requires !RunUpTo(env, calendar, d1, strategy, balance, T).Failed()
    ensures RunUpTo(env, calendar, d1, strategy, balance, T) == RunUpTo(env, calendar, d2, strategy, balance, T)
      <==> RollsUpTo(calendar, d1, T) == RollsUpTo(calendar, d2, T)
  {
    if RollsUpTo(calendar, d1, T) == RollsUpTo(calendar, d2, T) {
      SamePastSameRun(env, calendar, d1, d2, strategy, balance, T);
    }
    if RunUpTo(env, calendar, d1, strategy, balance, T) == RunUpTo(env, calendar, d2, strategy, balance, T) {
      SameRunSameRollovers(env, calendar, d1, d2, strategy, balance, T);
    }
  }

  lemma SameRunSameRollovers<S>(
    env: Env<S>, calendar: seq<(int, int)>, d1: Data, d2: Data, strategy: S, balance: real, T: int)
    requires Subscribed(env, d1) && Subscribed(env, d2) && DistinctTimes(calendar)
    requires !RunUpTo(env, calendar, d1, strategy, balance, T).Failed()
    requires RunUpTo(env, calendar, d1, strategy, balance, T) == RunUpTo(env, calendar, d2, strategy, balance, T)
    ensures RollsUpTo(calendar, d1, T) == RollsUpTo(calendar, d2, T)
  {
    var r1, r2 := RollsUpTo(calendar, d1, T), RollsUpTo(calendar, d2, T);
    forall t | t <= T
      ensures t in r1 <==> t in r2
    {
      MarksOfRun(env, calendar, d1, strategy, balance, T, t);
      MarksOfRun(env, calendar, d2, strategy, balance, T, t);
    }
    forall t | t in r1 && t in r2
      ensures r1[t] == r2[t]
    {
      AsMapValue(Rolls(calendar, d1), t);
      AsMapValue(Rolls(calendar, d2), t);
    }
    assert r1.Keys == r2.Keys;
  }

  /** Data that ends before a rollover does not contain it, so appending later bars can add a rollover in the
      past: here the longer data charges swaps at time 5, the shorter does not, and both agree up to 5. */
  lemma LaterBarsAddARollover(c: Costs, b1: Bar, b2: Bar, x1: Candle, x2: Candle)
    requires b1.openTime == 0 && b1.closeTime == 1 && b2.openTime == 9 && b2.closeTime == 10
    requires x1.closeTime == 1 && x2.closeTime == 10
    ensures var d1 := Data([SymbolData(c, [b1])], [[x1]]);
      var d2 := Data([SymbolData(c, [b1, b2])], [[x1, x2]]);
      && Past(d1, 5) == Past(d2, 5)
      && RollsUpTo([(5, 2)], d1, 5) == map[] && RollsUpTo([(5, 2)], d2, 5) == map[5 := 2]
  {
    SamePast(c, b1, b2, x1, x2);
    RollsOfSpan(Data([SymbolData(c, [b1])], [[x1]]), 1);
    RollsOfSpan(Data([SymbolData(c, [b1, b2])], [[x1, x2]]), 10);
    assert RollsIn([(5, 2)], 0, 1) == [];
    assert RollsIn([(5, 2)], 0, 10) == [(5, 2)];
    assert AsMap([(5, 2)]) == map[5 := 2];
  }

  lemma SamePast(c: Costs, b1: Bar, b2: Bar, x1: Candle, x2: Candle)
    requires b1.closeTime == 1 && b2.closeTime == 10 && x1.closeTime == 1 && x2.closeTime == 10
    ensures Past(Data([SymbolData(c, [b1])], [[x1]]), 5) == Past(Data([SymbolData(c, [b1, b2])], [[x1, x2]]), 5)
  {
    var d1, d2 := Data([SymbolData(c, [b1])], [[x1]]), Data([SymbolData(c, [b1, b2])], [[x1, x2]]);
    assert [b1, b2][..1] == [b1] && [b1][..1] == [b1];
    assert [x1, x2][..1] == [x1] && [x1][..1] == [x1];
    assert ClosedBy([b1], 5) == 1 && ClosedBy([b1, b2], 5) == 1;
    assert ClosedCandles([x1], 5) == 1 && ClosedCandles([x1, x2], 5) == 1;
    assert Past(d1, 5).symbols == Past(d2, 5).symbols;
    assert Past(d1, 5).series == Past(d2, 5).series;
  }

  /** The rollovers of one symbol whose bars span from 0 to here. */
  lemma RollsOfSpan(data: Data, end: int)
    requires |data.symbols| == 1 && data.symbols[0].bars != []
    requires data.symbols[0].bars[0].openTime == 0 && data.symbols[0].bars[|data.symbols[0].bars| - 1].closeTime == end
    ensures HasBars(data) && Rolls([(5, 2)], data) == RollsIn([(5, 2)], 0, end)
  {}
}
