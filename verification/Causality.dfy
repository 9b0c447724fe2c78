/** No lookahead: what a backtest has done by time T depends only on the bars that closed by T. */
module Causality {
  import opened Types
  import opened SimModel
  import opened BrokerModel
  import opened Backtest

  function ClosedCandles(cs: seq<Candle>, t: int): (n: nat)
    ensures n <= |cs|
    ensures n < |cs| ==> cs[n].closeTime > t
    ensures forall i :: n <= i < |cs| ==> cs[i].closeTime > t
  {
    if cs == [] || cs[|cs| - 1].closeTime <= t then |cs| else ClosedCandles(cs[..|cs| - 1], t)
  }

  function PastSymbol(d: SymbolData, T: int): SymbolData { d.(bars := d.bars[..ClosedBy(d.bars, T)]) }

  /** The part of the data that is known at time T. */
  function Past(data: Data, T: int): (r: Data)
    ensures |r.symbols| == |data.symbols| && |r.series| == |data.series|
  {
    Data(
      seq(|data.symbols|, k requires 0 <= k < |data.symbols| => PastSymbol(data.symbols[k], T)),
      seq(|data.series|, k requires 0 <= k < |data.series| => data.series[k][..ClosedCandles(data.series[k], T)]))
  }

  // ---------------------------------------------------------------- the broker reads only the past

  lemma {:induction false} ScanPast(c: Costs, bars: seq<Bar>, n: nat, b: Book, lo: nat, hi: nat)
    requires hi <= n <= |bars|
    ensures Scan(c, bars[..n], b, lo, hi) == Scan(c, bars, b, lo, hi)
    decreases hi - lo
  {
    if lo < hi {
      ScanPast(c, bars, n, ProcessBar(c, bars[lo], lo, b), lo + 1, hi);
    }
  }

  lemma {:induction false} ClosedPast(bars: seq<Bar>, t: int, T: int)
    requires t <= T
    ensures ClosedBy(bars[..ClosedBy(bars, T)], t) == ClosedBy(bars, t) <= ClosedBy(bars, T)
  {
    if bars != [] && bars[|bars| - 1].closeTime > T {
      ClosedPast(bars[..|bars| - 1], t, T);
      assert bars[..|bars| - 1][..ClosedBy(bars, T)] == bars[..ClosedBy(bars, T)];
    } else {
      assert bars[..|bars|] == bars;
    }
  }

  lemma AdvancedPast(symbols: seq<SymbolData>, past: seq<SymbolData>, T: int, b: Broker, t: int, k: nat)
    requires PastOf(symbols, past, T) && Shaped(symbols, b) && Shaped(past, b) && t <= T && k < |symbols|
    ensures ClosedBy(past[k].bars, t) == ClosedBy(symbols[k].bars, t) <= |past[k].bars|
    ensures Advanced(past, b, k, b.lastIdx[k] + 1, ClosedBy(past[k].bars, t))
      == Advanced(symbols, b, k, b.lastIdx[k] + 1, ClosedBy(symbols[k].bars, t))
  {
    var d := symbols[k];
    ClosedPast(d.bars, t, T);
    ScanPast(d.costs, d.bars, ClosedBy(d.bars, T), Focus(b, k), b.lastIdx[k] + 1, ClosedBy(d.bars, t));
  }

  ghost predicate PastOf(symbols: seq<SymbolData>, past: seq<SymbolData>, T: int) {
    |past| == |symbols| && forall k :: 0 <= k < |symbols| ==> past[k] == PastSymbol(symbols[k], T)
  }

  lemma AdvanceStep(symbols: seq<SymbolData>, b: Broker, t: int, k: nat)
    requires Shaped(symbols, b) && k < |symbols|
    ensures AdvanceFrom(symbols, b, t, k)
      == AdvanceFrom(symbols, Advanced(symbols, b, k, b.lastIdx[k] + 1, ClosedBy(symbols[k].bars, t)), t, k + 1)
  {}

  lemma {:induction false} AdvanceFromPast(
    symbols: seq<SymbolData>, past: seq<SymbolData>, T: int, b: Broker, t: int, k: nat)
    requires PastOf(symbols, past, T) && Shaped(symbols, b) && Shaped(past, b) && t <= T
    ensures AdvanceFrom(past, b, t, k) == AdvanceFrom(symbols, b, t, k)
    decreases |symbols| - k
  {
    if k < |symbols| {
      var b1 := OneSymbolPast(symbols, past, T, b, t, k);
      AdvanceFromPast(symbols, past, T, b1, t, k + 1);
    }
  }

  /** The next symbol, on the data and on its past. */
  lemma OneSymbolPast(symbols: seq<SymbolData>, past: seq<SymbolData>, T: int, b: Broker, t: int, k: nat)
    returns (b1: Broker)
    requires PastOf(symbols, past, T) && Shaped(symbols, b) && Shaped(past, b) && t <= T && k < |symbols|
    ensures Shaped(symbols, b1) && Shaped(past, b1)
    ensures AdvanceFrom(past, b, t, k) == AdvanceFrom(past, b1, t, k + 1)
    ensures AdvanceFrom(symbols, b, t, k) == AdvanceFrom(symbols, b1, t, k + 1)
  {
    AdvancedPast(symbols, past, T, b, t, k);
    AdvanceStep(symbols, b, t, k);
    AdvanceStep(past, b, t, k);
    b1 := Advanced(past, b, k, b.lastIdx[k] + 1, ClosedBy(past[k].bars, t));
  }

  lemma {:induction false} SwapsPast(
    symbols: seq<SymbolData>, past: seq<SymbolData>, T: int, b: Broker, weekday: int, k: nat)
    requires PastOf(symbols, past, T) && Shaped(symbols, b) && Shaped(past, b)
    ensures SwapsFrom(past, b, weekday, k) == SwapsFrom(symbols, b, weekday, k)
    decreases |symbols| - k
  {
    if k < |symbols| {
      if b.lastIdx[k] < 0 {
        SwapsPast(symbols, past, T, b, weekday, k + 1);
      } else {
        var c, price := symbols[k].costs, symbols[k].bars[b.lastIdx[k]].bidC;
        var b1 := b.(positions := b.positions[k := WithSwaps(c, b.positions[k], price, weekday)],
                     acct := b.acct.(balance := b.acct.balance + SwapTotal(c, b.positions[k], price, weekday)));
        SwapsPast(symbols, past, T, b1, weekday, k + 1);
      }
    }
  }

  lemma {:induction false} FloatingPast(symbols: seq<SymbolData>, past: seq<SymbolData>, T: int, b: Broker, n: nat)
    requires PastOf(symbols, past, T) && Shaped(symbols, b) && Shaped(past, b) && n <= |symbols|
    ensures FloatingUpTo(past, b, n) == FloatingUpTo(symbols, b, n)
    ensures OpenRisk(past, b, n) == OpenRisk(symbols, b, n)
  {
    if n > 0 {
      FloatingPast(symbols, past, T, b, n - 1);
      assert past[n - 1].costs == symbols[n - 1].costs;
    }
  }

  // ---------------------------------------------------------------- the loop reads only the past

  /** The same call on the data and on its past. */
  ghost predicate Both<S>(env: Env<S>, data: Data, T: int, run: Run<S>) {
    Fits(env, data, run) && Fits(env, Past(data, T), run) && |env.minutes| > 0
  }

  lemma PastSymbols(data: Data, T: int)
    ensures PastOf(data.symbols, Past(data, T).symbols, T)
  {}

  lemma ViewPast<S>(env: Env<S>, data: Data, T: int, run: Run<S>, now: int)
    requires Both(env, data, T, run)
    ensures ViewOf(Past(data, T), run, now) == ViewOf(data, run, now)
  {
    var a, b := ViewOf(Past(data, T), run, now), ViewOf(data, run, now);
    forall k | 0 <= k < |data.series|
      ensures a.visible[k] == b.visible[k]
    {
      assert data.series[k][..ClosedCandles(data.series[k], T)][..run.next[k]] == data.series[k][..run.next[k]];
    }
    assert a.visible == b.visible;
  }

  lemma HandleOnePast<S>(env: Env<S>, data: Data, T: int, run: Run<S>, req: Request, now: int, minutes: nat)
    requires Both(env, data, T, run) && (req.Emit? ==> req.signal.symbol < |data.symbols|)
    ensures HandleOne(env, Past(data, T), run, req, now, minutes) == HandleOne(env, data, run, req, now, minutes)
  {
    PastSymbols(data, T);
    if req.Emit? {
      OutcomePast(env, data.symbols, Past(data, T).symbols, T, run.broker, req.signal, now, minutes);
    } else if req.MoveStopTo? {
      StopPast(data.symbols, Past(data, T).symbols, T, run.broker, env.strategyId, req.id, req.stop, now);
    }
  }

  lemma OutcomePast<S>(
    env: Env<S>, symbols: seq<SymbolData>, past: seq<SymbolData>, T: int, b: Broker, s: Signal, now: int, minutes: nat)
    requires PastOf(symbols, past, T) && Shaped(symbols, b) && Shaped(past, b) && s.symbol < |symbols|
    ensures EntryOutcome(env, past, b, s, now, minutes) == EntryOutcome(env, symbols, b, s, now, minutes)
  {
    FloatingPast(symbols, past, T, b, |symbols|);
    if b.lastIdx[s.symbol] >= 0 {
      assert past[s.symbol].bars[b.lastIdx[s.symbol]] == symbols[s.symbol].bars[b.lastIdx[s.symbol]];
      assert Ask(env, past, b, s) == Ask(env, symbols, b, s);
    }
  }

  lemma StopPast(
    symbols: seq<SymbolData>, past: seq<SymbolData>, T: int, b: Broker, strategyId: string, id: string, stop: real,
    now: int)
    requires PastOf(symbols, past, T) && Shaped(symbols, b) && Shaped(past, b)
    ensures StopModified(past, b, strategyId, id, stop, now) == StopModified(symbols, b, strategyId, id, stop, now)
  {}

  lemma {:induction false} HandleAllPast<S>(
    env: Env<S>, data: Data, T: int, run: Run<S>, reqs: seq<Request>, now: int, minutes: nat)
    requires Both(env, data, T, run)
    requires forall n :: 0 <= n < |reqs| && reqs[n].Emit? ==> reqs[n].signal.symbol < |data.symbols|
    ensures HandleAll(env, Past(data, T), run, reqs, now, minutes) == HandleAll(env, data, run, reqs, now, minutes)
    decreases |reqs|
  {
    if reqs != [] {
      HandleOnePast(env, data, T, run, reqs[0], now, minutes);
      HandleAllPast(env, data, T, HandleOne(env, data, run, reqs[0], now, minutes), reqs[1..], now, minutes);
    }
  }

  lemma HandlePast<S>(env: Env<S>, data: Data, T: int, run: Run<S>, reqs: seq<Request>, now: int, minutes: nat)
    requires Both(env, data, T, run)
    ensures Handle(env, Past(data, T), run, reqs, now, minutes) == Handle(env, data, run, reqs, now, minutes)
    ensures Both(env, data, T, Handle(env, data, run, reqs, now, minutes))
  {
    var seen := CheckRequests(env, |data.symbols|, reqs, now, run.seen);
    if seen.Some? {
      HandleAllPast(env, data, T, run.(seen := seen.value), reqs, now, minutes);
    }
  }

  lemma {:induction false} FillsPast<S>(env: Env<S>, data: Data, T: int, run: Run<S>, fills: seq<Fill>, t: int)
    requires Both(env, data, T, run)
    ensures Fills(env, Past(data, T), run, fills, t) == Fills(env, data, run, fills, t)
    decreases |fills|
  {
    if fills != [] {
      OneFillPast(env, data, T, run, fills[0], t);
      FillsPast(env, data, T, OneFill(env, data, run, fills[0], t), fills[1..], t);
    }
  }

  lemma OneFillPast<S>(env: Env<S>, data: Data, T: int, run: Run<S>, fill: Fill, t: int)
    requires Both(env, data, T, run)
    ensures OneFill(env, Past(data, T), run, fill, t) == OneFill(env, data, run, fill, t)
    ensures Both(env, data, T, OneFill(env, data, run, fill, t))
  {
    if !run.Failed() {
      ViewPast(env, data, T, run, t);
      var (strategy, reqs) := env.onFill(run.strategy, ViewOf(data, run, t), fill);
      HandlePast(env, data, T, run.(strategy := strategy), reqs, t, env.minutes[0]);
    }
  }

  lemma OneBarPast<S>(env: Env<S>, data: Data, T: int, run: Run<S>, k: nat, t: int)
    requires Both(env, data, T, run) && k < |data.series| && run.next[k] > 0
    ensures OneBar(env, Past(data, T), run, k, t) == OneBar(env, data, run, k, t)
    ensures Both(env, data, T, OneBar(env, data, run, k, t))
  {
    if !run.Failed() {
      ViewPast(env, data, T, run, t);
      var (strategy, reqs) := env.onBar(run.strategy, ViewOf(data, run, t), k, data.series[k][run.next[k] - 1]);
      HandlePast(env, data, T, run.(strategy := strategy), reqs, t, env.minutes[k]);
    }
  }

  lemma {:induction false} BarsPast<S>(env: Env<S>, data: Data, T: int, run: Run<S>, due: seq<nat>, t: int)
    requires Both(env, data, T, run) && forall m :: 0 <= m < |due| ==> due[m] < |data.series| && run.next[due[m]] > 0
    ensures Bars(env, Past(data, T), run, due, t) == Bars(env, data, run, due, t)
    decreases |due|
  {
    if due != [] {
      OneBarPast(env, data, T, run, due[0], t);
      BarsPast(env, data, T, OneBar(env, data, run, due[0], t), due[1..], t);
    }
  }

  lemma {:induction false} DuePast(
    series: seq<seq<Candle>>, past: seq<seq<Candle>>, T: int, next: seq<nat>, t: int, n: nat)
    requires n <= |series| == |past| == |next| && t <= T
    requires forall k :: 0 <= k < |series| ==>
      past[k] == series[k][..ClosedCandles(series[k], T)] && next[k] <= |past[k]|
    ensures DueList(past, next, t, n) == DueList(series, next, t, n)
    ensures forall k :: 0 <= k < |series| ==> IsDue(past, next, t, k) == IsDue(series, next, t, k)
    ensures Skipped(past, next, t) == Skipped(series, next, t)
  {
    if n > 0 {
      DuePast(series, past, T, next, t, n - 1);
    }
  }

  lemma BarStepPast<S>(env: Env<S>, data: Data, T: int, run: Run<S>, t: int)
    requires Both(env, data, T, run) && t <= T
    ensures BarStep(env, Past(data, T), run, t) == BarStep(env, data, run, t)
    ensures Both(env, data, T, BarStep(env, data, run, t))
  {
    var past := Past(data, T);
    DuePast(data.series, past.series, T, run.next, t, |data.series|);
    if !run.Failed() && !Skipped(data.series, run.next, t) {
      assert Reveal(past.series, run.next, t) == Reveal(data.series, run.next, t);
      var run1 := run.(next := Reveal(data.series, run.next, t));
      BarsPast(env, data, T, run1, DueList(data.series, run.next, t, |data.series|), t);
    }
  }

  ghost predicate AgreeAt(a: map<int, int>, b: map<int, int>, t: int) {
    (t in a <==> t in b) && (t in a && t in b ==> a[t] == b[t])
  }

  lemma StepPast<S>(env: Env<S>, data: Data, T: int, rolls: map<int, int>, rolls': map<int, int>, run: Run<S>, t: int)
    requires Both(env, data, T, run) && t <= T && AgreeAt(rolls, rolls', t)
    ensures StepTime(env, Past(data, T), rolls', run, t) == StepTime(env, data, rolls, run, t)
    ensures Both(env, data, T, StepTime(env, data, rolls, run, t))
  {
    if run.Failed() {
      return;
    }
    var past := Past(data, T);
    PastSymbols(data, T);
    AdvanceFromPast(data.symbols, past.symbols, T, run.broker, t, 0);
    var run1 := run.(broker := AdvanceFrom(data.symbols, run.broker, t, 0));
    FillsPast(env, data, T, TakeFills(run1), run1.broker.acct.fills, t);
    var run2 := Fills(env, data, TakeFills(run1), run1.broker.acct.fills, t);
    RolloverPast(env, data, T, rolls, rolls', run2, t);
    BarStepPast(env, data, T, ChargeRollover(env, data, run2, rolls, t), t);
  }

  lemma RolloverPast<S>(
    env: Env<S>, data: Data, T: int, rolls: map<int, int>, rolls': map<int, int>, run: Run<S>, t: int)
    requires Both(env, data, T, run) && AgreeAt(rolls, rolls', t)
    ensures ChargeRollover(env, Past(data, T), run, rolls', t) == ChargeRollover(env, data, run, rolls, t)
    ensures Both(env, data, T, ChargeRollover(env, data, run, rolls, t))
  {
    if !run.Failed() && t in rolls {
      PastSymbols(data, T);
      SwapsPast(data.symbols, Past(data, T).symbols, T, run.broker, rolls[t], 0);
      var b := SwapsCharged(data.symbols, run.broker, rolls[t]);
      FloatingPast(data.symbols, Past(data, T).symbols, T, b, |data.symbols|);
    }
  }

  lemma {:induction false} RunPast<S>(
    env: Env<S>, data: Data, T: int, rolls: map<int, int>, rolls': map<int, int>, run: Run<S>, times: seq<int>)
    requires Both(env, data, T, run)
    requires forall n :: 0 <= n < |times| ==> times[n] <= T && AgreeAt(rolls, rolls', times[n])
    ensures RunTimes(env, Past(data, T), rolls', run, times) == RunTimes(env, data, rolls, run, times)
    decreases |times|
  {
    if times != [] {
      StepPast(env, data, T, rolls, rolls', run, times[0]);
      RunPast(env, data, T, rolls, rolls', StepTime(env, data, rolls, run, times[0]), times[1..]);
    }
  }

  // ---------------------------------------------------------------- the timeline up to T

  ghost predicate Ascends(ts: seq<int>) { forall i, j :: 0 <= i < j < |ts| ==> ts[i] < ts[j] }

  lemma {:induction false} InsertSpec(ts: seq<int>, t: int)
    requires Ascends(ts)
    ensures Ascends(Insert(ts, t))
    ensures forall x :: x in Insert(ts, t) <==> x == t || x in ts
  {
    if ts != [] && t > ts[0] {
      InsertSpec(ts[1..], t);
      assert forall x :: x in Insert(ts[1..], t) ==> ts[0] < x;
    }
  }

  /** The timeline is the strictly ascending list of exactly the given times. */
  lemma {:induction false} UniqueSpec(ts: seq<int>)
    ensures Ascends(Unique(ts))
    ensures forall x :: x in Unique(ts) <==> x in ts
  {
    if ts != [] {
      UniqueSpec(ts[1..]);
      InsertSpec(Unique(ts[1..]), ts[0]);
    }
  }

  function UpTo(ts: seq<int>, T: int): (r: seq<int>)
    ensures |r| <= |ts| && r == ts[..|r|]
    ensures forall n :: 0 <= n < |r| ==> r[n] <= T
    ensures |r| < |ts| ==> ts[|r|] > T
  {
    if ts == [] || ts[0] > T then [] else [ts[0]] + UpTo(ts[1..], T)
  }

  lemma {:induction false} UpToSame(a: seq<int>, b: seq<int>, T: int)
    requires Ascends(a) && Ascends(b)
    requires forall x :: x <= T ==> (x in a <==> x in b)
    ensures UpTo(a, T) == UpTo(b, T)
  {
    if a != [] && a[0] <= T {
      assert a[0] in b;
      assert b[0] <= a[0];
      assert b[0] in a;
      assert b[0] == a[0];
      forall x | x <= T
        ensures x in a[1..] <==> x in b[1..]
      {
        assert x in a <==> x == a[0] || x in a[1..];
        assert x in b <==> x == b[0] || x in b[1..];
      }
      UpToSame(a[1..], b[1..], T);
    } else {
      assert forall x :: x in a ==> x > T;
      assert forall x :: x in b ==> x > T;
      assert b != [] ==> b[0] in b;
    }
  }

  lemma {:induction false} ClosesSpec(series: seq<seq<Candle>>, x: int)
    ensures x in AllCloses(series)
      <==> exists k, i :: 0 <= k < |series| && 0 <= i < |series[k]| && series[k][i].closeTime == x
  {
    if series != [] {
      ClosesSpec(series[1..], x);
      if x in AllCloses(series[1..]) {
        var k, i :| 0 <= k < |series[1..]| && 0 <= i < |series[1..][k]| && series[1..][k][i].closeTime == x;
        assert series[k + 1][i].closeTime == x;
      }
      if x in CloseTimes(series[0]) {
        var i :| 0 <= i < |series[0]| && CloseTimes(series[0])[i] == x;
        assert series[0][i].closeTime == x;
      }
      if k, i :| 0 <= k < |series| && 0 <= i < |series[k]| && series[k][i].closeTime == x {
        if k == 0 {
          assert CloseTimes(series[0])[i] == x;
        } else {
          assert series[1..][k - 1][i].closeTime == x;
        }
      }
    }
  }

  lemma ClosesPast(data: Data, T: int, x: int)
    requires x <= T
    ensures x in AllCloses(data.series) <==> x in AllCloses(Past(data, T).series)
  {
    var past := Past(data, T).series;
    ClosesSpec(data.series, x);
    ClosesSpec(past, x);
    if k, i :| 0 <= k < |data.series| && 0 <= i < |data.series[k]| && data.series[k][i].closeTime == x {
      assert past[k][i].closeTime == x;
    }
    if k, i :| 0 <= k < |past| && 0 <= i < |past[k]| && past[k][i].closeTime == x {
      assert data.series[k][i].closeTime == x;
    }
  }

  lemma {:induction false} AsMapKeys(rolls: seq<(int, int)>, x: int)
    ensures x in AsMap(rolls) <==> x in Times(rolls)
  {
    if rolls != [] {
      AsMapKeys(rolls[1..], x);
      assert Times(rolls) == [rolls[0].0] + Times(rolls[1..]);
    }
  }

  function RollsUpTo(calendar: seq<(int, int)>, data: Data, T: int): map<int, int>
    requires HasBars(data)
  {
    Upto(AsMap(Rolls(calendar, data)), T)
  }

  function Upto(m: map<int, int>, T: int): map<int, int> { map t | t in m && t <= T :: m[t] }

  lemma TimelineUpTo(calendar: seq<(int, int)>, d1: Data, d2: Data, T: int)
    requires HasBars(d1) && HasBars(d2) && Past(d1, T) == Past(d2, T)
    requires RollsUpTo(calendar, d1, T) == RollsUpTo(calendar, d2, T)
    ensures UpTo(Timeline(calendar, d1), T) == UpTo(Timeline(calendar, d2), T)
    ensures forall t :: t <= T ==> AgreeAt(AsMap(Rolls(calendar, d1)), AsMap(Rolls(calendar, d2)), t)
    ensures forall t :: t <= T ==> AgreeAt(AsMap(Rolls(calendar, d2)), AsMap(Rolls(calendar, d1)), t)
  {
    var m1, m2 := AsMap(Rolls(calendar, d1)), AsMap(Rolls(calendar, d2));
    forall t | t <= T
      ensures AgreeAt(m1, m2, t) && AgreeAt(m2, m1, t)
    {
      assert t in m1 <==> t in RollsUpTo(calendar, d1, T);
      assert t in m2 <==> t in RollsUpTo(calendar, d2, T);
      if t in m1 {
        assert m1[t] == RollsUpTo(calendar, d1, T)[t];
      }
    }
    UniqueSpec(Times(Rolls(calendar, d1)) + AllCloses(d1.series));
    UniqueSpec(Times(Rolls(calendar, d2)) + AllCloses(d2.series));
    forall x | x <= T
      ensures x in Timeline(calendar, d1) <==> x in Timeline(calendar, d2)
    {
      ClosesPast(d1, T, x);
      ClosesPast(d2, T, x);
      AsMapKeys(Rolls(calendar, d1), x);
      AsMapKeys(Rolls(calendar, d2), x);
      assert AgreeAt(m1, m2, x);
    }
    UpToSame(Timeline(calendar, d1), Timeline(calendar, d2), T);
  }

  // ---------------------------------------------------------------- causality

  ghost predicate Subscribed<S>(env: Env<S>, data: Data) {
    HasBars(data) && |data.series| == |env.minutes| == |env.warmup| && |env.minutes| > 0
  }

  /** The state of the run once every event time up to T has been handled. */
  ghost function RunUpTo<S>(
    env: Env<S>, calendar: seq<(int, int)>, data: Data, strategy: S, balance: real, T: int): (r: Run<S>)
    requires Subscribed(env, data)
    ensures Fits(env, data, r)
  {
    RunTimes(env, data, AsMap(Rolls(calendar, data)), Start(data, strategy, balance), UpTo(Timeline(calendar, data), T))
  }

  /** Two data sets that agree on every bar closed by T, and on the rollovers up to T, give the same run up
      to T: signals, trades, rejections, balance, positions, equity curve and strategy state. */
  lemma SamePastSameRun<S>(
    env: Env<S>, calendar: seq<(int, int)>, d1: Data, d2: Data, strategy: S, balance: real, T: int)
    requires Subscribed(env, d1) && Subscribed(env, d2) && Past(d1, T) == Past(d2, T)
    requires RollsUpTo(calendar, d1, T) == RollsUpTo(calendar, d2, T)
    ensures RunUpTo(env, calendar, d1, strategy, balance, T) == RunUpTo(env, calendar, d2, strategy, balance, T)
  {
    TimelineUpTo(calendar, d1, d2, T);
    var m := AsMap(Rolls(calendar, d1));
    assert forall t :: AgreeAt(m, m, t);
    RunUpToPast(env, calendar, d1, strategy, balance, T, m);
    RunUpToPast(env, calendar, d2, strategy, balance, T, m);
  }

  ghost function FromStart<S>(
    env: Env<S>, data: Data, rolls: map<int, int>, strategy: S, balance: real, times: seq<int>): Run<S>
    requires |data.series| == |env.minutes| == |env.warmup| && |env.minutes| > 0
  {
    RunTimes(env, data, rolls, Start(data, strategy, balance), times)
  }

  lemma RunUpToPast<S>(
    env: Env<S>, calendar: seq<(int, int)>, data: Data, strategy: S, balance: real, T: int, rolls: map<int, int>)
    requires Subscribed(env, data)
    requires forall t :: t <= T ==> AgreeAt(AsMap(Rolls(calendar, data)), rolls, t)
    ensures RunUpTo(env, calendar, data, strategy, balance, T)
      == FromStart(env, Past(data, T), rolls, strategy, balance, UpTo(Timeline(calendar, data), T))
  {
    StartPast(data, strategy, balance, T);
    RunPast(env, data, T, AsMap(Rolls(calendar, data)), rolls, Start(data, strategy, balance),
            UpTo(Timeline(calendar, data), T));
  }

  lemma StartPast<S>(data: Data, strategy: S, balance: real, T: int)
    ensures Start(data, strategy, balance) == Start(Past(data, T), strategy, balance)
  {}

  /** Rollovers are taken from the span of the data, so they agree when both spans start together and
      reach T. */
  lemma SpansAgree(calendar: seq<(int, int)>, d1: Data, d2: Data, T: int)
    requires HasBars(d1) && HasBars(d2) && StartOf(d1.symbols) == StartOf(d2.symbols)
    requires T <= EndOf(d1.symbols) && T <= EndOf(d2.symbols)
    ensures RollsUpTo(calendar, d1, T) == RollsUpTo(calendar, d2, T)
  {
    RollsSame(calendar, StartOf(d1.symbols), EndOf(d1.symbols), EndOf(d2.symbols), T);
  }

  lemma {:induction false} RollsSame(calendar: seq<(int, int)>, start: int, e1: int, e2: int, T: int)
    requires T <= e1 && T <= e2
    ensures Upto(AsMap(RollsIn(calendar, start, e1)), T) == Upto(AsMap(RollsIn(calendar, start, e2)), T)
  {
    if calendar != [] {
      RollsSame(calendar[1..], start, e1, e2, T);
      RollsCons(calendar, start, e1, T);
      RollsCons(calendar, start, e2, T);
    }
  }

  lemma RollsCons(calendar: seq<(int, int)>, start: int, e: int, T: int)
    requires calendar != [] && T <= e
    ensures var x, rest := calendar[0], Upto(AsMap(RollsIn(calendar[1..], start, e)), T);
      Upto(AsMap(RollsIn(calendar, start, e)), T) == if start <= x.0 <= T then map[x.0 := x.1] + rest else rest
  {
    var x, r := calendar[0], RollsIn(calendar[1..], start, e);
    UptoCons(x, r, T);
    assert [] + r == r;
  }

  lemma UptoCons(x: (int, int), rolls: seq<(int, int)>, T: int)
    ensures Upto(AsMap([x] + rolls), T)
      == (if x.0 <= T then map[x.0 := x.1] + Upto(AsMap(rolls), T) else Upto(AsMap(rolls), T))
  {
    assert ([x] + rolls)[1..] == rolls;
  }
}
