/** Quotes, builder, runner: the batches that the builder hands over are batches the runner takes without raising,
    and a strategy fed by them does what it does in the backtest on the historical bars of the same quotes. */
module LiveParity {
  import opened Types
  import opened Events
  import opened BrokerModel
  import opened Backtest
  import opened Causality
  import opened BacktestLaws
  import opened LiveModel
  import Bars = LiveBarsModel
  import Laws = LiveBarsLaws

  // ---------------------------------------------------------------- appending never raises

  /** The event comes after what its series already holds. */
  predicate Extends<S>(live: Live<S>, e: Event) {
    e.sub < |live.buffers| && (var b := live.buffers[e.sub]; b == [] || b[|b| - 1].closeTime < e.At())
  }

  lemma AppendOne<S>(live: Live<S>, e: Event, later: seq<Event>)
    requires !live.broken && Extends(live, e) && Ordered([e] + later)
    requires forall i :: 0 <= i < |later| ==> Extends(live, later[i])
    ensures var r := Append(live, e);
      && r == live.(buffers := r.buffers)
      && (forall i :: 0 <= i < |later| ==> Extends(r, later[i]))
      && forall k: nat :: k < |live.buffers| ==> r.buffers[k] == live.buffers[k] + Project([e], k)
  {
    var r := Append(live, e);
    forall i | 0 <= i < |later|
      ensures Extends(r, later[i])
    {
      assert Before(([e] + later)[0], ([e] + later)[i + 1]);
    }
    forall k: nat | k < |live.buffers|
      ensures r.buffers[k] == live.buffers[k] + Project([e], k)
    {
      ProjectOne(e, k);
    }
  }

  /** Events in order that come after what is there are appended without raising, each to its own series. */
  lemma {:induction false} AppendsInOrder<S>(live: Live<S>, es: seq<Event>)
    requires Ordered(es) && !live.broken
    requires forall i :: 0 <= i < |es| ==> es[i].sub < |live.buffers| && Extends(live, es[i])
    ensures var r := AppendAll(live, es);
      && r == live.(buffers := r.buffers)
      && forall k: nat :: k < |live.buffers| ==> r.buffers[k] == live.buffers[k] + Project(es, k)
    decreases |es|
  {
    if es != [] {
      var rest := es[1..];
      assert es == [es[0]] + rest;
      AppendOne(live, es[0], rest);
      var live1 := Append(live, es[0]);
      AppendsInOrder(live1, rest);
      forall k: nat | k < |live.buffers|
        ensures AppendAll(live1, rest).buffers[k] == live.buffers[k] + Project(es, k)
      {
        ProjectJoin([es[0]], rest, k);
        ConcatAssociates(live.buffers[k], Project([es[0]], k), Project(rest, k));
      }
    }
  }

  // ---------------------------------------------------------------- the builder's calls as batches

  /** What the builder returns, call by call. */
  function Calls(cfg: Bars.Config, xs: seq<Bars.Input>): seq<seq<Event>>
    requires Bars.WellFormed(cfg)
  {
    if xs == [] then []
    else
      var front := xs[..|xs| - 1];
      Calls(cfg, front) + [Bars.Step(cfg, Bars.Run(cfg, front).builder, xs[|xs| - 1]).events]
  }

  lemma {:induction false} OneMoreBatch<S>(
    env: Env<S>, symbols: nat, live: Live<S>, batches: seq<seq<Event>>, last: seq<Event>, views: Views)
    requires |env.warmup| == |live.buffers|
    ensures OnBatches(env, symbols, live, batches + [last], views)
      == OnBars(env, symbols, OnBatches(env, symbols, live, batches, views), last, views)
    decreases |batches|
  {
    var all := batches + [last];
    if batches == [] {
      assert all == [last];
      assert OnBatches(env, symbols, live, [last], views)
        == OnBatches(env, symbols, OnBars(env, symbols, live, last, views), [last][1..], views);
    } else {
      assert all[0] == batches[0] && all[1..] == batches[1..] + [last];
      OneMoreBatch(env, symbols, OnBars(env, symbols, live, batches[0], views), batches[1..], last, views);
    }
  }

  /** Everything of one call closes after the cut before it, in event order. */
  lemma CallAfterCut(cfg: Bars.Config, xs: seq<Bars.Input>, x: Bars.Input)
    requires Bars.WellFormed(cfg) && Laws.GoodBuckets(cfg) && Laws.NoneReopens(cfg, xs + [x])
    ensures var before, call := Bars.Run(cfg, xs).events, Bars.Step(cfg, Bars.Run(cfg, xs).builder, x).events;
      && Bars.Run(cfg, xs + [x]).events == before + call && Ordered(call)
      && (forall i :: 0 <= i < |before| ==> before[i].sub < |cfg.subs| && before[i].At() <= Laws.Cut(cfg, xs))
      && (forall i :: 0 <= i < |call| ==> call[i].sub < |cfg.subs| && call[i].At() > Laws.Cut(cfg, xs))
  {
    assert (xs + [x])[..|xs|] == xs;
    Laws.NoneBefore(cfg, xs + [x]);
    Laws.RunInv(cfg, xs);
    Laws.OneMoreInput(cfg, xs, x);
    EmitsAfterCut(cfg, Laws.AllMinutes(cfg, xs), Laws.Cut(cfg, xs), Bars.Run(cfg, xs).builder, Bars.Run(cfg, xs).events,
      x);
  }

  lemma EmitsAfterCut(
    cfg: Bars.Config, Ts: seq<seq<Candle>>, cut: int, st: Bars.Builder, es: seq<Event>, x: Bars.Input)
    requires Laws.GoodBuckets(cfg) && Laws.Inv(cfg, Ts, cut, st, es) && Bars.TimeOf(x) < Bars.NEVER
    ensures Bars.Shaped(cfg, st)
    ensures var call := Bars.Step(cfg, st, x).events;
      Ordered(call) && forall i :: 0 <= i < |call| ==> call[i].sub < |cfg.subs| && call[i].At() > cut
  {
    var cutoff := Bars.CutoffOf(cfg, x);
    StepEvents(cfg, st, x);
    if cutoff >= st.nextDue {
      Laws.PastCut(cfg, Ts, cut, st, es, cutoff);
      Laws.SlowEvents(cfg, Ts, cut, st, es, cutoff);
    }
  }

  lemma StepEvents(cfg: Bars.Config, st: Bars.Builder, x: Bars.Input)
    requires Bars.WellFormed(cfg) && Bars.Shaped(cfg, st)
    ensures Bars.Step(cfg, st, x).events
      == if Bars.CutoffOf(cfg, x) < st.nextDue then [] else Bars.Slow(cfg, st, Bars.CutoffOf(cfg, x)).events
  {}

  /** A batch in event order is processed as it is. */
  lemma OrderedBatch<S>(env: Env<S>, symbols: nat, live: Live<S>, es: seq<Event>, views: Views)
    requires |env.warmup| == |live.buffers| && Ordered(es)
    requires forall i :: 0 <= i < |es| ==> es[i].sub < |live.buffers|
    ensures OnBars(env, symbols, live, es, views) == Groups(env, symbols, live, es, views)
  {
    SortShuffle(es, es);
  }

  lemma RunSubs(cfg: Bars.Config, xs: seq<Bars.Input>)
    requires Bars.WellFormed(cfg) && Laws.GoodBuckets(cfg) && Laws.NoneReopens(cfg, xs)
    ensures forall i :: 0 <= i < |Bars.Run(cfg, xs).events| ==> Bars.Run(cfg, xs).events[i].sub < |cfg.subs|
  {
    Laws.RunInv(cfg, xs);
  }

  /** Call by call, the runner does what it does with the whole list of events. */
  lemma {:induction false} CallsAreStream<S>(
    env: Env<S>, symbols: nat, live: Live<S>, cfg: Bars.Config, xs: seq<Bars.Input>, views: Views)
    requires |env.warmup| == |live.buffers| == |cfg.subs|
    requires Bars.WellFormed(cfg) && Laws.GoodBuckets(cfg) && Laws.NoneReopens(cfg, xs)
    ensures forall i :: 0 <= i < |Bars.Run(cfg, xs).events| ==> Bars.Run(cfg, xs).events[i].sub < |live.buffers|
    ensures OnBatches(env, symbols, live, Calls(cfg, xs), views)
      == Groups(env, symbols, live, Bars.Run(cfg, xs).events, views)
    decreases |xs|
  {
    RunSubs(cfg, xs);
    if xs != [] {
      var front, x := xs[..|xs| - 1], xs[|xs| - 1];
      Laws.NoneBefore(cfg, xs);
      Laws.FrontAndLast(xs);
      CallsAreStream(env, symbols, live, cfg, front, views);
      CallAfterCut(cfg, front, x);
      NextCall(env, symbols, live, Calls(cfg, front), Bars.Run(cfg, front).events,
        Bars.Step(cfg, Bars.Run(cfg, front).builder, x).events, Laws.Cut(cfg, front), views);
    }
  }

  lemma NextCall<S>(
    env: Env<S>, symbols: nat, live: Live<S>, calls: seq<seq<Event>>, before: seq<Event>, call: seq<Event>, cut: int,
    views: Views)
    requires |env.warmup| == |live.buffers| && Ordered(call)
    requires forall i :: 0 <= i < |before| ==> before[i].sub < |live.buffers| && before[i].At() <= cut
    requires forall i :: 0 <= i < |call| ==> call[i].sub < |live.buffers| && call[i].At() > cut
    requires OnBatches(env, symbols, live, calls, views) == Groups(env, symbols, live, before, views)
    ensures OnBatches(env, symbols, live, calls + [call], views) == Groups(env, symbols, live, before + call, views)
  {
    OneMoreBatch(env, symbols, live, calls, call, views);
    OrderedBatch(env, symbols, OnBatches(env, symbols, live, calls, views), call, views);
    GroupsJoin(env, symbols, live, before, call, views);
  }

  // ---------------------------------------------------------------- the stream of a data set, series by series

  lemma OneMoreDue(series: seq<seq<Candle>>, next: seq<nat>, due: seq<nat>, k: nat, j: nat)
    requires |series| == |next| && k < |series| && next[k] < |series[k]|
    requires forall m :: 0 <= m < |due| ==> due[m] < |series| && next[due[m]] < |series[due[m]]|
    ensures Project(EventsOf(series, next, due + [k]), j)
      == Project(EventsOf(series, next, due), j) + if k == j then [series[k][next[k]]] else []
  {
    var es := EventsOf(series, next, due + [k]);
    assert es[..|es| - 1] == EventsOf(series, next, due);
    assert es[|es| - 1] == Event(k, series[k][next[k]]);
  }

  function DueUpTo(series: seq<seq<Candle>>, next: seq<nat>, t: int, n: nat): seq<Event>
    requires n <= |series| == |next|
  {
    EventsOf(series, next, DueList(series, next, t, n))
  }

  lemma NextDue(series: seq<seq<Candle>>, next: seq<nat>, t: int, n: nat, j: nat)
    requires n < |series| == |next|
    ensures Project(DueUpTo(series, next, t, n + 1), j) == Project(DueUpTo(series, next, t, n), j)
      + if n == j then DueBar(series, next, t, j) else []
  {
    var due := DueList(series, next, t, n);
    if IsDue(series, next, t, n) {
      OneMoreDue(series, next, due, n, j);
    } else {
      assert DueList(series, next, t, n + 1) == due;
    }
  }

  lemma Beside(a: seq<Candle>, b: seq<Candle>)
    ensures a == [] ==> a + b == b
    ensures b == [] ==> a + b == a
  {}

  function DueBar(series: seq<seq<Candle>>, next: seq<nat>, t: int, j: nat): seq<Candle>
    requires j < |series| == |next|
  {
    if IsDue(series, next, t, j) then [series[j][next[j]]] else []
  }

  lemma NoneDue(series: seq<seq<Candle>>, next: seq<nat>, t: int, j: nat)
    requires |series| == |next|
    ensures Project(DueUpTo(series, next, t, 0), j) == []
  {}

  lemma OneMoreSeries(series: seq<seq<Candle>>, next: seq<nat>, t: int, n: nat, j: nat, a: seq<Candle>, b: seq<Candle>)
    requires n < |series| == |next|
    requires a == if j < n then DueBar(series, next, t, j) else []
    requires b == a + if n == j then DueBar(series, next, t, j) else []
    ensures b == if j < n + 1 then DueBar(series, next, t, j) else []
  {}

  lemma {:induction false} DueProjects(series: seq<seq<Candle>>, next: seq<nat>, t: int, n: nat, j: nat)
    requires n <= |series| == |next|
    ensures Project(DueUpTo(series, next, t, n), j) == if j < n then DueBar(series, next, t, j) else []
  {
    if n == 0 {
      NoneDue(series, next, t, j);
    } else {
      DueProjects(series, next, t, n - 1, j);
      NextDue(series, next, t, n - 1, j);
      OneMoreSeries(series, next, t, n - 1, j, Project(DueUpTo(series, next, t, n - 1), j),
        Project(DueUpTo(series, next, t, n), j));
    }
  }

  lemma GroupProjects(series: seq<seq<Candle>>, next: seq<nat>, t: int, j: nat)
    requires |series| == |next| && forall k :: 0 <= k < |next| ==> next[k] <= |series[k]|
    ensures Project(GroupAt(series, next, t), j)
      == if j < |series| then series[j][next[j]..Reveal(series, next, t)[j]] else []
  {
    DueProjects(series, next, t, |series|, j);
  }

  lemma {:induction false} RevealBounds(series: seq<seq<Candle>>, next: seq<nat>, times: seq<int>)
    requires |series| == |next| && forall k :: 0 <= k < |next| ==> next[k] <= |series[k]|
    ensures forall k :: 0 <= k < |next| ==> next[k] <= RevealAll(series, next, times)[k] <= |series[k]|
    decreases |times|
  {
    if times != [] {
      RevealBounds(series, Reveal(series, next, times[0]), times[1..]);
    }
  }

  /** The stream holds, of each series, what it makes visible. */
  lemma {:induction false} StreamProjects(series: seq<seq<Candle>>, next: seq<nat>, times: seq<int>, j: nat)
    requires |series| == |next| && forall k :: 0 <= k < |next| ==> next[k] <= |series[k]|
    ensures j < |series| ==> next[j] <= RevealAll(series, next, times)[j] <= |series[j]|
    ensures Project(StreamOf(series, next, times), j)
      == if j < |series| then series[j][next[j]..RevealAll(series, next, times)[j]] else []
    decreases |times|
  {
    RevealBounds(series, next, times);
    if times != [] {
      var next1 := Reveal(series, next, times[0]);
      StreamProjects(series, next1, times[1..], j);
      GroupProjects(series, next, times[0], j);
      ProjectJoin(GroupAt(series, next, times[0]), StreamOf(series, next1, times[1..]), j);
      if j < |series| {
        SlicesJoin(series[j], next[j], next1[j], RevealAll(series, next, times)[j]);
      }
    }
  }

  lemma SlicesJoin(cs: seq<Candle>, a: nat, b: nat, c: nat)
    requires a <= b <= c <= |cs|
    ensures cs[a..b] + cs[b..c] == cs[a..c]
  {}

  /** What is to be seen is seen once its times are over. */
  lemma {:induction false} AllRevealed(data: Data, next: seq<nat>, times: seq<int>)
    requires SeriesAscend(data) && |next| == |data.series|
    requires forall k :: 0 <= k < |next| ==> next[k] <= |data.series[k]|
    requires Ascends(times) && Ahead(data.series, next, times)
    ensures forall k :: 0 <= k < |data.series| ==> RevealAll(data.series, next, times)[k] == |data.series[k]|
    decreases |times|
  {
    if times == [] {
      assert forall k :: 0 <= k < |data.series| ==> !Unseen(data.series, next, k, next[k]);
    } else {
      RevealAhead(data, next, times);
      AllRevealed(data, Reveal(data.series, next, times[0]), times[1..]);
    }
  }

  /** A list of events in order is the stream of its own series. */
  lemma OrderedIsStream(data: Data, next: seq<nat>, times: seq<int>, es: seq<Event>)
    requires SeriesAscend(data) && |next| == |data.series| && forall k :: 0 <= k < |next| ==> next[k] == 0
    requires Ascends(times) && Ahead(data.series, next, times)
    requires Ordered(es) && forall j: nat :: Project(es, j) == if j < |data.series| then data.series[j] else []
    ensures StreamOf(data.series, next, times) == es
  {
    StreamOrdered(data.series, next, times);
    AllRevealed(data, next, times);
    forall j: nat
      ensures Project(StreamOf(data.series, next, times), j) == Project(es, j)
    {
      StreamProjects(data.series, next, times, j);
    }
    SameSeries(StreamOf(data.series, next, times), es);
  }

  // ---------------------------------------------------------------- quotes to signals

  /** The series of the data are the historical aggregation of the quotes that count, as far as it has closed. */
  ghost predicate HistoricalBars(cfg: Bars.Config, xs: seq<Bars.Input>, data: Data) {
    |data.series| == |cfg.subs| && forall j :: 0 <= j < |cfg.subs| ==>
      data.series[j] == Bars.ClosedBy(Laws.Historical(cfg, xs, j), Laws.Cut(cfg, xs))
  }

  lemma {:induction false} ProjectRises(es: seq<Event>, j: nat)
    requires Ordered(es)
    ensures Rising(Project(es, j))
  {
    if es != [] {
      var n := |es| - 1;
      ProjectRises(es[..n], j);
      ProjectMembers(es[..n], j);
      var p := Project(es[..n], j);
      forall i | 0 <= i < |p| && es[n].sub == j
        ensures p[i].closeTime < es[n].At()
      {
        assert Event(j, p[i]) in es[..n];
      }
    }
  }

  /** What the builder emits is the event stream of the historical bars. */
  lemma EmittedSeries(cfg: Bars.Config, xs: seq<Bars.Input>, data: Data)
    requires Bars.WellFormed(cfg) && Laws.GoodBuckets(cfg) && Laws.NoneReopens(cfg, xs)
    requires HistoricalBars(cfg, xs, data)
    ensures SeriesAscend(data) && Ordered(Bars.Run(cfg, xs).events)
    ensures forall j: nat :: Project(Bars.Run(cfg, xs).events, j) == if j < |data.series| then data.series[j] else []
  {
    var es := Bars.Run(cfg, xs).events;
    Laws.StreamingIsBatch(cfg, xs);
    RunSubs(cfg, xs);
    forall j: nat
      ensures Rising(Project(es, j)) && Project(es, j) == if j < |data.series| then data.series[j] else []
    {
      ProjectRises(es, j);
      ProjectMembers(es, j);
      if j >= |cfg.subs| && Project(es, j) != [] {
        assert Event(j, Project(es, j)[0]) in es;
      }
    }
    assert forall k :: 0 <= k < |data.series| ==> Rising(data.series[k]);
  }

  /** Whatever the builder emits, adding it to empty series never raises and leaves the historical bars there. */
  lemma BuilderNeverRaises<S>(cfg: Bars.Config, xs: seq<Bars.Input>, strategy: S)
    requires Bars.WellFormed(cfg) && Laws.GoodBuckets(cfg) && Laws.NoneReopens(cfg, xs)
    ensures forall i :: 0 <= i < |Bars.Run(cfg, xs).events| ==> Bars.Run(cfg, xs).events[i].sub < |cfg.subs|
    ensures var r := AppendAll(StartLive(|cfg.subs|, strategy), Bars.Run(cfg, xs).events);
      !r.broken && forall j: nat :: j < |cfg.subs| ==>
        r.buffers[j] == Bars.ClosedBy(Laws.Historical(cfg, xs, j), Laws.Cut(cfg, xs))
  {
    RunSubs(cfg, xs);
    Laws.StreamingIsBatch(cfg, xs);
    AppendsFromStart(|cfg.subs|, strategy, Bars.Run(cfg, xs).events);
  }

  lemma AppendsFromStart<S>(n: nat, strategy: S, es: seq<Event>)
    requires Ordered(es) && forall i :: 0 <= i < |es| ==> es[i].sub < n
    ensures var r := AppendAll(StartLive(n, strategy), es);
      !r.broken && forall j: nat :: j < n ==> r.buffers[j] == Project(es, j)
  {
    var live := StartLive(n, strategy);
    AppendsInOrder(live, es);
    forall j: nat | j < n
      ensures live.buffers[j] + Project(es, j) == Project(es, j)
    {
      Beside(live.buffers[j], Project(es, j));
    }
  }

  lemma StartAhead(calendar: seq<(int, int)>, data: Data, next: seq<nat>)
    requires HasBars(data) && |next| == |data.series|
    ensures Ascends(Timeline(calendar, data)) && Ahead(data.series, next, Timeline(calendar, data))
  {
    UniqueSpec(Times(Rolls(calendar, data)) + AllCloses(data.series));
    forall k: nat, i: nat | Unseen(data.series, next, k, i)
      ensures data.series[k][i].closeTime in Timeline(calendar, data)
    {
      ClosesSpec(data.series, data.series[k][i].closeTime);
    }
  }

  /** The event stream of the historical bars is what the builder emits. */
  lemma EmittedStream(
    calendar: seq<(int, int)>, cfg: Bars.Config, xs: seq<Bars.Input>, data: Data, next: seq<nat>, times: seq<int>)
    requires Bars.WellFormed(cfg) && Laws.GoodBuckets(cfg) && Laws.NoneReopens(cfg, xs)
    requires HistoricalBars(cfg, xs, data) && HasBars(data) && times == Timeline(calendar, data)
    requires |next| == |data.series| && forall k :: 0 <= k < |next| ==> next[k] == 0
    ensures StreamOf(data.series, next, times) == Bars.Run(cfg, xs).events
  {
    EmittedSeries(cfg, xs, data);
    StartAhead(calendar, data, next);
    OrderedIsStream(data, next, times, Bars.Run(cfg, xs).events);
  }

  /** Both stopped by the strategy, or both at the end with the same strategy state, signals and bars. */
  ghost predicate Agree<S>(data: Data, run: Run<S>, live: Live<S>) {
    && (run.halt == Going <==> !live.broken)
    && (run.halt == Going ==>
      live.strategy == run.strategy && Emits(live.out) == run.signals && live.buffers == data.series)
  }

  /** What the views given to the runner have to be. */
  ghost predicate SameViews<S(!new)>(
    env: Env<S>, calendar: seq<(int, int)>, data: Data, strategy: S, balance: real, views: Views) {
    && Subscribed(env, data) && IgnoresFills(env)
    && (forall t :: t in Timeline(calendar, data) ==> t >= 0)
    && ViewsOfRun(env, data, AsMap(Rolls(calendar, data)), Start(data, strategy, balance), Timeline(calendar, data),
         views)
  }

  /** The backtest against the runner fed with the whole event stream of the data. */
  lemma StreamParity<S(!new)>(
    env: Env<S>, calendar: seq<(int, int)>, data: Data, strategy: S, balance: real, es: seq<Event>, r: Live<S>,
    views: Views)
    requires SeriesAscend(data) && SameViews(env, calendar, data, strategy, balance, views)
    requires es == StreamOf(data.series, Start(data, strategy, balance).next, Timeline(calendar, data))
    requires r == Groups(env, |data.symbols|, StartLive(|data.series|, strategy), es, views)
    ensures Agree(data, WholeRun(env, calendar, data, strategy, balance), r)
  {
    var run := Start(data, strategy, balance);
    StartAhead(calendar, data, run.next);
    StartAligned(env, calendar, data, strategy, balance);
    TimesMatch(env, data, AsMap(Rolls(calendar, data)), run, StartLive(|data.series|, strategy), run.next,
      Timeline(calendar, data), views);
    EveryBarDelivered(env, calendar, data, strategy, balance);
    AllVisible(env, data, WholeRun(env, calendar, data, strategy, balance), r);
  }

  /** The builder's calls amount, for the runner, to the event stream of the historical bars. */
  lemma BuilderStream<S>(
    env: Env<S>, calendar: seq<(int, int)>, cfg: Bars.Config, xs: seq<Bars.Input>, data: Data, live: Live<S>,
    next: seq<nat>, views: Views) returns (es: seq<Event>)
    requires Bars.WellFormed(cfg) && Laws.GoodBuckets(cfg) && Laws.NoneReopens(cfg, xs)
    requires HistoricalBars(cfg, xs, data) && HasBars(data) && |env.warmup| == |live.buffers| == |data.series|
    requires |next| == |data.series| && forall k :: 0 <= k < |next| ==> next[k] == 0
    ensures SeriesAscend(data) && es == StreamOf(data.series, next, Timeline(calendar, data))
    ensures OnBatches(env, |data.symbols|, live, Calls(cfg, xs), views) == Groups(env, |data.symbols|, live, es, views)
  {
    EmittedSeries(cfg, xs, data);
    EmittedStream(calendar, cfg, xs, data, next, Timeline(calendar, data));
    CallsAreStream(env, |data.symbols|, live, cfg, xs, views);
    es := Bars.Run(cfg, xs).events;
  }

  /** From quotes to signals: whatever the quotes, as long as none reopens a minute, the runner fed call by call by
      the builder is never stopped unless the strategy stops the backtest too, holds the historical bars of those
      quotes and returns the signals of the backtest on them. */
  lemma QuotesParity<S(!new)>(
    env: Env<S>, calendar: seq<(int, int)>, cfg: Bars.Config, xs: seq<Bars.Input>, data: Data, strategy: S,
    balance: real, views: Views)
    requires Bars.WellFormed(cfg) && Laws.GoodBuckets(cfg) && Laws.NoneReopens(cfg, xs)
    requires HistoricalBars(cfg, xs, data) && SameViews(env, calendar, data, strategy, balance, views)
    ensures Agree(data, WholeRun(env, calendar, data, strategy, balance),
      OnBatches(env, |data.symbols|, StartLive(|data.series|, strategy), Calls(cfg, xs), views))
  {
    var live := StartLive(|data.series|, strategy);
    var es := BuilderStream(env, calendar, cfg, xs, data, live, Start(data, strategy, balance).next, views);
    StreamParity(env, calendar, data, strategy, balance, es,
      OnBatches(env, |data.symbols|, live, Calls(cfg, xs), views), views);
  }
}
