/** What the live runner does with batches of closed bars, and why a strategy run on them does what it does
    in the backtest. */
module LiveModel {
  import opened Types
  import opened SimModel
  import opened BrokerModel
  import opened Backtest
  import opened Causality
  import opened BacktestLaws
  import opened Events

  /** `broken` is a runner stopped by an exception; `out` is every request returned so far. */
  datatype Live<S> = Live(
    buffers: seq<seq<Candle>>, now: int, strategy: S, seen: set<string>, out: seq<Request>, broken: bool)

  /** The broker view that a strategy call at a close time gets; the second argument counts the calls at that time. */
  type Views = (int, nat) -> Broker

  function Mine(es: seq<Event>, n: nat): (r: seq<Event>)
    ensures forall i :: 0 <= i < |r| ==> r[i].sub < n
    ensures (forall i :: 0 <= i < |es| ==> es[i].sub < n) ==> r == es
  {
    if es == [] then [] else (if es[0].sub < n then [es[0]] else []) + Mine(es[1..], n)
  }

  /** Adding a bar to its series raises unless it closes after the last one. */
  function Append<S>(live: Live<S>, e: Event): (r: Live<S>)
    requires e.sub < |live.buffers|
    ensures |r.buffers| == |live.buffers|
  {
    var b := live.buffers[e.sub];
    if live.broken then live
    else if b != [] && e.At() <= b[|b| - 1].closeTime then live.(broken := true)
    else live.(buffers := live.buffers[e.sub := b + [e.candle]])
  }

  function AppendAll<S>(live: Live<S>, es: seq<Event>): (r: Live<S>)
    requires forall i :: 0 <= i < |es| ==> es[i].sub < |live.buffers|
    ensures |r.buffers| == |live.buffers|
    decreases |es|
  {
    if es == [] then live else AppendAll(Append(live, es[0]), es[1..])
  }

  function SetNow<S>(live: Live<S>, t: int): Live<S> {
    if live.broken then live else if t < live.now then live.(broken := true) else live.(now := t)
  }

  function CallOne<S>(env: Env<S>, symbols: nat, live: Live<S>, e: Event, b: Broker): (r: Live<S>)
    ensures |r.buffers| == |live.buffers|
  {
    if live.broken then live
    else
      var (strategy, reqs) := env.onBar(live.strategy, View(live.now, live.buffers, b), e.sub, e.candle);
      match CheckRequests(env, symbols, reqs, live.now, live.seen)
      case None => live.(strategy := strategy, broken := true)
      case Some(seen) => live.(strategy := strategy, seen := seen, out := live.out + reqs)
  }

  function CallAll<S>(env: Env<S>, symbols: nat, live: Live<S>, es: seq<Event>, i: nat, views: Views): (r: Live<S>)
    ensures |r.buffers| == |live.buffers|
    decreases |es|
  {
    if es == [] then live
    else CallAll(env, symbols, CallOne(env, symbols, live, es[0], views(live.now, i)), es[1..], i + 1, views)
  }

  predicate WarmedUp(buffers: seq<seq<Candle>>, warmup: seq<nat>)
    requires |buffers| == |warmup|
  {
    forall k :: 0 <= k < |buffers| ==> |buffers[k]| >= warmup[k]
  }

  /** Everything that closes at one time: append first, then move the clock, then call. */
  function Group<S>(env: Env<S>, symbols: nat, live: Live<S>, es: seq<Event>, views: Views): (r: Live<S>)
    requires |env.warmup| == |live.buffers| && es != [] && forall i :: 0 <= i < |es| ==> es[i].sub < |live.buffers|
    ensures |r.buffers| == |live.buffers|
  {
    var live1 := SetNow(AppendAll(live, es), es[0].At());
    if live1.broken || !WarmedUp(live1.buffers, env.warmup) then live1
    else CallAll(env, symbols, live1, es, 0, views)
  }

  /** How many leading events close at the same time as the first. */
  function Together(es: seq<Event>): (n: nat)
    requires es != []
    ensures 1 <= n <= |es|
    ensures forall i :: 0 <= i < n ==> es[i].At() == es[0].At()
    ensures n < |es| ==> es[n].At() != es[0].At()
  {
    if |es| > 1 && es[1].At() == es[0].At() then 1 + Together(es[1..]) else 1
  }

  function Groups<S>(env: Env<S>, symbols: nat, live: Live<S>, es: seq<Event>, views: Views): (r: Live<S>)
    requires |env.warmup| == |live.buffers| && forall i :: 0 <= i < |es| ==> es[i].sub < |live.buffers|
    ensures |r.buffers| == |live.buffers|
    decreases |es|
  {
    if es == [] then live
    else
      var n := Together(es);
      Groups(env, symbols, Group(env, symbols, live, es[..n], views), es[n..], views)
  }

  /** One batch of closed bars. */
  function OnBars<S>(env: Env<S>, symbols: nat, live: Live<S>, batch: seq<Event>, views: Views): (r: Live<S>)
    requires |env.warmup| == |live.buffers|
    ensures |r.buffers| == |live.buffers|
  {
    var es := Sort(Mine(batch, |live.buffers|));
    SortedSubs(Mine(batch, |live.buffers|), |live.buffers|);
    Groups(env, symbols, live, es, views)
  }

  lemma SortedSubs(es: seq<Event>, n: nat)
    requires forall i :: 0 <= i < |es| ==> es[i].sub < n
    ensures forall i :: 0 <= i < |Sort(es)| ==> Sort(es)[i].sub < n
  {
    MultisetMembers(Sort(es), es);
    forall i | 0 <= i < |Sort(es)|
      ensures Sort(es)[i].sub < n
    {
      assert Sort(es)[i] in es;
    }
  }

  ghost function OnBatches<S>(
    env: Env<S>, symbols: nat, live: Live<S>, batches: seq<seq<Event>>, views: Views): (r: Live<S>)
    requires |env.warmup| == |live.buffers|
    ensures |r.buffers| == |live.buffers|
    decreases |batches|
  {
    if batches == [] then live
    else OnBatches(env, symbols, OnBars(env, symbols, live, batches[0], views), batches[1..], views)
  }

  // ---------------------------------------------------------------- the event stream of a data set

  function EventsOf(series: seq<seq<Candle>>, next: seq<nat>, due: seq<nat>): (r: seq<Event>)
    requires |series| == |next| && forall m :: 0 <= m < |due| ==> due[m] < |series| && next[due[m]] < |series[due[m]]|
    ensures |r| == |due|
    ensures forall m :: 0 <= m < |due| ==> r[m] == Event(due[m], series[due[m]][next[due[m]]])
  {
    seq(|due|, m requires 0 <= m < |due| => Event(due[m], series[due[m]][next[due[m]]]))
  }

  function GroupAt(series: seq<seq<Candle>>, next: seq<nat>, t: int): (r: seq<Event>)
    requires |series| == |next|
    ensures forall m :: 0 <= m < |r| ==> r[m].sub < |series| && r[m].At() == t
  {
    EventsOf(series, next, DueList(series, next, t, |series|))
  }

  /** The bars that close at the given times, in event order. */
  function StreamOf(series: seq<seq<Candle>>, next: seq<nat>, times: seq<int>): (r: seq<Event>)
    requires |series| == |next|
    ensures forall m :: 0 <= m < |r| ==> r[m].sub < |series| && r[m].At() in times
    decreases |times|
  {
    if times == [] then []
    else GroupAt(series, next, times[0]) + StreamOf(series, Reveal(series, next, times[0]), times[1..])
  }

  lemma {:induction false} DueAscends(series: seq<seq<Candle>>, next: seq<nat>, t: int, n: nat)
    requires n <= |series| == |next|
    ensures forall i, j :: 0 <= i < j < |DueList(series, next, t, n)| ==>
      DueList(series, next, t, n)[i] < DueList(series, next, t, n)[j]
  {
    if n > 0 {
      DueAscends(series, next, t, n - 1);
    }
  }

  lemma {:induction false} StreamOrdered(series: seq<seq<Candle>>, next: seq<nat>, times: seq<int>)
    requires |series| == |next| && Ascends(times)
    ensures Ordered(StreamOf(series, next, times))
    decreases |times|
  {
    if times != [] {
      DueAscends(series, next, times[0], |series|);
      StreamOrdered(series, Reveal(series, next, times[0]), times[1..]);
    }
  }

  lemma {:induction false} TogetherIs(es: seq<Event>, k: nat, t: int)
    requires 1 <= k <= |es| && (forall i :: 0 <= i < k ==> es[i].At() == t) && (k < |es| ==> es[k].At() != t)
    ensures Together(es) == k
    decreases |es|
  {
    if k > 1 {
      TogetherIs(es[1..], k - 1, t);
    }
  }

  /** Grouping the stream by close time gives back the groups it was built from. */
  lemma GroupsSplit<S>(env: Env<S>, symbols: nat, live: Live<S>, a: seq<Event>, b: seq<Event>, views: Views, t: int)
    requires |env.warmup| == |live.buffers| && forall i :: 0 <= i < |a + b| ==> (a + b)[i].sub < |live.buffers|
    requires a != [] && (forall i :: 0 <= i < |a| ==> a[i].At() == t) && (forall i :: 0 <= i < |b| ==> b[i].At() > t)
    ensures forall i :: 0 <= i < |a| ==> a[i].sub < |live.buffers|
    ensures forall i :: 0 <= i < |b| ==> b[i].sub < |live.buffers|
    ensures Groups(env, symbols, live, a + b, views)
      == Groups(env, symbols, Group(env, symbols, live, a, views), b, views)
  {
    forall i | 0 <= i < |a|
      ensures a[i].sub < |live.buffers|
    {
      assert (a + b)[i] == a[i];
    }
    forall i | 0 <= i < |b|
      ensures b[i].sub < |live.buffers|
    {
      assert (a + b)[|a| + i] == b[i];
    }
    var n := Together(a + b);
    TogetherIs(a + b, |a|, t);
    assert (a + b)[..n] == a && (a + b)[n..] == b;
  }

  // ---------------------------------------------------------------- parity

  function Emits(reqs: seq<Request>): seq<Signal> {
    if reqs == [] then []
    else Emits(reqs[..|reqs| - 1]) + if reqs[|reqs| - 1].Emit? then [reqs[|reqs| - 1].signal] else []
  }

  lemma {:induction false} EmitsJoin(a: seq<Request>, b: seq<Request>)
    ensures Emits(a + b) == Emits(a) + Emits(b)
  {
    if b == [] {
      assert a + b == a;
    } else {
      var n := |b| - 1;
      assert (a + b)[..|a + b| - 1] == a + b[..n];
      EmitsJoin(a, b[..n]);
    }
  }

  /** The runner and the backtest stand at the same point. */
  ghost predicate Matches<S>(env: Env<S>, data: Data, run: Run<S>, live: Live<S>) {
    && Fits(env, data, run) && !run.Failed() && !live.broken && |env.minutes| > 0
    && |live.buffers| == |data.series|
    && (forall k :: 0 <= k < |data.series| ==> live.buffers[k] == data.series[k][..run.next[k]])
    && live.strategy == run.strategy && live.seen == run.seen && Emits(live.out) == run.signals
  }

  /** Either both go on from the same point, or both were stopped by the strategy. */
  ghost predicate Same<S>(env: Env<S>, data: Data, run: Run<S>, live: Live<S>) {
    Matches(env, data, run, live) || (run.Failed() && live.broken)
  }

  /** The broker views given to the live strategy are those of the backtest, call by call. */
  ghost predicate ViewsAgree<S>(env: Env<S>, data: Data, run: Run<S>, due: seq<nat>, t: int, i: nat, views: Views)
    requires Fits(env, data, run) && forall m :: 0 <= m < |due| ==> due[m] < |data.series| && run.next[due[m]] > 0
    decreases |due|
  {
    due == [] || run.Failed() ||
    (run.broker == views(t, i) && ViewsAgree(env, data, OneBar(env, data, run, due[0], t), due[1..], t, i + 1, views))
  }

  lemma EmitsHead(ss: seq<Signal>, reqs: seq<Request>)
    requires reqs != []
    ensures ss + Emits(reqs) == (if reqs[0].Emit? then ss + [reqs[0].signal] else ss) + Emits(reqs[1..])
  {
    EmitsJoin([reqs[0]], reqs[1..]);
    assert reqs == [reqs[0]] + reqs[1..];
    assert Emits([reqs[0]]) == if reqs[0].Emit? then [reqs[0].signal] else [];
  }

  lemma {:induction false} HandleAllParts<S>(
    env: Env<S>, data: Data, run: Run<S>, reqs: seq<Request>, now: int, minutes: nat)
    requires Fits(env, data, run)
    requires forall n :: 0 <= n < |reqs| && reqs[n].Emit? ==> reqs[n].signal.symbol < |data.symbols|
    ensures var r := HandleAll(env, data, run, reqs, now, minutes);
      && r.strategy == run.strategy && r.seen == run.seen && r.next == run.next && r.halt == run.halt
      && r.signals == run.signals + Emits(reqs)
    decreases |reqs|
  {
    if reqs != [] {
      EmitsHead(run.signals, reqs);
      HandleAllParts(env, data, HandleOne(env, data, run, reqs[0], now, minutes), reqs[1..], now, minutes);
    } else {
      assert run.signals + Emits(reqs) == run.signals;
    }
  }

  /** One call of the strategy on the same bar. */
  lemma OneCall<S>(env: Env<S>, data: Data, run: Run<S>, live: Live<S>, k: nat, t: int, views: Views, i: nat)
    requires Matches(env, data, run, live) && live.now == t
    requires k < |data.series| && run.next[k] > 0 && run.broker == views(t, i)
    ensures Same(env, data, OneBar(env, data, run, k, t),
      CallOne(env, |data.symbols|, live, Event(k, data.series[k][run.next[k] - 1]), views(t, i)))
  {
    var v := ViewOf(data, run, t);
    assert v.visible == live.buffers;
    var (strategy, reqs) := env.onBar(run.strategy, v, k, data.series[k][run.next[k] - 1]);
    var seen := CheckRequests(env, |data.symbols|, reqs, t, run.seen);
    if seen.Some? {
      HandleAllParts(env, data, run.(strategy := strategy, seen := seen.value), reqs, t, env.minutes[k]);
      EmitsJoin(live.out, reqs);
    }
  }

  ghost predicate EventsMatch(data: Data, next: seq<nat>, due: seq<nat>, es: seq<Event>)
    requires |next| == |data.series| && forall m :: 0 <= m < |due| ==>
      due[m] < |data.series| && 0 < next[due[m]] <= |data.series[due[m]]|
  {
    |es| == |due| && forall m :: 0 <= m < |due| ==> es[m] == Event(due[m], data.series[due[m]][next[due[m]] - 1])
  }

  lemma {:induction false} AllCalls<S>(
    env: Env<S>, data: Data, run: Run<S>, live: Live<S>, due: seq<nat>, es: seq<Event>, t: int, i: nat, views: Views)
    requires Fits(env, data, run) && Same(env, data, run, live) && (!live.broken ==> live.now == t)
    requires forall m :: 0 <= m < |due| ==> due[m] < |data.series| && run.next[due[m]] > 0
    requires EventsMatch(data, run.next, due, es) && ViewsAgree(env, data, run, due, t, i, views)
    ensures Same(env, data, Bars(env, data, run, due, t), CallAll(env, |data.symbols|, live, es, i, views))
    decreases |due|
  {
    if due != [] {
      if Matches(env, data, run, live) {
        OneCall(env, data, run, live, due[0], t, views, i);
        AllCalls(env, data, OneBar(env, data, run, due[0], t),
                 CallOne(env, |data.symbols|, live, es[0], views(t, i)), due[1..], es[1..], t, i + 1, views);
      } else {
        BrokenStays(env, |data.symbols|, live, es, i, views);
        FailedStays(env, data, run, due, t);
      }
    }
  }

  lemma {:induction false} BrokenStays<S>(
    env: Env<S>, symbols: nat, live: Live<S>, es: seq<Event>, i: nat, views: Views)
    requires live.broken
    ensures CallAll(env, symbols, live, es, i, views) == live
    decreases |es|
  {
    if es != [] {
      BrokenStays(env, symbols, live, es[1..], i + 1, views);
    }
  }

  lemma {:induction false} FailedStays<S>(env: Env<S>, data: Data, run: Run<S>, due: seq<nat>, t: int)
    requires Fits(env, data, run) && run.Failed()
    requires forall m :: 0 <= m < |due| ==> due[m] < |data.series| && run.next[due[m]] > 0
    ensures Bars(env, data, run, due, t) == run
    decreases |due|
  {
    if due != [] {
      FailedStays(env, data, run, due[1..], t);
    }
  }

  lemma EventsTail(series: seq<seq<Candle>>, next: seq<nat>, due: seq<nat>)
    requires |next| == |series| && due != []
    requires forall m :: 0 <= m < |due| ==> due[m] < |series| && next[due[m]] < |series[due[m]]|
    ensures EventsOf(series, next, due)[0] == Event(due[0], series[due[0]][next[due[0]]])
    ensures EventsOf(series, next, due)[1..] == EventsOf(series, next, due[1..])
  {}

  lemma OneMoreBar(bars: seq<Candle>, n: nat)
    requires n < |bars|
    ensures bars[..n + 1] == bars[..n] + [bars[n]]
  {}

  /** Appending what is due never raises when each series closes in order, and reveals exactly those bars. */
  lemma {:induction false} AppendDue<S>(data: Data, next: seq<nat>, live: Live<S>, due: seq<nat>)
    requires SeriesAscend(data) && |next| == |data.series| == |live.buffers| && !live.broken
    requires forall m :: 0 <= m < |due| ==> due[m] < |data.series| && next[due[m]] < |data.series[due[m]]|
    requires forall i, j :: 0 <= i < j < |due| ==> due[i] < due[j]
    requires forall m :: 0 <= m < |due| ==> live.buffers[due[m]] == data.series[due[m]][..next[due[m]]]
    ensures Shown(data, next, live, due, AppendAll(live, EventsOf(data.series, next, due)))
    decreases |due|
  {
    if due != [] {
      var k := due[0];
      var live1 := live.(buffers := live.buffers[k := data.series[k][..next[k] + 1]]);
      LaterDue(due);
      AppendHead(data, next, live, due, live1);
      AppendDue(data, next, live1, due[1..]);
      ShownOneMore(data, next, live, due, live1, AppendAll(live1, EventsOf(data.series, next, due[1..])));
    }
  }

  /** The due series have one more bar, the others and everything else are as they were. */
  ghost predicate Shown<S>(data: Data, next: seq<nat>, live: Live<S>, due: seq<nat>, r: Live<S>)
    requires |next| == |data.series| == |live.buffers| && forall m :: 0 <= m < |due| ==>
      due[m] < |data.series| && next[due[m]] < |data.series[due[m]]|
  {
    && r == live.(buffers := r.buffers) && |r.buffers| == |live.buffers|
    && (forall m :: 0 <= m < |due| ==> r.buffers[due[m]] == data.series[due[m]][..next[due[m]] + 1])
    && (forall k :: 0 <= k < |live.buffers| && k !in due ==> r.buffers[k] == live.buffers[k])
  }

  lemma AppendHead<S>(data: Data, next: seq<nat>, live: Live<S>, due: seq<nat>, live1: Live<S>)
    requires SeriesAscend(data) && |next| == |data.series| == |live.buffers| && !live.broken && due != []
    requires forall m :: 0 <= m < |due| ==> due[m] < |data.series| && next[due[m]] < |data.series[due[m]]|
    requires live.buffers[due[0]] == data.series[due[0]][..next[due[0]]]
    requires live1 == live.(buffers := live.buffers[due[0] := data.series[due[0]][..next[due[0]] + 1]])
    ensures AppendAll(live, EventsOf(data.series, next, due))
      == AppendAll(live1, EventsOf(data.series, next, due[1..]))
  {
    EventsTail(data.series, next, due);
    AppendFirst(data, next, live, due[0]);
  }

  lemma ShownOneMore<S>(
    data: Data, next: seq<nat>, live: Live<S>, due: seq<nat>, live1: Live<S>, r: Live<S>)
    requires |next| == |data.series| == |live.buffers| && due != []
    requires forall m :: 0 <= m < |due| ==> due[m] < |data.series| && next[due[m]] < |data.series[due[m]]|
    requires live1 == live.(buffers := live.buffers[due[0] := data.series[due[0]][..next[due[0]] + 1]])
    requires due[0] !in due[1..] && forall k :: k in due <==> k == due[0] || k in due[1..]
    requires Shown(data, next, live1, due[1..], r)
    ensures Shown(data, next, live, due, r)
  {
    assert r.buffers[due[0]] == live1.buffers[due[0]];
    forall m | 0 <= m < |due|
      ensures r.buffers[due[m]] == data.series[due[m]][..next[due[m]] + 1]
    {
      if m > 0 {
        assert due[1..][m - 1] == due[m];
      }
    }
  }

  lemma LaterDue(due: seq<nat>)
    requires due != [] && forall i, j :: 0 <= i < j < |due| ==> due[i] < due[j]
    ensures due[0] !in due[1..] && forall k :: k in due <==> k == due[0] || k in due[1..]
  {
    assert due == [due[0]] + due[1..];
  }

  lemma AppendFirst<S>(data: Data, next: seq<nat>, live: Live<S>, k: nat)
    requires SeriesAscend(data) && |next| == |data.series| == |live.buffers| && !live.broken
    requires k < |data.series| && next[k] < |data.series[k]| && live.buffers[k] == data.series[k][..next[k]]
    ensures Append(live, Event(k, data.series[k][next[k]]))
      == live.(buffers := live.buffers[k := data.series[k][..next[k] + 1]])
  {
    OneMoreBar(data.series[k], next[k]);
  }

  /** One close time: the live group against the backtest's bar step. */
  lemma GroupMatches<S>(env: Env<S>, data: Data, run: Run<S>, live: Live<S>, t: int, views: Views)
    requires Matches(env, data, run, live) && SeriesAscend(data) && live.now <= t && !Skipped(data.series, run.next, t)
    requires ViewsAgree(env, data, run.(next := Reveal(data.series, run.next, t)),
                        DueList(data.series, run.next, t, |data.series|), t, 0, views)
    ensures var es := GroupAt(data.series, run.next, t);
      && (es == [] ==> Matches(env, data, BarStep(env, data, run, t), live))
      && (es != [] ==> Same(env, data, BarStep(env, data, run, t), Group(env, |data.symbols|, live, es, views)))
  {
    var due := DueList(data.series, run.next, t, |data.series|);
    if due == [] {
      NothingRevealed(env, data, run, live, t);
    } else {
      DueCalls(env, data, run, live, t, views);
    }
  }

  lemma NothingRevealed<S>(env: Env<S>, data: Data, run: Run<S>, live: Live<S>, t: int)
    requires Matches(env, data, run, live) && !Skipped(data.series, run.next, t)
    requires DueList(data.series, run.next, t, |data.series|) == []
    ensures GroupAt(data.series, run.next, t) == [] && Matches(env, data, BarStep(env, data, run, t), live)
  {
    DueComplete(data.series, run.next, t, |data.series|);
  }

  /** Both sides are warmed up at the same point. */
  lemma SameWarmth<S>(env: Env<S>, data: Data, run: Run<S>, live: Live<S>)
    requires Matches(env, data, run, live)
    ensures WarmedUp(live.buffers, env.warmup) <==> Warmed(run.next, env.warmup)
  {}

  lemma BarStepIs<S>(env: Env<S>, data: Data, run: Run<S>, t: int)
    requires Fits(env, data, run) && !run.Failed() && !Skipped(data.series, run.next, t)
    requires DueList(data.series, run.next, t, |data.series|) != []
    ensures var run1 := run.(next := Reveal(data.series, run.next, t));
      BarStep(env, data, run, t) ==
      if Warmed(run1.next, env.warmup) then Bars(env, data, run1, DueList(data.series, run.next, t, |data.series|), t)
      else run1
  {}

  lemma DueCalls<S>(env: Env<S>, data: Data, run: Run<S>, live: Live<S>, t: int, views: Views)
    requires Matches(env, data, run, live) && SeriesAscend(data) && live.now <= t && !Skipped(data.series, run.next, t)
    requires ViewsAgree(env, data, run.(next := Reveal(data.series, run.next, t)),
                        DueList(data.series, run.next, t, |data.series|), t, 0, views)
    requires DueList(data.series, run.next, t, |data.series|) != []
    ensures var es := GroupAt(data.series, run.next, t);
      es != [] && Same(env, data, BarStep(env, data, run, t), Group(env, |data.symbols|, live, es, views))
  {
    var due, es := DueList(data.series, run.next, t, |data.series|), GroupAt(data.series, run.next, t);
    var run1, live1 := run.(next := Reveal(data.series, run.next, t)), SetNow(AppendAll(live, es), t);
    AppendMatches(env, data, run, live, t);
    BarStepIs(env, data, run, t);
    GroupIs(env, |data.symbols|, live, es, t, views);
    DueMatch(data, run.next, t);
    WarmCalls(env, data, run1, live1, due, es, t, views);
  }

  lemma DueMatch(data: Data, next: seq<nat>, t: int)
    requires |next| == |data.series|
    ensures EventsMatch(data, Reveal(data.series, next, t), DueList(data.series, next, t, |data.series|),
      GroupAt(data.series, next, t))
  {}

  lemma GroupIs<S>(env: Env<S>, symbols: nat, live: Live<S>, es: seq<Event>, t: int, views: Views)
    requires |env.warmup| == |live.buffers| && es != []
    requires forall i :: 0 <= i < |es| ==> es[i].sub < |live.buffers| && es[i].At() == t
    ensures var live1 := SetNow(AppendAll(live, es), t);
      Group(env, symbols, live, es, views) ==
      if live1.broken || !WarmedUp(live1.buffers, env.warmup) then live1
      else CallAll(env, symbols, live1, es, 0, views)
  {
    assert es[0].At() == t;
  }

  /** With the bars revealed on both sides: the calls, once warmed up. */
  lemma WarmCalls<S>(
    env: Env<S>, data: Data, run: Run<S>, live: Live<S>, due: seq<nat>, es: seq<Event>, t: int, views: Views)
    requires Matches(env, data, run, live) && live.now == t
    requires forall m :: 0 <= m < |due| ==> due[m] < |data.series| && run.next[due[m]] > 0
    requires EventsMatch(data, run.next, due, es) && ViewsAgree(env, data, run, due, t, 0, views)
    ensures Same(env, data, if Warmed(run.next, env.warmup) then Bars(env, data, run, due, t) else run,
      if WarmedUp(live.buffers, env.warmup) then CallAll(env, |data.symbols|, live, es, 0, views) else live)
  {
    SameWarmth(env, data, run, live);
    AllCalls(env, data, run, live, due, es, t, 0, views);
  }

  /** Appending the bars of one time reveals the same bars. */
  lemma AppendMatches<S>(env: Env<S>, data: Data, run: Run<S>, live: Live<S>, t: int)
    requires Matches(env, data, run, live) && SeriesAscend(data) && live.now <= t
    ensures var live1 := SetNow(AppendAll(live, GroupAt(data.series, run.next, t)), t);
      Matches(env, data, run.(next := Reveal(data.series, run.next, t)), live1) && live1.now == t
  {
    var due := DueList(data.series, run.next, t, |data.series|);
    DueAscends(data.series, run.next, t, |data.series|);
    DueComplete(data.series, run.next, t, |data.series|);
    AppendDue(data, run.next, live, due);
  }

  lemma {:induction false} DueComplete(series: seq<seq<Candle>>, next: seq<nat>, t: int, n: nat)
    requires n <= |series| == |next|
    ensures forall k :: 0 <= k < n ==> (k in DueList(series, next, t, n) <==> IsDue(series, next, t, k))
  {
    if n > 0 {
      DueComplete(series, next, t, n - 1);
    }
  }

  // ---------------------------------------------------------------- whole runs

  /** The strategy does nothing when it is told of a fill. */
  ghost predicate IgnoresFills<S(!new)>(env: Env<S>) {
    forall s, v, f :: env.onFill(s, v, f) == (s, [])
  }

  lemma {:induction false} QuietFills<S(!new)>(env: Env<S>, data: Data, run: Run<S>, fills: seq<Fill>, t: int)
    requires Fits(env, data, run) && |env.minutes| > 0 && IgnoresFills(env)
    ensures Fills(env, data, run, fills, t) == run
    decreases |fills|
  {
    if fills != [] {
      assert OneFill(env, data, run, fills[0], t) == run;
      QuietFills(env, data, run, fills[1..], t);
    }
  }

  /** The run after the broker has been brought up to t and before the bars of t are looked at. */
  function BeforeBars<S>(env: Env<S>, data: Data, rolls: map<int, int>, run: Run<S>, t: int): (r: Run<S>)
    requires Fits(env, data, run) && |env.minutes| > 0
    ensures Fits(env, data, r)
  {
    var run1 := run.(broker := AdvanceFrom(data.symbols, run.broker, t, 0));
    ChargeRollover(env, data, Fills(env, data, TakeFills(run1), run1.broker.acct.fills, t), rolls, t)
  }

  lemma BeforeBarsMatches<S(!new)>(env: Env<S>, data: Data, rolls: map<int, int>, run: Run<S>, live: Live<S>, t: int)
    requires Matches(env, data, run, live) && IgnoresFills(env)
    ensures Matches(env, data, BeforeBars(env, data, rolls, run, t), live)
    ensures BeforeBars(env, data, rolls, run, t).next == run.next
    ensures StepTime(env, data, rolls, run, t) == BarStep(env, data, BeforeBars(env, data, rolls, run, t), t)
  {
    var run1 := run.(broker := AdvanceFrom(data.symbols, run.broker, t, 0));
    QuietFills(env, data, TakeFills(run1), run1.broker.acct.fills, t);
  }

  /** The live views agree with the backtest's broker at every strategy call of the run. */
  ghost predicate ViewsOfRun<S>(
    env: Env<S>, data: Data, rolls: map<int, int>, run: Run<S>, times: seq<int>, views: Views)
    requires Fits(env, data, run) && |env.minutes| > 0
    decreases |times|
  {
    times == [] || run.Failed() ||
    (var b := BeforeBars(env, data, rolls, run, times[0]);
     && ViewsAgree(env, data, b.(next := Reveal(data.series, b.next, times[0])),
                   DueList(data.series, b.next, times[0], |data.series|), times[0], 0, views)
     && ViewsOfRun(env, data, rolls, StepTime(env, data, rolls, run, times[0]), times[1..], views))
  }

  lemma {:induction false} BrokenGroups<S>(env: Env<S>, symbols: nat, live: Live<S>, es: seq<Event>, views: Views)
    requires |env.warmup| == |live.buffers| && live.broken && forall i :: 0 <= i < |es| ==> es[i].sub < |live.buffers|
    ensures Groups(env, symbols, live, es, views).broken
    decreases |es|
  {
    if es != [] {
      var n := Together(es);
      BrokenAppends(live, es[..n]);
      BrokenGroups(env, symbols, Group(env, symbols, live, es[..n], views), es[n..], views);
    }
  }

  lemma {:induction false} BrokenAppends<S>(live: Live<S>, es: seq<Event>)
    requires live.broken && forall i :: 0 <= i < |es| ==> es[i].sub < |live.buffers|
    ensures AppendAll(live, es) == live
    decreases |es|
  {
    if es != [] {
      BrokenAppends(live, es[1..]);
    }
  }

  lemma {:induction false} FailedRun<S>(env: Env<S>, data: Data, rolls: map<int, int>, run: Run<S>, times: seq<int>)
    requires Fits(env, data, run) && |env.minutes| > 0 && run.Failed()
    ensures RunTimes(env, data, rolls, run, times) == run
    decreases |times|
  {
    if times != [] {
      FailedRun(env, data, rolls, run, times[1..]);
    }
  }

  function RevealAll(series: seq<seq<Candle>>, next: seq<nat>, times: seq<int>): (r: seq<nat>)
    requires |series| == |next|
    ensures |r| == |next|
    decreases |times|
  {
    if times == [] then next else RevealAll(series, Reveal(series, next, times[0]), times[1..])
  }

  /** Where run and runner stand after some of the times, with `rest` still to come. */
  ghost predicate Aligned<S>(env: Env<S>, data: Data, run: Run<S>, live: Live<S>, next: seq<nat>, rest: seq<int>) {
    && Fits(env, data, run) && |env.minutes| > 0 && |live.buffers| == |data.series|
    && Same(env, data, run, live)
    && (!run.Failed() ==>
      && run.next == next && Ahead(data.series, next, rest)
      && forall i :: 0 <= i < |rest| ==> live.now <= rest[i])
  }

  /** One event time on both sides. */
  lemma StepMatches<S(!new)>(
    env: Env<S>, data: Data, rolls: map<int, int>, run: Run<S>, live: Live<S>, t: int, rest: seq<int>, views: Views)
    requires Aligned(env, data, run, live, run.next, [t] + rest) && Ascends([t] + rest) && !run.Failed()
    requires SeriesAscend(data) && IgnoresFills(env) && ViewsOfRun(env, data, rolls, run, [t] + rest, views)
    ensures var es := GroupAt(data.series, run.next, t);
      var live1 := GroupIfAny(env, |data.symbols|, live, es, views);
      Aligned(env, data, StepTime(env, data, rolls, run, t), live1, Reveal(data.series, run.next, t), rest)
  {
    var times := [t] + rest;
    assert times[0] == t && times[1..] == rest;
    BeforeBarsMatches(env, data, rolls, run, live, t);
    var b := BeforeBars(env, data, rolls, run, t);
    RevealAhead(data, run.next, times);
    GroupMatches(env, data, b, live, t, views);
    StepNext(env, data, b, t);
    var es := GroupAt(data.series, run.next, t);
    if es != [] {
      GroupNow(env, |data.symbols|, live, es, views);
      assert es[0].At() == t;
    }
  }

  lemma StepNext<S>(env: Env<S>, data: Data, run: Run<S>, t: int)
    requires Fits(env, data, run) && !run.Failed() && !Skipped(data.series, run.next, t)
    ensures BarStep(env, data, run, t).next == Reveal(data.series, run.next, t)
  {
    var run1 := run.(next := Reveal(data.series, run.next, t));
    BarsHalt(env, data, run1, DueList(data.series, run.next, t, |data.series|), t);
  }

  lemma GroupNow<S>(env: Env<S>, symbols: nat, live: Live<S>, es: seq<Event>, views: Views)
    requires |env.warmup| == |live.buffers| && es != [] && forall i :: 0 <= i < |es| ==> es[i].sub < |live.buffers|
    ensures var r := Group(env, symbols, live, es, views); !r.broken ==> r.now == es[0].At()
  {
    CallsNow(env, symbols, SetNow(AppendAll(live, es), es[0].At()), es, 0, views);
  }

  lemma {:induction false} CallsNow<S>(env: Env<S>, symbols: nat, live: Live<S>, es: seq<Event>, i: nat, views: Views)
    ensures CallAll(env, symbols, live, es, i, views).now == live.now
    decreases |es|
  {
    if es != [] {
      CallsNow(env, symbols, CallOne(env, symbols, live, es[0], views(live.now, i)), es[1..], i + 1, views);
    }
  }

  /** All the event times on both sides, the live side fed with the stream of those times. */
  lemma {:induction false} TimesMatch<S(!new)>(
    env: Env<S>, data: Data, rolls: map<int, int>, run: Run<S>, live: Live<S>, next: seq<nat>, times: seq<int>,
    views: Views)
    requires |next| == |data.series| && Aligned(env, data, run, live, next, times) && Ascends(times)
    requires SeriesAscend(data) && IgnoresFills(env) && ViewsOfRun(env, data, rolls, run, times, views)
    ensures Same(env, data, RunTimes(env, data, rolls, run, times),
      Groups(env, |data.symbols|, live, StreamOf(data.series, next, times), views))
    decreases |times|
  {
    if times == [] {
    } else if run.Failed() {
      FailedRun(env, data, rolls, run, times);
      BrokenGroups(env, |data.symbols|, live, StreamOf(data.series, next, times), views);
    } else {
      StreamHead(env, data, live, next, times, views);
      HeadAndTail(times);
      var live1, run1 := OneTime(env, data, rolls, run, live, times[0], times[1..], views);
      TimesMatch(env, data, rolls, run1, live1, Reveal(data.series, next, times[0]), times[1..], views);
    }
  }

  lemma HeadAndTail(times: seq<int>)
    requires times != []
    ensures times == [times[0]] + times[1..]
  {}

  lemma OneTime<S(!new)>(
    env: Env<S>, data: Data, rolls: map<int, int>, run: Run<S>, live: Live<S>, t: int, rest: seq<int>, views: Views)
    returns (live1: Live<S>, run1: Run<S>)
    requires Aligned(env, data, run, live, run.next, [t] + rest) && Ascends([t] + rest) && !run.Failed()
    requires SeriesAscend(data) && IgnoresFills(env) && ViewsOfRun(env, data, rolls, run, [t] + rest, views)
    ensures live1 == GroupIfAny(env, |data.symbols|, live, GroupAt(data.series, run.next, t), views)
    ensures run1 == StepTime(env, data, rolls, run, t)
    ensures Aligned(env, data, run1, live1, Reveal(data.series, run.next, t), rest)
    ensures ViewsOfRun(env, data, rolls, run1, rest, views) && Ascends(rest)
  {
    StepMatches(env, data, rolls, run, live, t, rest, views);
    live1 := GroupIfAny(env, |data.symbols|, live, GroupAt(data.series, run.next, t), views);
    run1 := StepTime(env, data, rolls, run, t);
    assert ([t] + rest)[1..] == rest;
  }

  function GroupIfAny<S>(env: Env<S>, symbols: nat, live: Live<S>, es: seq<Event>, views: Views): (r: Live<S>)
    requires |env.warmup| == |live.buffers| && forall i :: 0 <= i < |es| ==> es[i].sub < |live.buffers|
    ensures |r.buffers| == |live.buffers|
  {
    if es == [] then live else Group(env, symbols, live, es, views)
  }

  lemma StreamHead<S>(env: Env<S>, data: Data, live: Live<S>, next: seq<nat>, times: seq<int>, views: Views)
    requires |next| == |data.series| == |live.buffers| == |env.warmup| && times != [] && Ascends(times)
    ensures Groups(env, |data.symbols|, live, StreamOf(data.series, next, times), views)
      == Groups(env, |data.symbols|, GroupIfAny(env, |data.symbols|, live, GroupAt(data.series, next, times[0]), views),
                StreamOf(data.series, Reveal(data.series, next, times[0]), times[1..]), views)
  {
    var es := GroupAt(data.series, next, times[0]);
    var more := StreamOf(data.series, Reveal(data.series, next, times[0]), times[1..]);
    StreamLater(data, next, times);
    StreamSplits(env, |data.symbols|, live, es, more, views, times[0]);
  }

  lemma StreamLater(data: Data, next: seq<nat>, times: seq<int>)
    requires |next| == |data.series| && times != [] && Ascends(times)
    ensures var more := StreamOf(data.series, Reveal(data.series, next, times[0]), times[1..]);
      forall i :: 0 <= i < |more| ==> more[i].At() > times[0]
  {
    assert forall x :: x in times[1..] ==> x > times[0];
  }

  lemma StreamSplits<S>(
    env: Env<S>, symbols: nat, live: Live<S>, es: seq<Event>, more: seq<Event>, views: Views, t: int)
    requires |env.warmup| == |live.buffers|
    requires (forall i :: 0 <= i < |es| ==> es[i].sub < |live.buffers| && es[i].At() == t)
    requires (forall i :: 0 <= i < |more| ==> more[i].sub < |live.buffers| && more[i].At() > t)
    ensures Groups(env, symbols, live, es + more, views)
      == Groups(env, symbols, GroupIfAny(env, symbols, live, es, views), more, views)
  {
    if es == [] {
      assert es + more == more;
    } else {
      GroupsSplit(env, symbols, live, es, more, views, t);
    }
  }

  function Flatten(chunks: seq<seq<int>>): seq<int> {
    if chunks == [] then [] else chunks[0] + Flatten(chunks[1..])
  }

  /** Each batch holds, in any order, the bars that close at the times of its chunk: bars of one close time
      are never split over two batches. */
  ghost predicate Delivers(series: seq<seq<Candle>>, next: seq<nat>, chunks: seq<seq<int>>, batches: seq<seq<Event>>)
    requires |series| == |next|
    decreases |chunks|
  {
    |chunks| == |batches| && (chunks != [] ==>
      && multiset(batches[0]) == multiset(StreamOf(series, next, chunks[0]))
      && Delivers(series, RevealAll(series, next, chunks[0]), chunks[1..], batches[1..]))
  }

  lemma BatchIsStream<S>(
    env: Env<S>, symbols: nat, live: Live<S>, series: seq<seq<Candle>>, next: seq<nat>, times: seq<int>,
    batch: seq<Event>, views: Views)
    requires |env.warmup| == |live.buffers| == |series| == |next| && Ascends(times)
    requires multiset(batch) == multiset(StreamOf(series, next, times))
    ensures OnBars(env, symbols, live, batch, views) == Groups(env, symbols, live, StreamOf(series, next, times), views)
  {
    var stream := StreamOf(series, next, times);
    MultisetMembers(batch, stream);
    forall i | 0 <= i < |batch|
      ensures batch[i].sub < |live.buffers|
    {
      assert batch[i] in stream;
    }
    StreamOrdered(series, next, times);
    SortShuffle(batch, stream);
  }

  lemma AscendsParts(a: seq<int>, b: seq<int>)
    requires Ascends(a + b)
    ensures Ascends(a) && Ascends(b)
    ensures forall x, y :: x in a && y in b ==> x < y
  {
    assert forall i :: 0 <= i < |a| ==> (a + b)[i] == a[i];
    assert forall i :: 0 <= i < |b| ==> (a + b)[|a| + i] == b[i];
  }

  lemma {:induction false} StreamJoins(series: seq<seq<Candle>>, next: seq<nat>, a: seq<int>, b: seq<int>)
    requires |series| == |next|
    ensures StreamOf(series, next, a + b) == StreamOf(series, next, a) + StreamOf(series, RevealAll(series, next, a), b)
    decreases |a|
  {
    if a == [] {
      assert a + b == b;
    } else {
      assert (a + b)[0] == a[0] && (a + b)[1..] == a[1..] + b;
      StreamJoins(series, Reveal(series, next, a[0]), a[1..], b);
    }
  }

  /** Two ordered stretches of events, the first all earlier, can be processed one after the other. */
  lemma {:induction false} GroupsJoin<S>(
    env: Env<S>, symbols: nat, live: Live<S>, a: seq<Event>, b: seq<Event>, views: Views)
    requires |env.warmup| == |live.buffers|
    requires forall i :: 0 <= i < |a| ==> a[i].sub < |live.buffers|
    requires forall i :: 0 <= i < |b| ==> b[i].sub < |live.buffers|
    requires forall i, j :: 0 <= i < |a| && 0 <= j < |b| ==> a[i].At() < b[j].At()
    ensures Groups(env, symbols, live, a + b, views)
      == Groups(env, symbols, Groups(env, symbols, live, a, views), b, views)
    decreases |a|
  {
    if a == [] {
      assert a + b == b;
    } else {
      var n := Together(a);
      TogetherIs(a + b, n, a[0].At());
      assert (a + b)[..n] == a[..n] && (a + b)[n..] == a[n..] + b;
      GroupsJoin(env, symbols, Group(env, symbols, live, a[..n], views), a[n..], b, views);
    }
  }

  /** Batches that keep a close time together amount to the whole stream, group by group. */
  lemma {:induction false} BatchesAreStream<S>(
    env: Env<S>, symbols: nat, live: Live<S>, series: seq<seq<Candle>>, next: seq<nat>,
    chunks: seq<seq<int>>, batches: seq<seq<Event>>, views: Views)
    requires |env.warmup| == |live.buffers| == |series| == |next|
    requires Ascends(Flatten(chunks)) && Delivers(series, next, chunks, batches)
    ensures OnBatches(env, symbols, live, batches, views)
      == Groups(env, symbols, live, StreamOf(series, next, Flatten(chunks)), views)
    decreases |chunks|
  {
    if chunks != [] {
      var a, rest := chunks[0], Flatten(chunks[1..]);
      AscendsParts(a, rest);
      BatchIsStream(env, symbols, live, series, next, a, batches[0], views);
      var next1 := RevealAll(series, next, a);
      BatchesAreStream(env, symbols, OnBars(env, symbols, live, batches[0], views), series, next1, chunks[1..],
        batches[1..], views);
      StreamJoins(series, next, a, rest);
      GroupsJoin(env, symbols, live, StreamOf(series, next, a), StreamOf(series, next1, rest), views);
    }
  }

  /** Live and backtest agree: fed with the closed bars of the data in any batches that keep one close time
      together, the runner makes the calls of the backtest on the same series, clock and state, and returns
      the same signals, or both are stopped by the strategy at the same call. */
  lemma Parity<S(!new)>(
    env: Env<S>, data: Data, rolls: map<int, int>, run: Run<S>, live: Live<S>, next: seq<nat>,
    chunks: seq<seq<int>>, batches: seq<seq<Event>>, views: Views)
    requires |next| == |data.series| && Aligned(env, data, run, live, next, Flatten(chunks)) && Ascends(Flatten(chunks))
    requires SeriesAscend(data) && IgnoresFills(env) && Delivers(data.series, next, chunks, batches)
    requires ViewsOfRun(env, data, rolls, run, Flatten(chunks), views)
    ensures Same(env, data, RunTimes(env, data, rolls, run, Flatten(chunks)),
                 OnBatches(env, |data.symbols|, live, batches, views))
  {
    BatchesAreStream(env, |data.symbols|, live, data.series, next, chunks, batches, views);
    TimesMatch(env, data, rolls, run, live, next, Flatten(chunks), views);
  }

  function StartLive<S>(series: nat, strategy: S): Live<S> {
    Live(seq(series, (_: int) => []), 0, strategy, {}, [], false)
  }

  /** Parity for whole runs that both start from nothing. */
  lemma WholeRunParity<S(!new)>(
    env: Env<S>, calendar: seq<(int, int)>, data: Data, strategy: S, balance: real,
    chunks: seq<seq<int>>, batches: seq<seq<Event>>, views: Views)
    requires Subscribed(env, data) && SeriesAscend(data) && IgnoresFills(env)
    requires Flatten(chunks) == Timeline(calendar, data) && forall t :: t in Timeline(calendar, data) ==> t >= 0
    requires Delivers(data.series, seq(|data.series|, (_: int) => 0), chunks, batches)
    requires ViewsOfRun(env, data, AsMap(Rolls(calendar, data)), Start(data, strategy, balance),
      Timeline(calendar, data), views)
    ensures var run := WholeRun(env, calendar, data, strategy, balance);
      var live := OnBatches(env, |data.symbols|, StartLive(|data.series|, strategy), batches, views);
      && (run.halt == Going <==> !live.broken)
      && (run.halt == Going ==>
        live.strategy == run.strategy && Emits(live.out) == run.signals && live.buffers == data.series)
  {
    var run, live := Start(data, strategy, balance), StartLive(|data.series|, strategy);
    UniqueSpec(Times(Rolls(calendar, data)) + AllCloses(data.series));
    StartAligned(env, calendar, data, strategy, balance);
    Parity(env, data, AsMap(Rolls(calendar, data)), run, live, run.next, chunks, batches, views);
    EveryBarDelivered(env, calendar, data, strategy, balance);
    AllVisible(env, data, WholeRun(env, calendar, data, strategy, balance),
      OnBatches(env, |data.symbols|, live, batches, views));
  }

  lemma StartAligned<S>(env: Env<S>, calendar: seq<(int, int)>, data: Data, strategy: S, balance: real)
    requires Subscribed(env, data) && forall t :: t in Timeline(calendar, data) ==> t >= 0
    ensures var run := Start(data, strategy, balance);
      Aligned(env, data, run, StartLive(|data.series|, strategy), run.next, Timeline(calendar, data))
  {
    var run := Start(data, strategy, balance);
    var times := Timeline(calendar, data);
    assert forall i :: 0 <= i < |times| ==> times[i] in times;
    UniqueSpec(Times(Rolls(calendar, data)) + AllCloses(data.series));
    forall k: nat, i: nat | Unseen(data.series, run.next, k, i)
      ensures data.series[k][i].closeTime in times
    {
      ClosesSpec(data.series, data.series[k][i].closeTime);
    }
  }

  lemma AllVisible<S>(env: Env<S>, data: Data, run: Run<S>, live: Live<S>)
    requires Same(env, data, run, live)
    requires run.halt == Going ==>
      |run.next| == |data.series| && forall k :: 0 <= k < |data.series| ==> run.next[k] == |data.series[k]|
    ensures run.halt == Going <==> !live.broken
    ensures run.halt == Going ==>
      live.strategy == run.strategy && Emits(live.out) == run.signals && live.buffers == data.series
  {
    if run.halt == Going {
      assert forall k :: 0 <= k < |data.series| ==>
        live.buffers[k] == data.series[k][..|data.series[k]|] == data.series[k];
    }
  }
}
