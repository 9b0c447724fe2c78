/** Exactly when the live bar builder emits a bar too late: what each subscription is going to emit, for any quotes
    at all, also after quotes that reopened minutes. */
module LateBars {
  import opened Types
  import opened Events
  import opened Resample
  import opened LiveBarsModel
  import opened LiveBarsLaws

  // ---------------------------------------------------------------- what a subscription is going to emit

  ghost function Ends(cs: seq<Candle>): set<int> { set c | c in cs :: c.closeTime }

  /** When the buckets of these minutes close. */
  ghost function BucketEnds(f: Floor, width: int, cs: seq<Candle>): set<int> {
    set c | c in cs :: f(c.openTime) + width
  }

  ghost function UpTo(xs: set<int>, c: int): set<int> { set x | x in xs && x <= c }

  ghost function Beyond(xs: set<int>, c: int): set<int> { set x | x in xs && x > c }

  function Pend(st: Builder, s: nat): seq<Candle>
    requires s < |st.building| == |st.done|
  {
    st.done[s] + Opt(st.building[s])
  }

  /** The close of the bar of subscription j that holds an instant. */
  function BarEnd(cfg: Config, j: nat, t: int): int
    requires j < |cfg.subs|
  {
    if cfg.subs[j].minutes == 1 then Minute(t) + NS_PER_MINUTE else Floors(cfg, j)(Minute(t)) + Width(cfg, j)
  }

  /** The closes of the bars that what is pending belongs to. */
  ghost function Awaited(cfg: Config, st: Builder, j: nat): set<int>
    requires WellFormed(cfg) && Shaped(cfg, st) && j < |cfg.subs|
  {
    var p := Pend(st, cfg.subs[j].symbol);
    if cfg.subs[j].minutes == 1 then Ends(p)
    else Ends(Opt(st.htf[j])) + BucketEnds(Floors(cfg, j), Width(cfg, j), p)
  }

  lemma EndsJoin(a: seq<Candle>, b: seq<Candle>)
    ensures Ends(a + b) == Ends(a) + Ends(b)
  {}

  lemma BucketEndsJoin(f: Floor, width: int, a: seq<Candle>, b: seq<Candle>)
    ensures BucketEnds(f, width, a + b) == BucketEnds(f, width, a) + BucketEnds(f, width, b)
  {}

  lemma {:induction false} CutEnds(cs: seq<Candle>, c: int)
    ensures forall x :: x in ClosedBy(cs, c) <==> x in cs && x.closeTime <= c
    ensures forall x :: x in OpenAfter(cs, c) <==> x in cs && x.closeTime > c
  {
    if cs != [] {
      CutEnds(cs[..|cs| - 1], c);
      assert cs == cs[..|cs| - 1] + [cs[|cs| - 1]];
    }
  }

  // ---------------------------------------------------------------- any run keeps the builder neat

  /** Pending minutes in time order, none older than what went out. */
  ghost predicate NeatMinutes(building: Option<Candle>, done: seq<Candle>, until: int) {
    && MinuteBars(done + Opt(building))
    && (building.None? ==> done == [])
    && until % NS_PER_MINUTE == 0
    && forall c :: c in done + Opt(building) ==> c.openTime >= until
  }

  /** An open bucket is a bucket, and none of a later time than what went out. */
  ghost predicate NeatBucket(f: Floor, width: int, agg: Option<Candle>, until: int) {
    agg.Some? ==>
      && agg.value.openTime == f(agg.value.openTime) <= until
      && agg.value.closeTime == agg.value.openTime + width
  }

  ghost predicate Neat(cfg: Config, st: Builder) {
    && WellFormed(cfg) && Shaped(cfg, st) && Earliest(st)
    && (forall s: nat :: s < cfg.symbols ==> NeatMinutes(st.building[s], st.done[s], st.emittedUntil[s]))
    && (forall j: nat :: j < |cfg.subs| && cfg.subs[j].minutes != 1 ==>
          NeatBucket(Floors(cfg, j), Width(cfg, j), st.htf[j], st.emittedUntil[cfg.subs[j].symbol]))
  }

  // ---------------------------------------------------------------- a flush, one bucket

  lemma AddOne(f: Floor, width: int, agg: Option<Candle>, until: int, b: Candle, a: Option<Candle>, es: seq<Candle>)
    requires GoodFloor(f, width) && NeatBucket(f, width, agg, until) && until <= b.openTime
    requires (a, es) == AddToBucket(f, width, agg, b)
    ensures NeatBucket(f, width, a, b.openTime)
    ensures Ends(es) + Ends(Opt(a)) == Ends(Opt(agg)) + {f(b.openTime) + width}
    ensures forall e :: e in es ==> e.closeTime <= b.openTime
  {
    assert f(f(b.openTime)) == f(b.openTime);
    if agg.Some? {
      FloorMonotone(f, width, agg.value.openTime, b.openTime);
    }
  }

  function LastOpen(due: seq<Candle>, until: int): int { if due == [] then until else due[|due| - 1].openTime }

  lemma {:induction false} AddAll(f: Floor, width: int, agg: Option<Candle>, until: int, due: seq<Candle>)
    requires GoodFloor(f, width) && NeatBucket(f, width, agg, until) && MinuteBars(due)
    requires forall c :: c in due ==> c.openTime >= until
    ensures Added(f, width, agg, until, due, AddMinutes(f, width, agg, due).0, AddMinutes(f, width, agg, due).1)
  {
    if due == [] {
      NoneAddedYet(f, width, agg, until);
    } else {
      var front, b := due[..|due| - 1], due[|due| - 1];
      MinuteBarsPrefix(due, |front|);
      AddAll(f, width, agg, until, front);
      AddLater(due, until);
      AddSnoc(f, width, agg, until, front, b);
      FrontAndLastBar(due);
    }
  }

  lemma FrontAndLastBar(due: seq<Candle>)
    requires due != []
    ensures due == due[..|due| - 1] + [due[|due| - 1]]
  {}

  lemma NoneAddedYet(f: Floor, width: int, agg: Option<Candle>, until: int)
    requires NeatBucket(f, width, agg, until)
    ensures Added(f, width, agg, until, [], AddMinutes(f, width, agg, []).0, AddMinutes(f, width, agg, []).1)
  {}

  lemma AddSnoc(f: Floor, width: int, agg: Option<Candle>, until: int, front: seq<Candle>, b: Candle)
    requires GoodFloor(f, width) && LastOpen(front, until) <= b.openTime
    requires Added(f, width, agg, until, front, AddMinutes(f, width, agg, front).0, AddMinutes(f, width, agg, front).1)
    ensures Added(f, width, agg, until, front + [b], AddMinutes(f, width, agg, front + [b]).0,
      AddMinutes(f, width, agg, front + [b]).1)
  {
    assert (front + [b])[..|front|] == front;
    var (a, es) := AddMinutes(f, width, agg, front);
    var (a', es') := AddToBucket(f, width, a, b);
    AddOneMore(f, width, agg, until, front, b, a, es, a', es');
  }

  ghost predicate Added(
    f: Floor, width: int, agg: Option<Candle>, until: int, due: seq<Candle>, a: Option<Candle>, es: seq<Candle>)
  {
    && NeatBucket(f, width, a, LastOpen(due, until))
    && Ends(es) + Ends(Opt(a)) == Ends(Opt(agg)) + BucketEnds(f, width, due)
    && forall e :: e in es ==> e.closeTime <= LastOpen(due, until)
  }

  lemma AddLater(due: seq<Candle>, until: int)
    requires MinuteBars(due) && due != [] && forall c :: c in due ==> c.openTime >= until
    ensures LastOpen(due[..|due| - 1], until) <= due[|due| - 1].openTime
  {
    var n := |due| - 1;
    assert n > 0 ==> due[n - 1].closeTime <= due[n].openTime;
    assert due[n] in due;
  }

  lemma AddOneMore(
    f: Floor, width: int, agg: Option<Candle>, until: int, front: seq<Candle>, b: Candle, a: Option<Candle>,
    es: seq<Candle>, a': Option<Candle>, es': seq<Candle>)
    requires GoodFloor(f, width) && Added(f, width, agg, until, front, a, es) && LastOpen(front, until) <= b.openTime
    requires (a', es') == AddToBucket(f, width, a, b)
    ensures Added(f, width, agg, until, front + [b], a', es + es')
  {
    AddOne(f, width, a, LastOpen(front, until), b, a', es');
    AddedEnds(f, width, agg, front, b, a, es, a', es');
  }

  lemma AddedEnds(
    f: Floor, width: int, agg: Option<Candle>, front: seq<Candle>, b: Candle, a: Option<Candle>, es: seq<Candle>,
    a': Option<Candle>, es': seq<Candle>)
    requires Ends(es) + Ends(Opt(a)) == Ends(Opt(agg)) + BucketEnds(f, width, front)
    requires Ends(es') + Ends(Opt(a')) == Ends(Opt(a)) + {f(b.openTime) + width}
    ensures Ends(es + es') + Ends(Opt(a')) == Ends(Opt(agg)) + BucketEnds(f, width, front + [b])
  {
    EndsJoin(es, es');
    BucketEndsJoin(f, width, front, [b]);
    OneBucketEnd(f, width, b);
    OneMoreEnds(Ends(es), Ends(es'), Ends(Opt(a')), Ends(Opt(a)), Ends(Opt(agg)), BucketEnds(f, width, front),
      f(b.openTime) + width);
  }

  lemma OneBucketEnd(f: Floor, width: int, b: Candle)
    ensures BucketEnds(f, width, [b]) == {f(b.openTime) + width}
  {}

  lemma OneMoreEnds(e: set<int>, e': set<int>, a': set<int>, a: set<int>, agg: set<int>, b: set<int>, x: int)
    requires e + a == agg + b && e' + a' == a + {x}
    ensures (e + e') + a' == agg + (b + {x})
  {}

  /** A flush of one bucket emits what is awaited up to the cutoff and keeps the rest. */
  lemma FlushBucket(f: Floor, width: int, agg: Option<Candle>, until: int, p: seq<Candle>, due: seq<Candle>, c: int)
    requires GoodFloor(f, width) && NeatBucket(f, width, agg, until) && MinuteBars(p)
    requires (forall m :: m in p ==> m.openTime >= until) && due == ClosedBy(p, c)
    ensures var (a, es) := BucketCall(f, width, agg, due, c);
      && NeatBucket(f, width, a, LastClose(due, until))
      && Ends(es) == UpTo(Ends(Opt(agg)) + BucketEnds(f, width, p), c)
      && Ends(Opt(a)) + BucketEnds(f, width, OpenAfter(p, c))
         == Beyond(Ends(Opt(agg)) + BucketEnds(f, width, p), c)
  {
    DueAndRest(p, c);
    CutEnds(p, c);
    AddAll(f, width, agg, until, due);
    var (a, es) := AddMinutes(f, width, agg, due);
    RestBeyond(f, width, OpenAfter(p, c), c);
    BucketEndsJoin(f, width, due, OpenAfter(p, c));
    CloseAdded(f, width, agg, until, due, c, a, es, BucketEnds(f, width, OpenAfter(p, c)));
  }

  /** After its minutes the bucket itself goes out if it is due. */
  lemma CloseAdded(
    f: Floor, width: int, agg: Option<Candle>, until: int, due: seq<Candle>, c: int, a: Option<Candle>,
    es: seq<Candle>, rest: set<int>)
    requires Added(f, width, agg, until, due, a, es) && MinuteBars(due) && (due == [] ==> es == [])
    requires (forall m :: m in due ==> m.closeTime <= c) && forall x :: x in rest ==> x > c
    ensures NeatBucket(f, width, Still(a, c), LastClose(due, until))
    ensures var all := Ends(Opt(agg)) + (BucketEnds(f, width, due) + rest);
      && Ends(es + if IsDue(a, c) then [a.value] else []) == UpTo(all, c)
      && Ends(Opt(Still(a, c))) + rest == Beyond(all, c)
  {
    if due != [] {
      assert due[|due| - 1] in due;
    }
    EndsJoin(es, if IsDue(a, c) then [a.value] else []);
    var all := Ends(Opt(agg)) + (BucketEnds(f, width, due) + rest);
    Parted(Ends(es), Ends(Opt(a)), rest, all, c);
    OpenOrDue(a, c);
  }

  lemma OpenOrDue(a: Option<Candle>, c: int)
    ensures Ends(if IsDue(a, c) then [a.value] else []) == UpTo(Ends(Opt(a)), c)
    ensures Ends(Opt(Still(a, c))) == Beyond(Ends(Opt(a)), c)
  {}

  lemma DueAndRest(p: seq<Candle>, c: int)
    requires MinuteBars(p)
    ensures p == ClosedBy(p, c) + OpenAfter(p, c) && MinuteBars(ClosedBy(p, c)) && MinuteBars(OpenAfter(p, c))
    ensures forall m :: m in OpenAfter(p, c) ==> m.openTime >= LastClose(ClosedBy(p, c), m.openTime)
  {
    SpacedRises(NS_PER_MINUTE, p);
    CutSplits(p, c);
    PartsOfMinutes(p, ClosedBy(p, c), OpenAfter(p, c));
  }

  lemma PartsOfMinutes(p: seq<Candle>, a: seq<Candle>, b: seq<Candle>)
    requires MinuteBars(p) && p == a + b
    ensures MinuteBars(a) && MinuteBars(b)
    ensures forall m :: m in b ==> m.openTime >= LastClose(a, m.openTime)
  {
    assert forall i :: 0 <= i < |a| ==> a[i] == p[i];
    assert forall i :: 0 <= i < |b| ==> b[i] == p[|a| + i];
  }

  lemma RestBeyond(f: Floor, width: int, rest: seq<Candle>, c: int)
    requires GoodFloor(f, width) && MinuteBars(rest) && forall m :: m in rest ==> m.closeTime > c
    ensures forall x :: x in BucketEnds(f, width, rest) ==> x > c
  {
    forall i | 0 <= i < |rest|
      ensures f(rest[i].openTime) + width > c
    {
      assert rest[i] in rest;
      MinuteFits(f, width, rest[i]);
    }
  }

  lemma Parted(es: set<int>, a: set<int>, rest: set<int>, all: set<int>, c: int)
    requires all == es + a + rest
    requires (forall x :: x in es ==> x <= c) && (forall x :: x in rest ==> x > c)
    ensures es + UpTo(a, c) == UpTo(all, c) && Beyond(a, c) + rest == Beyond(all, c)
  {}

  // ---------------------------------------------------------------- a flush of everything

  lemma FlushOne(building: Option<Candle>, done: seq<Candle>, until: int, c: int)
    requires NeatMinutes(building, done, until)
    ensures var p, due := done + Opt(building), ClosedBy(Finished(building, done, c), c);
      && due == ClosedBy(p, c)
      && OpenAfter(Finished(building, done, c), c) + Opt(Still(building, c)) == OpenAfter(p, c)
      && NeatMinutes(Still(building, c), OpenAfter(Finished(building, done, c), c), LastClose(due, until))
  {
    var p := done + Opt(building);
    SpacedRises(NS_PER_MINUTE, p);
    DueIsCut(building, done, c);
    DueAndRest(p, c);
    CutEnds(p, c);
    LastCloseWhole(ClosedBy(p, c), until);
  }

  lemma LastCloseWhole(due: seq<Candle>, until: int)
    requires MinuteBars(due) && until % NS_PER_MINUTE == 0
    ensures LastClose(due, until) % NS_PER_MINUTE == 0
  {
    if due != [] {
      WholeSum(due[|due| - 1].openTime, NS_PER_MINUTE);
    }
  }

  lemma FlushPend(cfg: Config, st: Builder, s: nat, c: int)
    requires Neat(cfg, st) && s < cfg.symbols
    ensures var r := Flushed(cfg, st, c);
      && NeatMinutes(r.building[s], r.done[s], r.emittedUntil[s])
      && r.emittedUntil[s] == LastClose(ClosedBy(Pend(st, s), c), st.emittedUntil[s])
      && DueMinutes(st, s, c) == ClosedBy(Pend(st, s), c) && Pend(r, s) == OpenAfter(Pend(st, s), c)
  {
    FlushOne(st.building[s], st.done[s], st.emittedUntil[s], c);
  }

  /** A flush emits, for each subscription, what is awaited up to the cutoff. */
  lemma FlushAwaited(cfg: Config, st: Builder, j: nat, c: int)
    requires Neat(cfg, st) && GoodBuckets(cfg) && j < |cfg.subs|
    ensures Ends(SubCall(cfg, st, j, c).1) == UpTo(Awaited(cfg, st, j), c)
    ensures Awaited(cfg, Flushed(cfg, st, c), j) == Beyond(Awaited(cfg, st, j), c)
    ensures var r := Flushed(cfg, st, c); cfg.subs[j].minutes != 1 ==>
      NeatBucket(Floors(cfg, j), Width(cfg, j), r.htf[j], r.emittedUntil[cfg.subs[j].symbol])
  {
    var s := cfg.subs[j].symbol;
    FlushPend(cfg, st, s, c);
    FlushedHtf(cfg, st, j, c);
    assert NeatMinutes(st.building[s], st.done[s], st.emittedUntil[s]);
    if cfg.subs[j].minutes == 1 {
      CutMinutes(Pend(st, s), c);
    } else {
      assert NeatBucket(Floors(cfg, j), Width(cfg, j), st.htf[j], st.emittedUntil[s]);
      FlushBucket(Floors(cfg, j), Width(cfg, j), st.htf[j], st.emittedUntil[s], Pend(st, s), DueMinutes(st, s, c), c);
    }
  }

  lemma FlushedHtf(cfg: Config, st: Builder, j: nat, c: int)
    requires WellFormed(cfg) && Shaped(cfg, st) && j < |cfg.subs|
    ensures Flushed(cfg, st, c).htf[j] == SubCall(cfg, st, j, c).0
  {}

  lemma CutMinutes(p: seq<Candle>, c: int)
    ensures Ends(ClosedBy(p, c)) == UpTo(Ends(p), c) && Ends(OpenAfter(p, c)) == Beyond(Ends(p), c)
  {
    CutEnds(p, c);
  }

  lemma FlushNeat(cfg: Config, st: Builder, c: int)
    requires Neat(cfg, st) && GoodBuckets(cfg)
    ensures Neat(cfg, Flushed(cfg, st, c))
  {
    FlushedEarliest(cfg, st, c);
    forall s: nat | s < cfg.symbols
      ensures var r := Flushed(cfg, st, c); NeatMinutes(r.building[s], r.done[s], r.emittedUntil[s])
    {
      FlushPend(cfg, st, s, c);
    }
    forall j: nat | j < |cfg.subs| && cfg.subs[j].minutes != 1
      ensures var r := Flushed(cfg, st, c);
        NeatBucket(Floors(cfg, j), Width(cfg, j), r.htf[j], r.emittedUntil[cfg.subs[j].symbol])
    {
      FlushAwaited(cfg, st, j, c);
    }
  }

  ghost function EventEnds(es: seq<Event>, j: nat): set<int> { set e | e in es && e.sub == j :: e.At() }

  lemma SortedEnds(outs: seq<seq<Candle>>, es: seq<Event>, j: nat)
    requires es == Sort(TagAll(outs)) && j < |outs|
    ensures EventEnds(es, j) == Ends(outs[j])
  {
    MultisetMembers(es, TagAll(outs));
    TagAllProjects(outs, j);
    ProjectMembers(TagAll(outs), j);
    EventsOfSeries(es, outs[j], j);
  }

  lemma EventsOfSeries(es: seq<Event>, cs: seq<Candle>, j: nat)
    requires forall c :: c in cs <==> Event(j, c) in es
    ensures EventEnds(es, j) == Ends(cs)
  {
    forall x | x in EventEnds(es, j)
      ensures x in Ends(cs)
    {
      var e: Event :| e in es && e.sub == j && e.At() == x;
      assert e == Event(j, e.candle);
    }
    forall x | x in Ends(cs)
      ensures x in EventEnds(es, j)
    {
      var b: Candle :| b in cs && b.closeTime == x;
      assert Event(j, b) in es;
    }
  }

  lemma SlowEnds(cfg: Config, st: Builder, j: nat, c: int)
    requires Neat(cfg, st) && GoodBuckets(cfg) && j < |cfg.subs|
    ensures EventEnds(Slow(cfg, st, c).events, j) == UpTo(Awaited(cfg, st, j), c)
  {
    FlushAwaited(cfg, st, j, c);
    SortedEnds(Outs(cfg, st, c), Slow(cfg, st, c).events, j);
  }

  /** With or without the shortcut, a call emits what is awaited up to its cutoff and keeps the rest. */
  lemma CutoffAwaited(cfg: Config, st: Builder, c: int)
    requires Neat(cfg, st) && GoodBuckets(cfg)
    ensures var r := OnCutoff(cfg, st, c);
      && Neat(cfg, r.builder)
      && forall j: nat :: j < |cfg.subs| ==>
           && EventEnds(r.events, j) == UpTo(Awaited(cfg, st, j), c)
           && Awaited(cfg, r.builder, j) == Beyond(Awaited(cfg, st, j), c)
  {
    FlushNeat(cfg, st, c);
    if c < st.nextDue {
      FastPath(cfg, st, c);
    }
    forall j: nat | j < |cfg.subs|
      ensures var r := OnCutoff(cfg, st, c);
        EventEnds(r.events, j) == UpTo(Awaited(cfg, st, j), c)
        && Awaited(cfg, r.builder, j) == Beyond(Awaited(cfg, st, j), c)
    {
      SlowEnds(cfg, st, j, c);
      FlushAwaited(cfg, st, j, c);
    }
  }

  // ---------------------------------------------------------------- a quote

  /** The branch that starts a new minute. */
  predicate OpensMinute(st: Builder, s: nat, t: int)
    requires s < |st.building| == |st.emittedUntil|
  {
    && Minute(t) + NS_PER_MINUTE > st.emittedUntil[s]
    && (st.building[s].Some? ==> st.building[s].value.openTime < Minute(t))
  }

  lemma BeginMinute(tick: Candle)
    ensures var bar := Begin(Minute, NS_PER_MINUTE, tick);
      && bar.openTime == Minute(tick.openTime) && bar.closeTime == bar.openTime + NS_PER_MINUTE
      && bar.openTime % NS_PER_MINUTE == 0
  {
    MinuteFloor(tick.openTime);
  }

  lemma QuoteOpened(cfg: Config, st: Builder, s: nat, t: int, bid: real, ask: real, r: Builder)
    requires Shaped(cfg, st) && s < cfg.symbols && (st.building[s].None? ==> st.done[s] == [])
    requires OpensMinute(st, s, t) && r == AddQuote(cfg, st, s, t, bid, ask)
    ensures Pend(r, s) == Pend(st, s) + [Begin(Minute, NS_PER_MINUTE, Tick(t, bid, ask))]
  {
    var bar := Begin(Minute, NS_PER_MINUTE, Tick(t, bid, ask));
    assert r.building[s] == Some(bar);
    assert r.done[s] == Pend(st, s);
  }

  lemma QuoteJoined(cfg: Config, st: Builder, s: nat, t: int, bid: real, ask: real, r: Builder)
    requires Shaped(cfg, st) && s < cfg.symbols
    requires !OpensMinute(st, s, t) && r == AddQuote(cfg, st, s, t, bid, ask)
    ensures SameBars(Pend(r, s), Pend(st, s))
  {}

  /** A quote leaves the pending minutes as they are, but for prices, or puts a new one behind them. */
  lemma QuotePend(cfg: Config, st: Builder, s: nat, t: int, bid: real, ask: real)
    requires Neat(cfg, st) && s < cfg.symbols
    ensures var r := AddQuote(cfg, st, s, t, bid, ask);
      if OpensMinute(st, s, t) then Pend(r, s) == Pend(st, s) + [Begin(Minute, NS_PER_MINUTE, Tick(t, bid, ask))]
      else SameBars(Pend(r, s), Pend(st, s))
  {
    if OpensMinute(st, s, t) {
      assert NeatMinutes(st.building[s], st.done[s], st.emittedUntil[s]);
      QuoteOpened(cfg, st, s, t, bid, ask, AddQuote(cfg, st, s, t, bid, ask));
    } else {
      QuoteJoined(cfg, st, s, t, bid, ask, AddQuote(cfg, st, s, t, bid, ask));
    }
  }

  /** It touches nothing of the other symbols. */
  lemma QuoteTouches(cfg: Config, st: Builder, s: nat, t: int, bid: real, ask: real, r: Builder)
    requires Shaped(cfg, st) && s < cfg.symbols && r == AddQuote(cfg, st, s, t, bid, ask)
    ensures r.htf == st.htf && r.emittedUntil == st.emittedUntil
    ensures forall k: nat :: k < cfg.symbols && k != s ==> r.building[k] == st.building[k] && r.done[k] == st.done[k]
  {}

  ghost predicate SameBars(a: seq<Candle>, b: seq<Candle>) {
    |a| == |b| && forall i :: 0 <= i < |a| ==> a[i].openTime == b[i].openTime && a[i].closeTime == b[i].closeTime
  }

  lemma SameEnds(f: Floor, width: int, a: seq<Candle>, b: seq<Candle>)
    requires SameBars(a, b)
    ensures Ends(a) == Ends(b) && BucketEnds(f, width, a) == BucketEnds(f, width, b)
  {
    EndsWithin(a, b);
    EndsWithin(b, a);
    BucketEndsWithin(f, width, a, b);
    BucketEndsWithin(f, width, b, a);
  }

  lemma EndsWithin(a: seq<Candle>, b: seq<Candle>)
    requires SameBars(a, b)
    ensures Ends(a) <= Ends(b)
  {
    forall x | x in Ends(a)
      ensures x in Ends(b)
    {
      var i :| 0 <= i < |a| && a[i].closeTime == x;
      assert b[i] in b;
    }
  }

  lemma BucketEndsWithin(f: Floor, width: int, a: seq<Candle>, b: seq<Candle>)
    requires SameBars(a, b)
    ensures BucketEnds(f, width, a) <= BucketEnds(f, width, b)
  {
    forall x | x in BucketEnds(f, width, a)
      ensures x in BucketEnds(f, width, b)
    {
      var i :| 0 <= i < |a| && f(a[i].openTime) + width == x;
      assert b[i] in b;
    }
  }

  lemma QuoteNeat(cfg: Config, st: Builder, s: nat, t: int, bid: real, ask: real)
    requires Neat(cfg, st) && s < cfg.symbols
    ensures Neat(cfg, AddQuote(cfg, st, s, t, bid, ask))
  {
    AddQuoteEarliest(cfg, st, s, t, bid, ask);
    QuoteMinutesNeat(cfg, st, s, t, bid, ask);
    QuoteTouches(cfg, st, s, t, bid, ask, AddQuote(cfg, st, s, t, bid, ask));
    OthersNeat(cfg, st, AddQuote(cfg, st, s, t, bid, ask), s);
  }

  lemma QuoteMinutesNeat(cfg: Config, st: Builder, s: nat, t: int, bid: real, ask: real)
    requires Neat(cfg, st) && s < cfg.symbols
    ensures var r := AddQuote(cfg, st, s, t, bid, ask); NeatMinutes(r.building[s], r.done[s], r.emittedUntil[s])
  {
    QuotePend(cfg, st, s, t, bid, ask);
    assert NeatMinutes(st.building[s], st.done[s], st.emittedUntil[s]);
    if OpensMinute(st, s, t) {
      BehindPending(Pend(st, s), Begin(Minute, NS_PER_MINUTE, Tick(t, bid, ask)), st, s, t, bid, ask);
    } else {
      SamePending(Pend(AddQuote(cfg, st, s, t, bid, ask), s), Pend(st, s), st.emittedUntil[s]);
    }
  }

  lemma OthersNeat(cfg: Config, st: Builder, r: Builder, s: nat)
    requires Neat(cfg, st) && Shaped(cfg, r) && Earliest(r) && s < cfg.symbols
    requires r.htf == st.htf && r.emittedUntil == st.emittedUntil
    requires NeatMinutes(r.building[s], r.done[s], r.emittedUntil[s])
    requires forall k: nat :: k < cfg.symbols && k != s ==> r.building[k] == st.building[k] && r.done[k] == st.done[k]
    ensures Neat(cfg, r)
  {
    forall k: nat | k < cfg.symbols
      ensures NeatMinutes(r.building[k], r.done[k], r.emittedUntil[k])
    {
      assert NeatMinutes(st.building[k], st.done[k], st.emittedUntil[k]);
    }
  }

  lemma SamePending(a: seq<Candle>, b: seq<Candle>, until: int)
    requires SameBars(a, b) && MinuteBars(b) && forall c :: c in b ==> c.openTime >= until
    ensures MinuteBars(a) && forall c :: c in a ==> c.openTime >= until
  {
    forall c | c in a
      ensures c.openTime >= until
    {
      var i :| 0 <= i < |a| && a[i] == c;
      assert b[i] in b;
    }
  }

  lemma BehindPending(p: seq<Candle>, bar: Candle, st: Builder, s: nat, t: int, bid: real, ask: real)
    requires s < |st.building| == |st.done| == |st.emittedUntil| && p == Pend(st, s)
    requires NeatMinutes(st.building[s], st.done[s], st.emittedUntil[s]) && OpensMinute(st, s, t)
    requires bar == Begin(Minute, NS_PER_MINUTE, Tick(t, bid, ask))
    ensures MinuteBars(p + [bar]) && forall c :: c in p + [bar] ==> c.openTime >= st.emittedUntil[s]
  {
    BeginMinute(Tick(t, bid, ask));
    NextMinute(bar.openTime, bar.openTime + NS_PER_MINUTE);
    if bar.openTime < st.emittedUntil[s] {
      NextMinute(bar.openTime, st.emittedUntil[s]);
    }
    if p != [] {
      assert p[|p| - 1] == st.building[s].value;
      NextMinute(p[|p| - 1].openTime, bar.openTime);
    }
  }

  lemma OneEnd(b: Candle)
    ensures Ends([b]) == {b.closeTime}
  {}

  lemma OpenedAwaited(cfg: Config, st: Builder, r: Builder, j: nat, bar: Candle, t: int)
    requires WellFormed(cfg) && Shaped(cfg, st) && Shaped(cfg, r) && j < |cfg.subs| && r.htf == st.htf
    requires Pend(r, cfg.subs[j].symbol) == Pend(st, cfg.subs[j].symbol) + [bar]
    requires bar.openTime == Minute(t) && bar.closeTime == Minute(t) + NS_PER_MINUTE
    ensures Awaited(cfg, r, j) == Awaited(cfg, st, j) + {BarEnd(cfg, j, t)}
  {
    var p := Pend(st, cfg.subs[j].symbol);
    EndsJoin(p, [bar]);
    OneEnd(bar);
    BucketEndsJoin(Floors(cfg, j), Width(cfg, j), p, [bar]);
    OneBucketEnd(Floors(cfg, j), Width(cfg, j), bar);
  }

  lemma SameAwaited(cfg: Config, st: Builder, r: Builder, j: nat)
    requires WellFormed(cfg) && Shaped(cfg, st) && Shaped(cfg, r) && j < |cfg.subs| && r.htf == st.htf
    requires SameBars(Pend(r, cfg.subs[j].symbol), Pend(st, cfg.subs[j].symbol))
    ensures Awaited(cfg, r, j) == Awaited(cfg, st, j)
  {
    SameEnds(Floors(cfg, j), Width(cfg, j), Pend(r, cfg.subs[j].symbol), Pend(st, cfg.subs[j].symbol));
  }

  /** What a quote adds to what a subscription is going to emit. */
  lemma QuoteAwaited(cfg: Config, st: Builder, s: nat, t: int, bid: real, ask: real, j: nat)
    requires Neat(cfg, st) && s < cfg.symbols && j < |cfg.subs|
    ensures Awaited(cfg, AddQuote(cfg, st, s, t, bid, ask), j)
      == if cfg.subs[j].symbol == s && OpensMinute(st, s, t) then Awaited(cfg, st, j) + {BarEnd(cfg, j, t)}
         else Awaited(cfg, st, j)
  {
    var r := AddQuote(cfg, st, s, t, bid, ask);
    QuotePend(cfg, st, s, t, bid, ask);
    QuoteTouches(cfg, st, s, t, bid, ask, r);
    if cfg.subs[j].symbol == s && OpensMinute(st, s, t) {
      BeginMinute(Tick(t, bid, ask));
      OpenedAwaited(cfg, st, r, j, Begin(Minute, NS_PER_MINUTE, Tick(t, bid, ask)), t);
    } else {
      SameAwaited(cfg, st, r, j);
    }
  }

  // ---------------------------------------------------------------- whole runs

  lemma NeatInit(cfg: Config)
    requires WellFormed(cfg)
    ensures Neat(cfg, Init(cfg)) && forall j: nat :: j < |cfg.subs| ==> Awaited(cfg, Init(cfg), j) == {}
  {
    var st := Init(cfg);
    forall x
      ensures x !in Pending(st)
    {
      PendingParts(st, x);
    }
  }

  /** The last input is a quote that starts a new minute in the bar of subscription j that closes at x. */
  predicate Brings(cfg: Config, xs: seq<Input>, j: nat, x: int)
    requires WellFormed(cfg) && xs != [] && j < |cfg.subs|
  {
    var q := xs[|xs| - 1];
    && q.Quote? && q.symbol == cfg.subs[j].symbol && OpensMinute(Arrival(cfg, xs), q.symbol, q.t)
    && BarEnd(cfg, j, q.t) == x
  }

  lemma InputNeat(cfg: Config, xs: seq<Input>, q: Input)
    requires WellFormed(cfg) && GoodBuckets(cfg) && Neat(cfg, Run(cfg, xs).builder)
    ensures Neat(cfg, Arrival(cfg, xs + [q])) && Neat(cfg, Run(cfg, xs + [q]).builder)
  {
    OneMoreInput(cfg, xs, q);
    CutoffAwaited(cfg, Run(cfg, xs).builder, CutoffOf(cfg, q));
    if q.Quote? && q.symbol < cfg.symbols {
      QuoteNeat(cfg, Arrival(cfg, xs + [q]), q.symbol, q.t, q.bid, q.ask);
    }
  }

  /** One input: what its time makes due goes out, then the quote may bring something. */
  lemma InputAwaited(cfg: Config, xs: seq<Input>, q: Input, j: nat, x: int)
    requires WellFormed(cfg) && GoodBuckets(cfg) && Neat(cfg, Run(cfg, xs).builder) && j < |cfg.subs|
    ensures x in Awaited(cfg, Run(cfg, xs + [q]).builder, j) <==>
      (x in Awaited(cfg, Run(cfg, xs).builder, j) && x > CutoffOf(cfg, q)) || Brings(cfg, xs + [q], j, x)
  {
    OneMoreInput(cfg, xs, q);
    CutoffAwaited(cfg, Run(cfg, xs).builder, CutoffOf(cfg, q));
    var st := Arrival(cfg, xs + [q]);
    assert (xs + [q])[|xs + [q]| - 1] == q;
    AfterQuote(cfg, st, q, Run(cfg, xs + [q]).builder, j, x);
  }

  lemma AfterQuote(cfg: Config, st: Builder, q: Input, r: Builder, j: nat, x: int)
    requires Neat(cfg, st) && Shaped(cfg, r) && j < |cfg.subs|
    requires r == if q.Quote? && q.symbol < cfg.symbols then AddQuote(cfg, st, q.symbol, q.t, q.bid, q.ask) else st
    ensures var brings := && q.Quote? && q.symbol == cfg.subs[j].symbol
        && OpensMinute(st, q.symbol, q.t) && BarEnd(cfg, j, q.t) == x;
      x in Awaited(cfg, r, j) <==> x in Awaited(cfg, st, j) || brings
  {
    if q.Quote? && q.symbol < cfg.symbols {
      QuoteAwaited(cfg, st, q.symbol, q.t, q.bid, q.ask, j);
    }
  }

  lemma {:induction false} RunNeat(cfg: Config, xs: seq<Input>)
    requires WellFormed(cfg) && GoodBuckets(cfg)
    ensures Neat(cfg, Run(cfg, xs).builder)
    decreases |xs|
  {
    if xs == [] {
      NeatInit(cfg);
    } else {
      RunNeat(cfg, xs[..|xs| - 1]);
      FrontAndLast(xs);
      InputNeat(cfg, xs[..|xs| - 1], xs[|xs| - 1]);
    }
  }

  /** No cutoff from place i on has reached x. */
  ghost predicate NotReached(cfg: Config, xs: seq<Input>, i: nat, x: int) {
    forall k :: i <= k < |xs| ==> CutoffOf(cfg, xs[k]) < x
  }

  ghost predicate Brought(cfg: Config, xs: seq<Input>, i: nat, j: nat, x: int)
    requires WellFormed(cfg) && j < |cfg.subs|
  {
    i < |xs| && Brings(cfg, xs[..i + 1], j, x) && NotReached(cfg, xs, i + 1, x)
  }

  /** What a subscription is going to emit after any run: what some quote has brought and no cutoff since reached. */
  lemma {:induction false} AwaitedIff(cfg: Config, xs: seq<Input>, j: nat, x: int)
    requires WellFormed(cfg) && GoodBuckets(cfg) && j < |cfg.subs|
    ensures x in Awaited(cfg, Run(cfg, xs).builder, j) <==> exists i: nat :: Brought(cfg, xs, i, j, x)
    decreases |xs|
  {
    if xs == [] {
      NeatInit(cfg);
    } else {
      var front, q := xs[..|xs| - 1], xs[|xs| - 1];
      AwaitedIff(cfg, front, j, x);
      FrontAndLast(xs);
      RunNeat(cfg, front);
      InputAwaited(cfg, front, q, j, x);
      BroughtBefore(cfg, front, q, j, x);
    }
  }

  lemma BroughtBefore(cfg: Config, xs: seq<Input>, q: Input, j: nat, x: int)
    requires WellFormed(cfg) && j < |cfg.subs|
    ensures (exists i: nat :: Brought(cfg, xs + [q], i, j, x)) <==>
      ((exists i: nat :: Brought(cfg, xs, i, j, x)) && CutoffOf(cfg, q) < x) || Brings(cfg, xs + [q], j, x)
  {
    var all := xs + [q];
    assert all[..|all|] == all;
    forall i: nat | i < |xs|
      ensures Brought(cfg, all, i, j, x) <==> Brought(cfg, xs, i, j, x) && CutoffOf(cfg, q) < x
    {
      assert all[..i + 1] == xs[..i + 1];
      LaterCutoff(cfg, xs, q, i + 1, x);
    }
    if Brings(cfg, all, j, x) {
      assert Brought(cfg, all, |xs|, j, x);
    }
  }

  lemma LaterCutoff(cfg: Config, xs: seq<Input>, q: Input, i: nat, x: int)
    requires i <= |xs|
    ensures NotReached(cfg, xs + [q], i, x) <==> NotReached(cfg, xs, i, x) && CutoffOf(cfg, q) < x
  {
    var all := xs + [q];
    assert all[|xs|] == q && forall k :: 0 <= k < |xs| ==> all[k] == xs[k];
  }

  // ---------------------------------------------------------------- exactly when a bar is late

  /** Input k makes subscription j emit a bar that had closed by an earlier cutoff. */
  ghost predicate EmitsLate(cfg: Config, xs: seq<Input>, k: nat, j: nat)
    requires WellFormed(cfg) && k < |xs|
  {
    HasUpTo(EventEnds(Step(cfg, Run(cfg, xs[..k]).builder, xs[k]).events, j), Cut(cfg, xs[..k]))
  }

  ghost predicate HasUpTo(xs: set<int>, c: int) { exists x :: x in xs && x <= c }

  /** The last input is a quote that starts a new minute in a bar of subscription j that has closed by the latest
      cutoff. */
  predicate OpensClosedBar(cfg: Config, xs: seq<Input>, j: nat)
    requires WellFormed(cfg) && xs != [] && j < |cfg.subs|
  {
    var q := xs[|xs| - 1];
    && q.Quote? && q.symbol == cfg.subs[j].symbol && OpensMinute(Arrival(cfg, xs), q.symbol, q.t)
    && BarEnd(cfg, j, q.t) <= Cut(cfg, xs)
  }

  /** Quote i starts a minute in a closed bar, and a cutoff at or past the close of that bar follows. */
  ghost predicate LateAndReached(cfg: Config, xs: seq<Input>, i: nat, k: nat, j: nat)
    requires WellFormed(cfg) && j < |cfg.subs|
  {
    i < k < |xs| && OpensClosedBar(cfg, xs[..i + 1], j) && CutoffOf(cfg, xs[k]) >= BarEnd(cfg, j, xs[i].t)
  }

  lemma StepEnds(cfg: Config, st: Builder, q: Input, j: nat)
    requires Neat(cfg, st) && GoodBuckets(cfg) && j < |cfg.subs|
    ensures EventEnds(Step(cfg, st, q).events, j) == UpTo(Awaited(cfg, st, j), CutoffOf(cfg, q))
  {
    CutoffAwaited(cfg, st, CutoffOf(cfg, q));
  }

  lemma EmitsLateIff(cfg: Config, xs: seq<Input>, k: nat, j: nat)
    requires WellFormed(cfg) && GoodBuckets(cfg) && k < |xs| && j < |cfg.subs|
    ensures EmitsLate(cfg, xs, k, j)
      <==> HasUpTo(UpTo(Awaited(cfg, Run(cfg, xs[..k]).builder, j), CutoffOf(cfg, xs[k])), Cut(cfg, xs[..k]))
  {
    RunNeat(cfg, xs[..k]);
    StepEnds(cfg, Run(cfg, xs[..k]).builder, xs[k], j);
  }

  /** A cut that has reached x had reached it before cutoffs that did not. */
  lemma {:induction false} CutBefore(cfg: Config, xs: seq<Input>, i: nat, x: int)
    requires i <= |xs| && NotReached(cfg, xs, i, x)
    ensures x <= Cut(cfg, xs) <==> x <= Cut(cfg, xs[..i])
    decreases |xs|
  {
    if i < |xs| {
      var front := xs[..|xs| - 1];
      assert front[..i] == xs[..i];
      CutBefore(cfg, front, i, x);
    } else {
      assert xs[..i] == xs;
    }
  }

  lemma {:induction false} CutRises(cfg: Config, xs: seq<Input>, i: nat)
    requires i <= |xs|
    ensures Cut(cfg, xs[..i]) <= Cut(cfg, xs)
    decreases |xs|
  {
    if i < |xs| {
      var front := xs[..|xs| - 1];
      assert front[..i] == xs[..i];
      CutRises(cfg, front, i);
    } else {
      assert xs[..i] == xs;
    }
  }

  lemma PrefixOf(xs: seq<Input>, k: nat, i: nat)
    requires i <= k <= |xs|
    ensures xs[..k][..i] == xs[..i]
  {}

  lemma BroughtClosed(cfg: Config, xs: seq<Input>, i: nat, k: nat, j: nat, x: int)
    requires WellFormed(cfg) && k < |xs| && j < |cfg.subs| && Brought(cfg, xs[..k], i, j, x)
    requires x <= CutoffOf(cfg, xs[k]) && x <= Cut(cfg, xs[..k])
    ensures LateAndReached(cfg, xs, i, k, j)
  {
    CutBefore(cfg, xs[..k], i + 1, x);
    PrefixOf(xs, k, i + 1);
    var q := xs[..i + 1];
    assert q[|q| - 1] == xs[i];
  }

  /** A late bar was brought by a quote into a closed bar. */
  lemma LateWasBrought(cfg: Config, xs: seq<Input>, k: nat, j: nat) returns (i: nat)
    requires WellFormed(cfg) && GoodBuckets(cfg) && k < |xs| && j < |cfg.subs| && EmitsLate(cfg, xs, k, j)
    ensures LateAndReached(cfg, xs, i, k, j)
  {
    EmitsLateIff(cfg, xs, k, j);
    var x :| x in UpTo(Awaited(cfg, Run(cfg, xs[..k]).builder, j), CutoffOf(cfg, xs[k])) && x <= Cut(cfg, xs[..k]);
    AwaitedIff(cfg, xs[..k], j, x);
    i :| Brought(cfg, xs[..k], i, j, x);
    BroughtClosed(cfg, xs, i, k, j, x);
  }

  lemma {:induction false} FirstReached(cfg: Config, xs: seq<Input>, i: nat, k: nat, x: int) returns (first: nat)
    requires i <= k < |xs| && CutoffOf(cfg, xs[k]) >= x
    ensures i <= first <= k && CutoffOf(cfg, xs[first]) >= x && NotReached(cfg, xs[..first], i, x)
    decreases k
  {
    if p :| i <= p < k && CutoffOf(cfg, xs[p]) >= x {
      first := FirstReached(cfg, xs, i, p, x);
    } else {
      first := k;
    }
  }

  /** What a quote has brought into a closed bar goes out late at the first cutoff that reaches it. */
  lemma BroughtIsLate(cfg: Config, xs: seq<Input>, i: nat, k: nat, j: nat) returns (first: nat)
    requires WellFormed(cfg) && GoodBuckets(cfg) && j < |cfg.subs| && LateAndReached(cfg, xs, i, k, j)
    ensures first < |xs| && EmitsLate(cfg, xs, first, j)
  {
    var x := BarEnd(cfg, j, xs[i].t);
    first := FirstReached(cfg, xs, i + 1, k, x);
    var before := xs[..first];
    PrefixOf(xs, first, i + 1);
    assert Brings(cfg, before[..i + 1], j, x);
    assert Brought(cfg, before, i, j, x);
    AwaitedIff(cfg, before, j, x);
    CutRises(cfg, before, i + 1);
    assert x in UpTo(Awaited(cfg, Run(cfg, before).builder, j), CutoffOf(cfg, xs[first]));
    EmitsLateIff(cfg, xs, first, j);
  }

  /** For any inputs: a subscription emits a bar that had closed by an earlier cutoff if and only if a quote starts a
      minute in an already closed bar and a cutoff at or past that bar's close follows. */
  lemma EmitsLateIffOpened(cfg: Config, xs: seq<Input>, j: nat)
    requires WellFormed(cfg) && GoodBuckets(cfg) && j < |cfg.subs|
    ensures (exists k: nat :: k < |xs| && EmitsLate(cfg, xs, k, j))
      <==> exists i: nat, k: nat :: LateAndReached(cfg, xs, i, k, j)
  {
    if k: nat :| k < |xs| && EmitsLate(cfg, xs, k, j) {
      var i := LateWasBrought(cfg, xs, k, j);
    }
    if i: nat, k: nat :| LateAndReached(cfg, xs, i, k, j) {
      var first := BroughtIsLate(cfg, xs, i, k, j);
    }
  }

  // ---------------------------------------------------------------- the first such quote reopens a minute

  /** As long as no quote has reopened a minute, starting a minute that has closed is reopening it. */
  lemma OpensIffReopens(cfg: Config, Ts: seq<seq<Candle>>, cut: int, st: Builder, es: seq<Event>, s: nat, t: int)
    requires Inv(cfg, Ts, cut, st, es) && s < cfg.symbols
    ensures OpensMinute(st, s, t) && !InTime(t, cut) <==> Reopens(st, s, t, cut)
  {
    assert Minutes(st, s, Ts[s], cut);
    if st.building[s].Some? {
      CutEnds(Ts[s], cut);
      var p := OpenAfter(Ts[s], cut);
      assert p[|p| - 1] == st.building[s].value && p[|p| - 1] in p;
    }
  }

  /** The last input is a quote that starts a minute which has closed by the latest cutoff. */
  predicate LastOpensClosed(cfg: Config, xs: seq<Input>)
    requires WellFormed(cfg) && xs != []
  {
    var q := xs[|xs| - 1];
    && q.Quote? && q.symbol < cfg.symbols && OpensMinute(Arrival(cfg, xs), q.symbol, q.t)
    && !InTime(q.t, Cut(cfg, xs))
  }

  lemma LastOpensIffReopens(cfg: Config, xs: seq<Input>, q: Input)
    requires WellFormed(cfg) && GoodBuckets(cfg) && NoneReopens(cfg, xs) && TimeOf(q) < NEVER
    ensures LastOpensClosed(cfg, xs + [q]) <==> LastReopens(cfg, xs + [q])
  {
    RunInv(cfg, xs);
    OneMoreInput(cfg, xs, q);
    var before, Ts := Run(cfg, xs), AllMinutes(cfg, xs);
    var r := OnCutoff(cfg, before.builder, CutoffOf(cfg, q));
    OnCutoffInv(cfg, Ts, Cut(cfg, xs), before.builder, before.events, CutoffOf(cfg, q), r, before.events + r.events);
    if q.Quote? && q.symbol < cfg.symbols {
      OpensIffReopens(cfg, Ts, Cut(cfg, xs + [q]), r.builder, before.events + r.events, q.symbol, q.t);
    }
  }

  /** No minute is reopened in a run if and only if no quote of it starts a minute that has closed. */
  lemma {:induction false} NoneOpensIffNoneReopens(cfg: Config, xs: seq<Input>)
    requires WellFormed(cfg) && GoodBuckets(cfg) && forall i :: 0 <= i < |xs| ==> TimeOf(xs[i]) < NEVER
    ensures NoneReopens(cfg, xs) <==> forall i :: 1 <= i <= |xs| ==> !LastOpensClosed(cfg, xs[..i])
    decreases |xs|
  {
    if xs != [] {
      var front, q := xs[..|xs| - 1], xs[|xs| - 1];
      NoneOpensIffNoneReopens(cfg, front);
      FrontAndLast(xs);
      Prefixes(cfg, xs);
      if NoneReopens(cfg, front) {
        LastOpensIffReopens(cfg, front, q);
      }
      NoneOpensPrefixes(cfg, xs, front);
    }
  }

  lemma NoneOpensPrefixes(cfg: Config, xs: seq<Input>, front: seq<Input>)
    requires WellFormed(cfg) && xs != [] && front == xs[..|xs| - 1]
    ensures (forall i :: 1 <= i <= |xs| ==> !LastOpensClosed(cfg, xs[..i])) <==>
      (forall i :: 1 <= i <= |front| ==> !LastOpensClosed(cfg, front[..i])) && !LastOpensClosed(cfg, xs)
  {
    assert xs[..|xs|] == xs;
    assert forall i :: 1 <= i <= |front| ==> front[..i] == xs[..i];
  }

  lemma OpensClosed(cfg: Config, xs: seq<Input>, j: nat)
    requires WellFormed(cfg) && GoodBuckets(cfg) && xs != [] && j < |cfg.subs| && OpensClosedBar(cfg, xs, j)
    ensures LastOpensClosed(cfg, xs)
  {
    var q := xs[|xs| - 1];
    if cfg.subs[j].minutes != 1 {
      MinuteFloor(q.t);
      MinuteFits(Floors(cfg, j), Width(cfg, j), Tick(q.t, q.bid, q.ask).(
        openTime := Minute(q.t), closeTime := Minute(q.t) + NS_PER_MINUTE));
    }
  }

  /** Without a reopened minute no subscription ever emits a bar late. */
  lemma NoneReopensNoneLate(cfg: Config, xs: seq<Input>, j: nat)
    requires WellFormed(cfg) && GoodBuckets(cfg) && NoneReopens(cfg, xs) && j < |cfg.subs|
    ensures forall k: nat :: k < |xs| ==> !EmitsLate(cfg, xs, k, j)
  {
    NoneOpensIffNoneReopens(cfg, xs);
    EmitsLateIffOpened(cfg, xs, j);
    forall i: nat, k: nat
      ensures !LateAndReached(cfg, xs, i, k, j)
    {
      if LateAndReached(cfg, xs, i, k, j) {
        OpensClosed(cfg, xs[..i + 1], j);
      }
    }
  }
}
