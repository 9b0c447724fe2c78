/** The live bar builder with its state updated in place, proved to do what LiveBarsModel says. */
module LiveBars {
  import opened Types
  import opened Events
  import opened Resample
  import opened LiveBarsModel
  import LiveBarsLaws

  // ---------------------------------------------------------------- what one symbol's flush does to a subscription

  /** Subscription j while minute b of symbol s goes out. */
  function MinuteCall(cfg: Config, s: nat, j: nat, agg: Option<Candle>, b: Candle): (Option<Candle>, seq<Candle>)
    requires j < |cfg.subs|
  {
    if cfg.subs[j].symbol != s then (agg, [])
    else if cfg.subs[j].minutes == 1 then (agg, [b])
    else AddToBucket(Floors(cfg, j), Width(cfg, j), agg, b)
  }

  function MinutesCall(
    cfg: Config, s: nat, j: nat, agg: Option<Candle>, due: seq<Candle>): (Option<Candle>, seq<Candle>)
    requires j < |cfg.subs|
  {
    if due == [] then (agg, [])
    else
      var (a, es) := MinutesCall(cfg, s, j, agg, due[..|due| - 1]);
      var (a', es') := MinuteCall(cfg, s, j, a, due[|due| - 1]);
      (a', es + es')
  }

  lemma {:induction false} MinutesCallIs(cfg: Config, s: nat, j: nat, agg: Option<Candle>, due: seq<Candle>)
    requires j < |cfg.subs|
    ensures MinutesCall(cfg, s, j, agg, due) ==
      if cfg.subs[j].symbol != s then (agg, [])
      else if cfg.subs[j].minutes == 1 then (agg, due)
      else AddMinutes(Floors(cfg, j), Width(cfg, j), agg, due)
  {
    if due != [] {
      var n := |due| - 1;
      MinutesCallIs(cfg, s, j, agg, due[..n]);
      assert due == due[..n] + [due[n]];
      var none: seq<Candle> := [];
      assert none + none == none;
    }
  }

  /** A bucket of symbol s that is due closes. */
  function CloseCall(cfg: Config, s: nat, j: nat, agg: Option<Candle>, cutoff: int): (Option<Candle>, seq<Candle>)
    requires j < |cfg.subs|
  {
    if cfg.subs[j].symbol == s && cfg.subs[j].minutes != 1 && IsDue(agg, cutoff) then (None, [agg.value]) else (agg, [])
  }

  /** What each subscription adds to the events, for one minute, for several, and when its bucket closes. */
  function MinuteAdds(cfg: Config, s: nat, htf: seq<Option<Candle>>, b: Candle): (r: seq<seq<Candle>>)
    requires |htf| == |cfg.subs|
    ensures |r| == |cfg.subs| && forall j: nat :: j < |cfg.subs| ==> r[j] == MinuteCall(cfg, s, j, htf[j], b).1
  {
    seq(|cfg.subs|, j requires 0 <= j < |cfg.subs| => MinuteCall(cfg, s, j, htf[j], b).1)
  }

  function MinutesAdds(cfg: Config, s: nat, htf: seq<Option<Candle>>, due: seq<Candle>): (r: seq<seq<Candle>>)
    requires |htf| == |cfg.subs|
    ensures |r| == |cfg.subs| && forall j: nat :: j < |cfg.subs| ==> r[j] == MinutesCall(cfg, s, j, htf[j], due).1
  {
    seq(|cfg.subs|, j requires 0 <= j < |cfg.subs| => MinutesCall(cfg, s, j, htf[j], due).1)
  }

  function CloseAdds(cfg: Config, s: nat, htf: seq<Option<Candle>>, cutoff: int): (r: seq<seq<Candle>>)
    requires |htf| == |cfg.subs|
    ensures |r| == |cfg.subs| && forall j: nat :: j < |cfg.subs| ==> r[j] == CloseCall(cfg, s, j, htf[j], cutoff).1
  {
    seq(|cfg.subs|, j requires 0 <= j < |cfg.subs| => CloseCall(cfg, s, j, htf[j], cutoff).1)
  }

  function SymbolAdds(cfg: Config, st: Builder, s: nat, cutoff: int): (r: seq<seq<Candle>>)
    requires WellFormed(cfg) && Shaped(cfg, st)
    ensures |r| == |cfg.subs|
    ensures forall j: nat :: j < |cfg.subs| ==>
      r[j] == if cfg.subs[j].symbol == s then SubCall(cfg, st, j, cutoff).1 else []
  {
    seq(|cfg.subs|, j requires 0 <= j < |cfg.subs| =>
      if cfg.subs[j].symbol == s then SubCall(cfg, st, j, cutoff).1 else [])
  }

  /** A flushed symbol, subscription by subscription: its minutes, then its buckets. */
  lemma SymbolCalls(cfg: Config, st: Builder, s: nat, cutoff: int, due: seq<Candle>, mid: seq<Option<Candle>>, j: nat)
    requires WellFormed(cfg) && Shaped(cfg, st) && j < |cfg.subs| == |mid| && s < cfg.symbols
    requires due == DueMinutes(st, s, cutoff) && mid[j] == MinutesCall(cfg, s, j, st.htf[j], due).0
    ensures CloseCall(cfg, s, j, mid[j], cutoff).0 ==
      if cfg.subs[j].symbol == s then SubCall(cfg, st, j, cutoff).0 else st.htf[j]
    ensures SymbolAdds(cfg, st, s, cutoff)[j] == MinutesAdds(cfg, s, st.htf, due)[j] + CloseAdds(cfg, s, mid, cutoff)[j]
  {
    MinutesCallIs(cfg, s, j, st.htf[j], due);
  }

  /** Appending some events added these bars to each series. */
  ghost predicate Grew(es: seq<Event>, es': seq<Event>, added: seq<seq<Candle>>) {
    forall j: nat :: Project(es', j) == Project(es, j) + if j < |added| then added[j] else []
  }

  lemma NoneAdded(es: seq<Event>, n: nat)
    ensures Grew(es, es, seq(n, (_: int) => []))
  {
    forall j: nat
      ensures Project(es, j) == Project(es, j) + []
    {}
  }

  lemma GrewTwice(
    es: seq<Event>, es1: seq<Event>, es2: seq<Event>, a: seq<seq<Candle>>, b: seq<seq<Candle>>, c: seq<seq<Candle>>)
    requires Grew(es, es1, a) && Grew(es1, es2, b)
    requires |a| == |b| == |c| && forall j :: 0 <= j < |a| ==> c[j] == a[j] + b[j]
    ensures Grew(es, es2, c)
  {
    forall j: nat
      ensures Project(es2, j) == Project(es, j) + if j < |c| then c[j] else []
    {
      if j < |c| {
        ConcatAssociates(Project(es, j), a[j], b[j]);
      }
    }
  }

  /** At most one bar, to subscription j. */
  ghost predicate GrewAt(es: seq<Event>, es': seq<Event>, j: nat, cs: seq<Candle>) {
    forall k: nat :: Project(es', k) == Project(es, k) + if k == j then cs else []
  }

  lemma AppendGrows(es: seq<Event>, j: nat, cs: seq<Candle>)
    requires |cs| <= 1
    ensures GrewAt(es, es + Tag(j, cs), j, cs)
  {
    forall k: nat
      ensures Project(es + Tag(j, cs), k) == Project(es, k) + if k == j then cs else []
    {
      LiveBarsLaws.TagAdds(es, j, cs, k);
      assert Project(es, k) + [] == Project(es, k);
    }
  }

  lemma GrewSnoc(es: seq<Event>, es1: seq<Event>, es2: seq<Event>, a: seq<seq<Candle>>, cs: seq<Candle>)
    requires Grew(es, es1, a) && GrewAt(es1, es2, |a|, cs)
    ensures Grew(es, es2, a + [cs])
  {
    forall j: nat
      ensures Project(es2, j) == Project(es, j) + if j < |a + [cs]| then (a + [cs])[j] else []
    {
      assert Project(es1, j) == Project(es, j) + if j < |a| then a[j] else [];
    }
  }

  // ---------------------------------------------------------------- the builder

  class LiveBarBuilder {
    const cfg: Config
    /** Minutes under construction, by symbol. */
    var building: seq<Option<Candle>>
    /** Finished minutes that are not due yet, by symbol. */
    var done: seq<seq<Candle>>
    /** Open buckets, by subscription. */
    var htf: seq<Option<Candle>>
    var emittedUntil: seq<int>
    var lateQuotes: nat
    var nextDue: int

    ghost function State(): Builder
      reads this
    {
      Builder(building, done, htf, emittedUntil, lateQuotes, nextDue)
    }

    ghost predicate Valid()
      reads this
    {
      WellFormed(cfg) && Shaped(cfg, State())
    }

    constructor (cfg: Config)
      requires WellFormed(cfg)
      ensures Valid() && this.cfg == cfg && State() == Init(cfg)
    {
      this.cfg := cfg;
      building := seq(cfg.symbols, (_: int) => None);
      done := seq(cfg.symbols, (_: int) => []);
      htf := seq(|cfg.subs|, (_: int) => None);
      emittedUntil := seq(cfg.symbols, (_: int) => 0);
      lateQuotes, nextDue := 0, NEVER;
    }

    /** Put one closed minute into its bucket of subscription j; a bucket that ended before it goes out. */
    method AddMinute(j: nat, b: Candle, events: seq<Event>) returns (out: seq<Event>)
      requires Valid() && j < |cfg.subs|
      modifies this`htf
      ensures Valid() && out == events + Tag(j, AddToBucket(Floors(cfg, j), Width(cfg, j), old(htf)[j], b).1)
      ensures htf == old(htf)[j := AddToBucket(Floors(cfg, j), Width(cfg, j), old(htf)[j], b).0]
    {
      var agg := htf[j];
      out := events;
      if agg.Some? && agg.value.openTime <= b.openTime < agg.value.closeTime {
        htf := htf[j := Some(Merge(agg.value, b))];
        return;
      }
      var start := cfg.bucket(b.openTime, cfg.subs[j].minutes);
      if agg.Some? && agg.value.openTime != start {
        out := out + [Event(j, agg.value)];
        agg := None;
      }
      if agg.None? {
        htf := htf[j := Some(b.(openTime := start, closeTime := start + cfg.subs[j].minutes * NS_PER_MINUTE))];
      } else {
        htf := htf[j := Some(Merge(agg.value, b))];
      }
    }

    /** One due minute of symbol s goes to every subscription of that symbol. */
    method EmitMinute(s: nat, b: Candle, events: seq<Event>) returns (out: seq<Event>)
      requires Valid()
      modifies this`htf
      ensures Valid()
      ensures forall j: nat :: j < |cfg.subs| ==> htf[j] == MinuteCall(cfg, s, j, old(htf)[j], b).0
      ensures Grew(events, out, MinuteAdds(cfg, s, old(htf), b))
    {
      out := events;
      ghost var added: seq<seq<Candle>> := [];
      NoneAdded(events, 0);
      assert seq(0, (_: int) => []) == added;
      for j := 0 to |cfg.subs|
        invariant Valid() && |added| == j
        invariant forall k: nat :: k < j ==> htf[k] == MinuteCall(cfg, s, k, old(htf)[k], b).0
        invariant forall k: nat :: k < j ==> added[k] == MinuteCall(cfg, s, k, old(htf)[k], b).1
        invariant forall k: nat :: j <= k < |cfg.subs| ==> htf[k] == old(htf)[k]
        invariant Grew(events, out, added)
      {
        ghost var before, cs := out, MinuteCall(cfg, s, j, old(htf)[j], b).1;
        if cfg.subs[j].symbol == s {
          if cfg.subs[j].minutes == 1 {
            out := out + [Event(j, b)];
          } else {
            out := AddMinute(j, b, out);
          }
        }
        assert out == before + Tag(j, cs);
        AppendGrows(before, j, cs);
        GrewSnoc(events, before, out, added, cs);
        added := added + [cs];
      }
      assert added == MinuteAdds(cfg, s, old(htf), b);
    }

    /** Every due minute of symbol s goes out, oldest first. */
    method EmitMinutes(s: nat, due: seq<Candle>, events: seq<Event>) returns (out: seq<Event>)
      requires Valid() && s < cfg.symbols
      modifies this`htf, this`emittedUntil
      ensures Valid() && emittedUntil == old(emittedUntil)[s := LastClose(due, old(emittedUntil)[s])]
      ensures forall j: nat :: j < |cfg.subs| ==> htf[j] == MinutesCall(cfg, s, j, old(htf)[j], due).0
      ensures Grew(events, out, MinutesAdds(cfg, s, old(htf), due))
    {
      out := events;
      ghost var n := |cfg.subs|;
      ghost var added: seq<seq<Candle>> := seq(n, (_: int) => []);
      NoneAdded(events, n);
      for i := 0 to |due|
        invariant Valid() && |added| == n
        invariant emittedUntil == old(emittedUntil)[s := LastClose(due[..i], old(emittedUntil)[s])]
        invariant forall j: nat :: j < n ==> (htf[j], added[j]) == MinutesCall(cfg, s, j, old(htf)[j], due[..i])
        invariant Grew(events, out, added)
      {
        var b := due[i];
        emittedUntil := emittedUntil[s := b.closeTime];
        ghost var before, was := out, htf;
        out := EmitMinute(s, b, out);
        ghost var one := MinuteAdds(cfg, s, was, b);
        ghost var more := seq(n, j requires 0 <= j < n => added[j] + one[j]);
        GrewTwice(events, before, out, added, one, more);
        assert due[..i + 1][..i] == due[..i] && due[..i + 1][i] == b;
        assert forall j: nat :: j < n ==> MinutesCall(cfg, s, j, old(htf)[j], due[..i]) == (was[j], added[j]);
        added := more;
      }
      assert due[..|due|] == due;
      assert added == MinutesAdds(cfg, s, old(htf), due);
    }

    /** Buckets of symbol s that are due themselves go out. */
    method CloseBuckets(s: nat, cutoff: int, events: seq<Event>) returns (out: seq<Event>)
      requires Valid()
      modifies this`htf
      ensures Valid()
      ensures forall j: nat :: j < |cfg.subs| ==> htf[j] == CloseCall(cfg, s, j, old(htf)[j], cutoff).0
      ensures Grew(events, out, CloseAdds(cfg, s, old(htf), cutoff))
    {
      out := events;
      ghost var added: seq<seq<Candle>> := [];
      NoneAdded(events, 0);
      assert seq(0, (_: int) => []) == added;
      for j := 0 to |cfg.subs|
        invariant Valid() && |added| == j
        invariant forall k: nat :: k < j ==> htf[k] == CloseCall(cfg, s, k, old(htf)[k], cutoff).0
        invariant forall k: nat :: k < j ==> added[k] == CloseCall(cfg, s, k, old(htf)[k], cutoff).1
        invariant forall k: nat :: j <= k < |cfg.subs| ==> htf[k] == old(htf)[k]
        invariant Grew(events, out, added)
      {
        ghost var before, cs := out, CloseCall(cfg, s, j, old(htf)[j], cutoff).1;
        var agg := htf[j];
        if cfg.subs[j].symbol == s && cfg.subs[j].minutes != 1 && agg.Some? && agg.value.closeTime <= cutoff {
          out := out + [Event(j, agg.value)];
          htf := htf[j := None];
        }
        assert out == before + Tag(j, cs);
        AppendGrows(before, j, cs);
        GrewSnoc(events, before, out, added, cs);
        added := added + [cs];
      }
      assert added == CloseAdds(cfg, s, old(htf), cutoff);
    }

    /** Everything of symbol s that is due goes out. */
    method FlushSymbol(s: nat, cutoff: int, events: seq<Event>) returns (out: seq<Event>)
      requires Valid() && s < cfg.symbols
      modifies this`building, this`done, this`htf, this`emittedUntil
      ensures Valid()
      ensures building == old(building)[s := Still(old(building)[s], cutoff)]
      ensures done == old(done)[s := OpenAfter(Finished(old(building)[s], old(done)[s], cutoff), cutoff)]
      ensures emittedUntil
        == old(emittedUntil)[s := LastClose(old(DueMinutes(State(), s, cutoff)), old(emittedUntil)[s])]
      ensures forall j: nat :: j < |cfg.subs| ==>
        htf[j] == if cfg.subs[j].symbol == s then old(SubCall(cfg, State(), j, cutoff).0) else old(htf)[j]
      ensures Grew(events, out, SymbolAdds(cfg, old(State()), s, cutoff))
    {
      ghost var st := State();
      var cur := building[s];
      if cur.Some? && cur.value.closeTime <= cutoff {
        done := done[s := done[s] + [cur.value]];
        building := building[s := None];
      }
      var due := ClosedBy(done[s], cutoff);
      done := done[s := OpenAfter(done[s], cutoff)];
      out := EmitMinutes(s, due, events);
      ghost var mid, between := htf, out;
      out := CloseBuckets(s, cutoff, out);
      forall j: nat | j < |cfg.subs|
        ensures htf[j] == if cfg.subs[j].symbol == s then SubCall(cfg, st, j, cutoff).0 else st.htf[j]
        ensures SymbolAdds(cfg, st, s, cutoff)[j]
          == MinutesAdds(cfg, s, st.htf, due)[j] + CloseAdds(cfg, s, mid, cutoff)[j]
      {
        SymbolCalls(cfg, st, s, cutoff, due, mid, j);
      }
      GrewTwice(events, between, out, MinutesAdds(cfg, s, st.htf, due), CloseAdds(cfg, s, mid, cutoff),
        SymbolAdds(cfg, st, s, cutoff));
    }

    /** Emit whatever is due; nothing is looked at before the next due close. */
    method OnCutoff(cutoff: int) returns (events: seq<Event>)
      requires Valid()
      modifies this
      ensures Valid()
      ensures LiveBarsModel.OnCutoff(cfg, old(State()), cutoff) == Emission(State(), events)
    {
      events := [];
      if cutoff < nextDue {
        return;
      }
      ghost var st, added := State(), [];
      events, added := FlushAll(cutoff);
      ghost var emptied := State();
      Refresh();
      assert State().(nextDue := st.nextDue) == emptied;
      AsModelled(cfg, st, State(), cutoff, events, added);
      events := Sort(events);
    }

    method FlushAll(cutoff: int) returns (events: seq<Event>, ghost added: seq<seq<Candle>>)
      requires Valid()
      modifies this`building, this`done, this`htf, this`emittedUntil
      ensures Valid() && |added| == |cfg.subs|
      ensures FlushedBelow(cfg, old(State()), State(), cutoff, cfg.symbols, added) && Grew([], events, added)
    {
      ghost var st := State();
      events, added := [], seq(|cfg.subs|, (_: int) => []);
      NoneAdded([], |cfg.subs|);
      for s := 0 to cfg.symbols
        invariant Valid() && |added| == |cfg.subs|
        invariant FlushedBelow(cfg, st, State(), cutoff, s, added) && Grew([], events, added)
      {
        ghost var here, before := State(), events;
        events := FlushSymbol(s, cutoff, events);
        OneMoreFlushed(cfg, st, here, State(), cutoff, s);
        added := OneMoreSymbol(cfg, st, here, cutoff, s, htf, before, events, added);
      }
    }

    /** Look up the earliest close of anything still pending. */
    method Refresh()
      requires Valid()
      modifies this`nextDue
      ensures nextDue == MinOf(Pending(State()))
    {
      nextDue := MinOf(Closes(building) + AllCloses(done) + Closes(htf));
    }

    /** A clock tick, or a quote: emit what is due, then add the quote. */
    method OnInput(x: Input) returns (events: seq<Event>)
      requires Valid()
      modifies this
      ensures Valid()
      ensures LiveBarsModel.Step(cfg, old(State()), x) == Emission(State(), events)
    {
      events := OnCutoff(CutoffOf(cfg, x));
      if x.Quote? && x.symbol < cfg.symbols {
        Add(x.symbol, x.t, x.bid, x.ask);
      }
    }

    method Add(s: nat, t: int, bid: real, ask: real)
      requires Valid() && s < cfg.symbols
      modifies this
      ensures Valid() && State() == AddQuote(cfg, old(State()), s, t, bid, ask)
    {
      var minute := t - t % NS_PER_MINUTE;
      if minute + NS_PER_MINUTE <= emittedUntil[s] {
        lateQuotes := lateQuotes + 1;
        return;
      }
      var cur := building[s];
      if cur.Some? && cur.value.openTime == minute {
        building := building[s := Some(Merge(cur.value, Tick(t, bid, ask)))];
      } else if cur.Some? && minute < cur.value.openTime {
        lateQuotes := lateQuotes + 1;
      } else {
        if cur.Some? {
          done := done[s := done[s] + [cur.value]];
        }
        var bar := Candle(minute, minute + NS_PER_MINUTE, bid, bid, bid, bid, ask, ask, ask, ask, 1.0);
        building := building[s := Some(bar)];
        if minute + NS_PER_MINUTE < nextDue {
          nextDue := minute + NS_PER_MINUTE;
        }
      }
    }
  }

  /** The subscriptions of the first s symbols have been called, the others not. */
  ghost predicate CallsBelow(
    cfg: Config, st: Builder, cutoff: int, s: nat, htf: seq<Option<Candle>>, added: seq<seq<Candle>>)
    requires WellFormed(cfg) && Shaped(cfg, st) && |htf| == |added| == |cfg.subs|
  {
    forall j: nat :: j < |cfg.subs| ==> CallBelow(cfg, st, cutoff, s, j, htf[j], added[j])
  }

  ghost predicate CallBelow(
    cfg: Config, st: Builder, cutoff: int, s: nat, j: nat, agg: Option<Candle>, added: seq<Candle>)
    requires WellFormed(cfg) && Shaped(cfg, st) && j < |cfg.subs|
  {
    && agg == (if cfg.subs[j].symbol < s then SubCall(cfg, st, j, cutoff).0 else st.htf[j])
    && added == (if cfg.subs[j].symbol < s then SubCall(cfg, st, j, cutoff).1 else [])
  }

  /** The first s symbols have been flushed, the others not. */
  ghost predicate FlushedBelow(cfg: Config, st: Builder, r: Builder, cutoff: int, s: nat, added: seq<seq<Candle>>)
    requires WellFormed(cfg) && Shaped(cfg, st) && Shaped(cfg, r) && |added| == |cfg.subs|
  {
    r.late == st.late && MinutesBelow(cfg, st, r, cutoff, s) && CallsBelow(cfg, st, cutoff, s, r.htf, added)
  }

  ghost predicate MinutesBelow(cfg: Config, st: Builder, r: Builder, cutoff: int, s: nat)
    requires WellFormed(cfg) && Shaped(cfg, st) && Shaped(cfg, r)
  {
    && (forall k: nat :: s <= k < cfg.symbols ==>
          r.building[k] == st.building[k] && r.done[k] == st.done[k] && r.emittedUntil[k] == st.emittedUntil[k])
    && (forall k: nat :: k < s && k < cfg.symbols ==> FlushedAt(cfg, st, r, cutoff, k))
  }

  ghost predicate FlushedAt(cfg: Config, st: Builder, r: Builder, cutoff: int, k: nat)
    requires WellFormed(cfg) && Shaped(cfg, st) && Shaped(cfg, r) && k < cfg.symbols
  {
    && r.building[k] == Still(st.building[k], cutoff)
    && r.done[k] == OpenAfter(Finished(st.building[k], st.done[k], cutoff), cutoff)
    && r.emittedUntil[k] == LastClose(DueMinutes(st, k, cutoff), st.emittedUntil[k])
  }

  lemma OneMoreFlushed(cfg: Config, st: Builder, here: Builder, r: Builder, cutoff: int, s: nat)
    requires WellFormed(cfg) && Shaped(cfg, st) && Shaped(cfg, here) && Shaped(cfg, r) && s < cfg.symbols
    requires MinutesBelow(cfg, st, here, cutoff, s)
    requires r.building == here.building[s := Still(here.building[s], cutoff)]
    requires r.done == here.done[s := OpenAfter(Finished(here.building[s], here.done[s], cutoff), cutoff)]
    requires r.emittedUntil == here.emittedUntil[s := LastClose(DueMinutes(here, s, cutoff), here.emittedUntil[s])]
    ensures MinutesBelow(cfg, st, r, cutoff, s + 1)
  {
    forall k: nat | k < s + 1
      ensures FlushedAt(cfg, st, r, cutoff, k)
    {
      assert k < s ==> FlushedAt(cfg, st, here, cutoff, k);
    }
  }

  lemma OneMoreSymbol(
    cfg: Config, st: Builder, here: Builder, cutoff: int, s: nat, htf: seq<Option<Candle>>,
    before: seq<Event>, events: seq<Event>, added: seq<seq<Candle>>) returns (more: seq<seq<Candle>>)
    requires WellFormed(cfg) && Shaped(cfg, st) && Shaped(cfg, here) && |htf| == |added| == |cfg.subs|
    requires s < cfg.symbols
    requires here.building[s] == st.building[s] && here.done[s] == st.done[s]
    requires CallsBelow(cfg, st, cutoff, s, here.htf, added)
    requires forall j: nat :: j < |cfg.subs| ==>
      htf[j] == if cfg.subs[j].symbol == s then SubCall(cfg, here, j, cutoff).0 else here.htf[j]
    requires Grew([], before, added) && Grew(before, events, SymbolAdds(cfg, here, s, cutoff))
    ensures |more| == |cfg.subs| && CallsBelow(cfg, st, cutoff, s + 1, htf, more) && Grew([], events, more)
  {
    var one := SymbolAdds(cfg, here, s, cutoff);
    more := seq(|cfg.subs|, j requires 0 <= j < |cfg.subs| => added[j] + one[j]);
    GrewTwice([], before, events, added, one, more);
    forall j: nat | j < |cfg.subs|
      ensures CallBelow(cfg, st, cutoff, s + 1, j, htf[j], more[j])
    {
      assert more[j] == added[j] + one[j];
      assert CallBelow(cfg, st, cutoff, s, j, here.htf[j], added[j]);
      NextSymbol(cfg, st, here, cutoff, s, j, htf[j], added[j], one[j]);
    }
  }

  lemma NextSymbol(
    cfg: Config, st: Builder, here: Builder, cutoff: int, s: nat, j: nat, agg: Option<Candle>, a: seq<Candle>,
    b: seq<Candle>)
    requires WellFormed(cfg) && Shaped(cfg, st) && Shaped(cfg, here) && s < cfg.symbols && j < |cfg.subs|
    requires here.building[s] == st.building[s] && here.done[s] == st.done[s]
    requires CallBelow(cfg, st, cutoff, s, j, here.htf[j], a)
    requires agg == if cfg.subs[j].symbol == s then SubCall(cfg, here, j, cutoff).0 else here.htf[j]
    requires b == if cfg.subs[j].symbol == s then SubCall(cfg, here, j, cutoff).1 else []
    ensures CallBelow(cfg, st, cutoff, s + 1, j, agg, a + b)
  {
    if cfg.subs[j].symbol == s {
      assert SubCall(cfg, here, j, cutoff) == SubCall(cfg, st, j, cutoff);
    }
  }

  /** Flushing symbol by symbol is flushing everything. */
  lemma AsModelled(cfg: Config, st: Builder, r: Builder, cutoff: int, events: seq<Event>, added: seq<seq<Candle>>)
    requires WellFormed(cfg) && Shaped(cfg, st) && Shaped(cfg, r) && |added| == |cfg.subs|
    requires FlushedBelow(cfg, st, r.(nextDue := st.nextDue), cutoff, cfg.symbols, added)
    requires r.nextDue == MinOf(Pending(r))
    requires Grew([], events, added)
    ensures Slow(cfg, st, cutoff) == Emission(r, Sort(events))
  {
    forall j: nat | j < |cfg.subs|
      ensures r.htf[j] == SubCall(cfg, st, j, cutoff).0 && added[j] == SubCall(cfg, st, j, cutoff).1
    {
      assert CallBelow(cfg, st, cutoff, cfg.symbols, j, r.htf[j], added[j]);
    }
    AsEmptied(cfg, st, r.(nextDue := st.nextDue), cutoff);
    assert Pending(r) == Pending(r.(nextDue := st.nextDue));
    assert added == Outs(cfg, st, cutoff);
    AllAdded(events, added);
  }

  lemma AsEmptied(cfg: Config, st: Builder, r: Builder, cutoff: int)
    requires WellFormed(cfg) && Shaped(cfg, st) && Shaped(cfg, r) && r.late == st.late && r.nextDue == st.nextDue
    requires forall k: nat :: k < cfg.symbols ==> FlushedAt(cfg, st, r, cutoff, k)
    requires forall j: nat :: j < |cfg.subs| ==> r.htf[j] == SubCall(cfg, st, j, cutoff).0
    ensures Emptied(cfg, st, cutoff) == r
  {
    var f := Emptied(cfg, st, cutoff);
    forall k: nat | k < cfg.symbols
      ensures f.building[k] == r.building[k] && f.done[k] == r.done[k] && f.emittedUntil[k] == r.emittedUntil[k]
    {
      assert FlushedAt(cfg, st, r, cutoff, k);
    }
    assert r.building == f.building;
    assert r.done == f.done;
    assert r.emittedUntil == f.emittedUntil;
    assert r.htf == f.htf;
  }

  lemma AllAdded(events: seq<Event>, added: seq<seq<Candle>>)
    requires Grew([], events, added)
    ensures Sort(TagAll(added)) == Sort(events)
  {
    forall j: nat
      ensures Project(events, j) == Project(TagAll(added), j)
    {
      LiveBarsLaws.TagAllProjects(added, j);
      LiveBarsLaws.NothingBefore(Project([], j), if j < |added| then added[j] else []);
    }
    SortBySeries(events, TagAll(added));
  }
}
