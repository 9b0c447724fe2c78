/** The live bar builder emits what the historical aggregation would: as long as no quote reopens a minute that is
    already due, every series equals the resampled quotes cut at the latest cutoff. */
module LiveBarsLaws {
  import opened Types
  import opened Events
  import opened Resample
  import opened LiveBarsModel

  // ---------------------------------------------------------------- lists of bars in time order

  lemma {:induction false} CutAll(cs: seq<Candle>, c: int)
    ensures (forall x :: x in cs ==> x.closeTime <= c) ==> ClosedBy(cs, c) == cs && OpenAfter(cs, c) == []
    ensures (forall x :: x in cs ==> x.closeTime > c) ==> ClosedBy(cs, c) == [] && OpenAfter(cs, c) == cs
  {
    if cs != [] {
      var n := |cs| - 1;
      CutAll(cs[..n], c);
      assert cs == cs[..n] + [cs[n]];
      assert cs[n] in cs;
    }
  }

  lemma {:induction false} CutJoin(a: seq<Candle>, b: seq<Candle>, c: int)
    ensures ClosedBy(a + b, c) == ClosedBy(a, c) + ClosedBy(b, c)
    ensures OpenAfter(a + b, c) == OpenAfter(a, c) + OpenAfter(b, c)
  {
    if b == [] {
      assert a + b == a;
    } else {
      var n := |b| - 1;
      JoinFront(a, b);
      CutJoin(a, b[..n], c);
      ConcatAssociates(ClosedBy(a, c), ClosedBy(b[..n], c), if b[n].closeTime <= c then [b[n]] else []);
      ConcatAssociates(OpenAfter(a, c), OpenAfter(b[..n], c), if b[n].closeTime > c then [b[n]] else []);
    }
  }

  lemma JoinFront(a: seq<Candle>, b: seq<Candle>)
    requires b != []
    ensures (a + b)[..|a + b| - 1] == a + b[..|b| - 1] && (a + b)[|a + b| - 1] == b[|b| - 1]
  {}

  lemma LastIsLatest(cs: seq<Candle>, c: int)
    requires Rising(cs) && cs != [] && cs[|cs| - 1].closeTime <= c
    ensures forall x :: x in cs ==> x.closeTime <= c
  {
    forall x | x in cs
      ensures x.closeTime <= c
    {
      var i :| 0 <= i < |cs| && cs[i] == x;
      assert i < |cs| - 1 ==> cs[i].closeTime < cs[|cs| - 1].closeTime;
    }
  }

  /** Cutting a rising list splits it in two. */
  lemma {:induction false} CutSplits(cs: seq<Candle>, c: int)
    requires Rising(cs)
    ensures ClosedBy(cs, c) + OpenAfter(cs, c) == cs
  {
    if cs != [] {
      var front, x := cs[..|cs| - 1], cs[|cs| - 1];
      if x.closeTime <= c {
        AllClosed(cs, c);
      } else {
        assert Rising(front);
        CutSplits(front, c);
        SnocSplits(front, x, c);
        assert cs == front + [x];
      }
    }
  }

  lemma AllClosed(cs: seq<Candle>, c: int)
    requires Rising(cs) && cs != [] && cs[|cs| - 1].closeTime <= c
    ensures ClosedBy(cs, c) + OpenAfter(cs, c) == cs
  {
    LastIsLatest(cs, c);
    CutAll(cs, c);
    assert OpenAfter(cs, c) == [] && ClosedBy(cs, c) == cs;
    NothingAfter(cs, OpenAfter(cs, c));
  }

  lemma NothingAfter(a: seq<Candle>, b: seq<Candle>)
    requires b == []
    ensures a + b == a
  {}

  lemma SnocSplits(front: seq<Candle>, x: Candle, c: int)
    requires ClosedBy(front, c) + OpenAfter(front, c) == front && x.closeTime > c
    ensures ClosedBy(front + [x], c) + OpenAfter(front + [x], c) == front + [x]
  {
    assert (front + [x])[..|front|] == front;
    var a, b := ClosedBy(front, c), OpenAfter(front, c);
    assert ClosedBy(front + [x], c) == a;
    assert OpenAfter(front + [x], c) == b + [x];
    ConcatAssociates(a, b, [x]);
  }

  /** Cutting again later only moves the cut. */
  lemma CutLater(cs: seq<Candle>, c: int, d: int)
    requires Rising(cs) && c <= d
    ensures ClosedBy(cs, d) == ClosedBy(cs, c) + ClosedBy(OpenAfter(cs, c), d)
    ensures OpenAfter(cs, d) == OpenAfter(OpenAfter(cs, c), d)
  {
    CutSplits(cs, c);
    CutJoin(ClosedBy(cs, c), OpenAfter(cs, c), d);
    CutAll(ClosedBy(cs, c), d);
  }

  lemma RisingParts(a: seq<Candle>, b: seq<Candle>)
    requires Rising(a + b)
    ensures Rising(a) && Rising(b)
    ensures forall i, k :: 0 <= i < |a| && 0 <= k < |b| ==> a[i].closeTime < b[k].closeTime
  {
    assert forall i :: 0 <= i < |a| ==> (a + b)[i] == a[i];
    assert forall i :: 0 <= i < |b| ==> (a + b)[|a| + i] == b[i];
  }

  lemma SpacedRises(width: int, bars: seq<Candle>)
    requires width > 0 && Spaced(width, bars)
    ensures Rising(bars)
  {
    forall i, k | 0 <= i < k < |bars|
      ensures bars[i].closeTime < bars[k].closeTime
    {
      assert bars[i].closeTime <= bars[k].openTime;
    }
  }

  // ---------------------------------------------------------------- one symbol

  /** The minutes T built so far against what the builder holds: those past the cut are pending. */
  ghost predicate Minutes(st: Builder, s: nat, T: seq<Candle>, cut: int)
    requires s < |st.building| == |st.done| == |st.emittedUntil|
  {
    Held(st.building[s], st.done[s], st.emittedUntil[s], T, cut)
  }

  ghost predicate Held(building: Option<Candle>, done: seq<Candle>, until: int, T: seq<Candle>, cut: int) {
    && MinuteBars(T)
    && done + Opt(building) == OpenAfter(T, cut)
    && (building.None? ==> done == [])
    && until == LastClose(ClosedBy(T, cut), 0)
  }

  /** Minutes in time order, on whole minutes. */
  ghost predicate MinuteBars(bs: seq<Candle>) {
    && Spaced(NS_PER_MINUTE, bs)
    && forall i :: 0 <= i < |bs| ==> bs[i].openTime % NS_PER_MINUTE == 0
  }

  /** What falls due at a cutoff is what the cut moves over. */
  lemma DueIsCut(building: Option<Candle>, done: seq<Candle>, cutoff: int)
    requires Rising(done + Opt(building)) && (building.None? ==> done == [])
    ensures ClosedBy(Finished(building, done, cutoff), cutoff) == ClosedBy(done + Opt(building), cutoff)
    ensures OpenAfter(Finished(building, done, cutoff), cutoff) + Opt(Still(building, cutoff))
      == OpenAfter(done + Opt(building), cutoff)
    ensures Still(building, cutoff).None? ==> OpenAfter(Finished(building, done, cutoff), cutoff) == []
  {
    var p := done + Opt(building);
    if IsDue(building, cutoff) {
      assert p[|done|] == building.value;
      forall x | x in p
        ensures x.closeTime <= cutoff
      {
        var i :| 0 <= i < |p| && p[i] == x;
        assert i < |done| ==> p[i].closeTime < p[|done|].closeTime;
      }
      CutAll(p, cutoff);
    } else {
      CutJoin(done, Opt(building), cutoff);
      CutAll(Opt(building), cutoff);
      if building.None? {
        assert done == [];
      }
    }
  }

  lemma FlushMinutes(cfg: Config, st: Builder, s: nat, T: seq<Candle>, cut: int, cutoff: int)
    requires WellFormed(cfg) && Shaped(cfg, st) && s < cfg.symbols && Minutes(st, s, T, cut) && cut <= cutoff
    ensures Minutes(Flushed(cfg, st, cutoff), s, T, cutoff)
    ensures ClosedBy(T, cut) + DueMinutes(st, s, cutoff) == ClosedBy(T, cutoff)
    ensures DueMinutes(st, s, cutoff) == ClosedBy(OpenAfter(T, cut), cutoff)
  {
    SpacedRises(NS_PER_MINUTE, T);
    CutSplits(T, cut);
    RisingParts(ClosedBy(T, cut), OpenAfter(T, cut));
    DueIsCut(st.building[s], st.done[s], cutoff);
    CutLater(T, cut, cutoff);
    LastCloseJoin(ClosedBy(T, cut), DueMinutes(st, s, cutoff));
  }

  lemma LastCloseJoin(a: seq<Candle>, b: seq<Candle>)
    ensures LastClose(a + b, 0) == LastClose(b, LastClose(a, 0))
  {}

  // ---------------------------------------------------------------- one higher timeframe

  /** Bucket alignment that also respects whole minutes. */
  ghost predicate GoodFloor(f: Floor, width: int) {
    && Aligned(f, width)
    && width % NS_PER_MINUTE == 0
    && forall t :: t % NS_PER_MINUTE == 0 ==> f(t) % NS_PER_MINUTE == 0
  }

  lemma MinuteBarsPrefix(bs: seq<Candle>, n: nat)
    requires MinuteBars(bs) && n <= |bs|
    ensures MinuteBars(bs[..n]) && Increasing(bs[..n])
  {
    forall i, j | 0 <= i < j < n
      ensures bs[i].openTime <= bs[j].openTime
    {
      assert bs[i].closeTime <= bs[j].openTime;
    }
  }

  ghost predicate Whole(bars: seq<Candle>) {
    forall i :: 0 <= i < |bars| ==> bars[i].openTime % NS_PER_MINUTE == 0 && bars[i].closeTime % NS_PER_MINUTE == 0
  }

  /** Buckets start and end on whole minutes, so a minute that starts inside one also ends inside it. */
  lemma {:induction false} BucketsWhole(f: Floor, width: int, bs: seq<Candle>)
    requires GoodFloor(f, width) && MinuteBars(bs)
    ensures Whole(Streamed(f, width, bs))
  {
    if bs != [] {
      var m := |bs| - 1;
      MinuteBarsPrefix(bs, m);
      BucketsWhole(f, width, bs[..m]);
      var x := f(bs[m].openTime);
      assert x % NS_PER_MINUTE == 0;
      WholeSum(x, width);
      var before := Streamed(f, width, bs[..m]);
      assert Whole(before);
    }
  }

  lemma WholeSum(a: int, b: int)
    requires a % NS_PER_MINUTE == 0 && b % NS_PER_MINUTE == 0
    ensures (a + b) % NS_PER_MINUTE == 0
  {}

  lemma MinuteFits(f: Floor, width: int, b: Candle)
    requires GoodFloor(f, width) && b.openTime % NS_PER_MINUTE == 0 && b.closeTime == b.openTime + NS_PER_MINUTE
    ensures b.closeTime <= f(b.openTime) + width
  {
    var x := f(b.openTime);
    assert x % NS_PER_MINUTE == 0 && x <= b.openTime < x + width;
  }

  /** The emitted buckets X and the open one are the buckets of the minutes so far. */
  ghost predicate Holds(f: Floor, width: int, X: seq<Candle>, agg: Option<Candle>, bs: seq<Candle>) {
    X + Opt(agg) == Streamed(f, width, bs)
  }

  /** One more minute: the emitted bucket closes no later than the minute starts. */
  lemma AddMinuteHolds(f: Floor, width: int, X: seq<Candle>, agg: Option<Candle>, bs: seq<Candle>, b: Candle)
    requires GoodFloor(f, width) && MinuteBars(bs + [b]) && Holds(f, width, X, agg, bs)
    requires agg.None? ==> forall i :: 0 <= i < |X| ==> X[i].closeTime <= b.openTime
    ensures var (a, es) := AddToBucket(f, width, agg, b);
      && a.Some? && Holds(f, width, X + es, a, bs + [b])
      && (forall e :: e in es ==> agg.Some? && e == agg.value && e.closeTime <= b.openTime)
      && a.value.closeTime >= b.closeTime
  {
    var n := |bs|;
    assert (bs + [b])[..n] == bs && (bs + [b])[n] == b;
    MinuteBarsPrefix(bs + [b], n);
    MinuteFits(f, width, b);
    assert f(b.openTime) <= b.openTime < f(b.openTime) + width;
    if agg.Some? {
      MinuteBarsPrefix(bs + [b], n + 1);
      JoinsOrOpens(f, width, X, agg.value, bs, b);
    } else {
      Opens(f, width, X, bs, b);
    }
  }

  /** No bucket is open: the minute opens one. */
  lemma Opens(f: Floor, width: int, X: seq<Candle>, bs: seq<Candle>, b: Candle)
    requires GoodFloor(f, width) && X == Streamed(f, width, bs) && MinuteBars(bs) && Increasing(bs)
    requires forall i :: 0 <= i < |X| ==> X[i].closeTime <= b.openTime
    ensures Streamed(f, width, bs + [b]) == X + [Begin(f, width, b)]
  {
    assert (bs + [b])[..|bs|] == bs;
    StreamedShape(f, width, bs);
    assert f(b.openTime) <= b.openTime < f(b.openTime) + width;
    if X != [] {
      assert X[|X| - 1].closeTime <= b.openTime;
    }
  }

  /** The minute joins the open bucket, or that bucket goes out and the minute opens the next. */
  lemma JoinsOrOpens(f: Floor, width: int, X: seq<Candle>, agg: Candle, bs: seq<Candle>, b: Candle)
    requires GoodFloor(f, width) && X + [agg] == Streamed(f, width, bs) && MinuteBars(bs) && Increasing(bs)
    requires bs != [] ==> bs[|bs| - 1].openTime <= b.openTime
    ensures agg.closeTime == agg.openTime + width
    ensures agg.openTime == f(b.openTime) <==> agg.openTime <= b.openTime < agg.closeTime
    ensures agg.openTime == f(b.openTime) ==> Streamed(f, width, bs + [b]) == X + [Merge(agg, b)]
    ensures agg.openTime != f(b.openTime) ==>
      Streamed(f, width, bs + [b]) == X + [agg] + [Begin(f, width, b)] && agg.closeTime <= b.openTime
  {
    assert (bs + [b])[..|bs|] == bs;
    var r := Streamed(f, width, bs);
    StreamedShape(f, width, bs);
    assert r[..|r| - 1] == X && r[|r| - 1] == agg;
    if bs != [] {
      FloorMonotone(f, width, bs[|bs| - 1].openTime, b.openTime);
    }
  }

  lemma WholeBefore(x: int, y: int)
    requires x % NS_PER_MINUTE == 0 && y % NS_PER_MINUTE == 0 && x < y + NS_PER_MINUTE
    ensures x <= y
  {}

  ghost predicate Within(cs: seq<Candle>, cut: int, cutoff: int) { forall c :: c in cs ==> cut < c.closeTime <= cutoff }

  /** All the minutes that are due, in order. */
  lemma {:induction false} AddDueHolds(
    f: Floor, width: int, X: seq<Candle>, agg: Option<Candle>, bs: seq<Candle>, due: seq<Candle>, cut: int, cutoff: int)
    requires GoodFloor(f, width) && MinuteBars(bs + due) && Holds(f, width, X, agg, bs)
    requires (forall c :: c in X ==> c.closeTime <= cut) && (agg.Some? ==> agg.value.closeTime > cut)
    requires Within(due, cut, cutoff)
    ensures var (a, es) := AddMinutes(f, width, agg, due);
      && Holds(f, width, X + es, a, bs + due) && Within(es, cut, cutoff)
      && (a.Some? ==> a.value.closeTime > cut) && (due != [] ==> a.Some?)
    decreases |due|
  {
    if due == [] {
      assert bs + due == bs && X + [] == X;
    } else {
      var m := |due| - 1;
      var front, b := due[..m], due[m];
      DuePrefix(bs, due);
      AddDueHolds(f, width, X, agg, bs, front, cut, cutoff);
      var (a, es) := AddMinutes(f, width, agg, front);
      AddLast(f, width, X + es, a, bs + front, b, cut, cutoff);
      ConcatAssociates(X, es, AddToBucket(f, width, a, b).1);
    }
  }

  lemma DuePrefix(bs: seq<Candle>, due: seq<Candle>)
    requires MinuteBars(bs + due) && due != []
    ensures var front, b := due[..|due| - 1], due[|due| - 1];
      && bs + due == bs + front + [b] && MinuteBars(bs + front) && b in due
      && b.openTime % NS_PER_MINUTE == 0 && b.closeTime == b.openTime + NS_PER_MINUTE
  {
    var n := |bs + due| - 1;
    MinuteBarsPrefix(bs + due, n);
    assert (bs + due)[..n] == bs + due[..|due| - 1];
    assert (bs + due)[n] == due[|due| - 1];
  }

  lemma AddLast(
    f: Floor, width: int, X: seq<Candle>, agg: Option<Candle>, bs: seq<Candle>, b: Candle, cut: int, cutoff: int)
    requires GoodFloor(f, width) && MinuteBars(bs + [b]) && MinuteBars(bs) && Holds(f, width, X, agg, bs)
    requires agg.None? ==> forall c :: c in X ==> c.closeTime <= cut
    requires agg.Some? ==> agg.value.closeTime > cut
    requires cut < b.closeTime <= cutoff && b.openTime % NS_PER_MINUTE == 0 && b.closeTime == b.openTime + NS_PER_MINUTE
    ensures var (a, es) := AddToBucket(f, width, agg, b);
      Holds(f, width, X + es, a, bs + [b]) && Within(es, cut, cutoff) && a.Some? && a.value.closeTime > cut
  {
    if agg.None? {
      EarlierBuckets(f, width, X, bs, b, cut);
    }
    AddMinuteHolds(f, width, X, agg, bs, b);
  }

  /** Buckets already emitted end before the next minute starts. */
  lemma EarlierBuckets(f: Floor, width: int, X: seq<Candle>, bs: seq<Candle>, b: Candle, cut: int)
    requires GoodFloor(f, width) && MinuteBars(bs) && Holds(f, width, X, None, bs)
    requires (forall c :: c in X ==> c.closeTime <= cut)
    requires b.openTime % NS_PER_MINUTE == 0 && cut < b.openTime + NS_PER_MINUTE
    ensures forall i :: 0 <= i < |X| ==> X[i].closeTime <= b.openTime
  {
    BucketsWhole(f, width, bs);
    assert X + [] == X;
    forall i | 0 <= i < |X|
      ensures X[i].closeTime <= b.openTime
    {
      assert X[i] in X;
      WholeBefore(X[i].closeTime, b.openTime);
    }
  }

  /** A whole call of one higher timeframe. */
  lemma BucketCallHolds(
    f: Floor, width: int, X: seq<Candle>, agg: Option<Candle>, bs: seq<Candle>, due: seq<Candle>, cut: int, cutoff: int)
    requires GoodFloor(f, width) && MinuteBars(bs + due) && Holds(f, width, X, agg, bs) && cut <= cutoff
    requires (forall c :: c in X ==> c.closeTime <= cut) && (agg.Some? ==> agg.value.closeTime > cut)
    requires Within(due, cut, cutoff)
    ensures var (a, es) := BucketCall(f, width, agg, due, cutoff);
      && Holds(f, width, X + es, a, bs + due) && Within(es, cut, cutoff) && (a.Some? ==> a.value.closeTime > cutoff)
  {
    AddDueHolds(f, width, X, agg, bs, due, cut, cutoff);
    var (a, es) := AddMinutes(f, width, agg, due);
    if IsDue(a, cutoff) {
      ConcatAssociates(X, es, [a.value]);
      assert X + (es + [a.value]) + [] == X + es + [a.value];
    } else {
      assert es + [] == es;
    }
  }

  /** One subscription: what it has emitted, and its open bucket, against the minutes up to the cut. */
  ghost predicate SubHolds(cfg: Config, st: Builder, j: nat, T: seq<Candle>, cut: int, E: seq<Candle>)
    requires j < |cfg.subs| == |st.htf|
  {
    && (forall c :: c in E ==> c.closeTime <= cut)
    && (cfg.subs[j].minutes == 1 ==> E == ClosedBy(T, cut) && st.htf[j].None?)
    && (cfg.subs[j].minutes != 1 ==> Holds(Floors(cfg, j), Width(cfg, j), E, st.htf[j], ClosedBy(T, cut)))
    && (st.htf[j].Some? ==> st.htf[j].value.closeTime > cut)
  }

  ghost predicate GoodBuckets(cfg: Config) {
    forall j: nat :: j < |cfg.subs| ==> GoodFloor(Floors(cfg, j), Width(cfg, j))
  }

  lemma ClosedMinutes(T: seq<Candle>, cut: int)
    requires MinuteBars(T)
    ensures MinuteBars(ClosedBy(T, cut)) && Rising(T)
  {
    SpacedRises(NS_PER_MINUTE, T);
    CutSplits(T, cut);
    MinuteBarsPrefix(T, |ClosedBy(T, cut)|);
    assert ClosedBy(T, cut) == T[..|ClosedBy(T, cut)|];
  }

  lemma FlushSub(cfg: Config, st: Builder, j: nat, T: seq<Candle>, cut: int, cutoff: int, E: seq<Candle>)
    requires WellFormed(cfg) && Shaped(cfg, st) && GoodBuckets(cfg) && j < |cfg.subs| && cut <= cutoff
    requires Minutes(st, cfg.subs[j].symbol, T, cut) && SubHolds(cfg, st, j, T, cut, E)
    ensures SubHolds(cfg, Flushed(cfg, st, cutoff), j, T, cutoff, E + SubCall(cfg, st, j, cutoff).1)
    ensures Within(SubCall(cfg, st, j, cutoff).1, cut, cutoff)
  {
    var s := cfg.subs[j].symbol;
    FlushMinutes(cfg, st, s, T, cut, cutoff);
    var due := DueMinutes(st, s, cutoff);
    OpenThenClosed(OpenAfter(T, cut), cut, cutoff);
    ClosedMinutes(T, cutoff);
    if cfg.subs[j].minutes != 1 {
      BucketCallHolds(Floors(cfg, j), Width(cfg, j), E, st.htf[j], ClosedBy(T, cut), due, cut, cutoff);
    }
  }

  lemma {:induction false} OpenThenClosed(cs: seq<Candle>, cut: int, cutoff: int)
    requires forall c :: c in cs ==> c.closeTime > cut
    ensures Within(ClosedBy(cs, cutoff), cut, cutoff)
  {
    if cs != [] {
      OpenThenClosed(cs[..|cs| - 1], cut, cutoff);
    }
  }

  /** What a subscription has emitted is rising, now and after the next call. */
  lemma SubRises(cfg: Config, st: Builder, j: nat, T: seq<Candle>, cut: int, E: seq<Candle>)
    requires GoodBuckets(cfg) && j < |cfg.subs| == |st.htf| && MinuteBars(T) && SubHolds(cfg, st, j, T, cut, E)
    ensures Rising(E)
  {
    ClosedMinutes(T, cut);
    CutSplits(T, cut);
    RisingParts(ClosedBy(T, cut), OpenAfter(T, cut));
    if cfg.subs[j].minutes != 1 {
      var bs := ClosedBy(T, cut);
      MinuteBarsPrefix(bs, |bs|);
      assert bs[..|bs|] == bs;
      StreamedShape(Floors(cfg, j), Width(cfg, j), bs);
      SpacedRises(Width(cfg, j), Streamed(Floors(cfg, j), Width(cfg, j), bs));
      RisingParts(E, Opt(st.htf[j]));
    }
  }

  // ---------------------------------------------------------------- what is pending

  lemma {:induction false} ClosesHas(cs: seq<Option<Candle>>, x: int)
    ensures x in Closes(cs) <==> exists i :: 0 <= i < |cs| && cs[i].Some? && cs[i].value.closeTime == x
  {
    if cs != [] {
      var n := |cs| - 1;
      ClosesHas(cs[..n], x);
      if i :| 0 <= i < |cs| && cs[i].Some? && cs[i].value.closeTime == x {
        assert i < n ==> cs[..n][i] == cs[i];
      }
    }
  }

  lemma {:induction false} AllClosesHas(css: seq<seq<Candle>>, x: int)
    ensures x in AllCloses(css) <==> exists k, i :: 0 <= k < |css| && 0 <= i < |css[k]| && css[k][i].closeTime == x
  {
    if css != [] {
      var n := |css| - 1;
      AllClosesHas(css[..n], x);
      if k, i :| 0 <= k < |css| && 0 <= i < |css[k]| && css[k][i].closeTime == x {
        if k == n {
          assert CloseTimes(css[n])[i] == x;
        } else {
          assert css[..n][k] == css[k];
        }
      }
      if x in CloseTimes(css[n]) {
        var i :| 0 <= i < |css[n]| && CloseTimes(css[n])[i] == x;
        assert css[n][i].closeTime == x;
      }
    }
  }

  /** `nextDue` is the earliest close of anything pending. */
  ghost predicate Earliest(st: Builder) {
    && (forall x :: x in Pending(st) ==> st.nextDue <= x)
    && (st.nextDue in Pending(st) || st.nextDue == NEVER)
  }

  lemma PendingParts(st: Builder, x: int)
    requires |st.building| == |st.done|
    ensures x in Pending(st) <==>
      || (exists s :: 0 <= s < |st.building| && st.building[s].Some? && st.building[s].value.closeTime == x)
      || (exists k, i :: 0 <= k < |st.done| && 0 <= i < |st.done[k]| && st.done[k][i].closeTime == x)
      || (exists j :: 0 <= j < |st.htf| && st.htf[j].Some? && st.htf[j].value.closeTime == x)
  {
    ClosesHas(st.building, x);
    AllClosesHas(st.done, x);
    ClosesHas(st.htf, x);
  }

  /** The shortcut hides nothing: when nothing pending is due, the long way emits nothing and leaves the
      builder as it is. */
  lemma FastPath(cfg: Config, st: Builder, cutoff: int)
    requires WellFormed(cfg) && Shaped(cfg, st) && Earliest(st) && cutoff < st.nextDue
    ensures Slow(cfg, st, cutoff) == Emission(st.(nextDue := MinOf(Pending(st))), [])
  {
    forall s | 0 <= s < cfg.symbols
      ensures Still(st.building[s], cutoff) == st.building[s]
      ensures OpenAfter(Finished(st.building[s], st.done[s], cutoff), cutoff) == st.done[s]
      ensures DueMinutes(st, s, cutoff) == []
    {
      if st.building[s].Some? {
        PendingParts(st, st.building[s].value.closeTime);
      }
      forall c | c in st.done[s]
        ensures c.closeTime > cutoff
      {
        var i :| 0 <= i < |st.done[s]| && st.done[s][i] == c;
        PendingParts(st, c.closeTime);
      }
      CutAll(st.done[s], cutoff);
    }
    forall j | 0 <= j < |cfg.subs|
      ensures SubCall(cfg, st, j, cutoff) == (st.htf[j], [])
    {
      if st.htf[j].Some? {
        PendingParts(st, st.htf[j].value.closeTime);
      }
      assert DueMinutes(st, cfg.subs[j].symbol, cutoff) == [];
      NoMinutes(Floors(cfg, j), Width(cfg, j), st.htf[j], cutoff);
    }
    NothingEmitted(Outs(cfg, st, cutoff));
    var r := Flushed(cfg, st, cutoff);
    assert r.building == st.building && r.done == st.done && r.emittedUntil == st.emittedUntil && r.htf == st.htf;
  }

  lemma NoMinutes(f: Floor, width: int, agg: Option<Candle>, cutoff: int)
    requires !IsDue(agg, cutoff)
    ensures BucketCall(f, width, agg, [], cutoff) == (agg, [])
  {
    var none: seq<Candle> := [];
    assert AddMinutes(f, width, agg, none) == (agg, none);
    assert none + none == none;
  }

  lemma {:induction false} NothingEmitted(outs: seq<seq<Candle>>)
    requires forall j :: 0 <= j < |outs| ==> outs[j] == []
    ensures TagAll(outs) == []
  {
    if outs != [] {
      NothingEmitted(outs[..|outs| - 1]);
    }
  }

  lemma FlushedEarliest(cfg: Config, st: Builder, cutoff: int)
    requires WellFormed(cfg) && Shaped(cfg, st)
    ensures Earliest(Flushed(cfg, st, cutoff))
  {
    var r := Flushed(cfg, st, cutoff);
    assert Pending(r) == Pending(r.(nextDue := 0));
  }

  /** A quote drops nothing that is pending. */
  lemma StillPending(cfg: Config, st: Builder, s: nat, t: int, bid: real, ask: real, r: Builder, x: int)
    requires Shaped(cfg, st) && s < cfg.symbols && r == AddQuote(cfg, st, s, t, bid, ask) && x in Pending(st)
    ensures x in Pending(r)
  {
    PendingParts(st, x);
    PendingParts(r, x);
    if k :| 0 <= k < |st.building| && st.building[k].Some? && st.building[k].value.closeTime == x {
      if k != s {
        assert r.building[k] == st.building[k];
      } else if r.done != st.done {
        assert r.done[s][|st.done[s]|] == st.building[s].value;
      } else {
        assert r.building[s].Some? && r.building[s].value.closeTime == x;
      }
    }
    if k, i :| 0 <= k < |st.done| && 0 <= i < |st.done[k]| && st.done[k][i].closeTime == x {
      assert r.done[k][i] == st.done[k][i];
    }
  }

  /** What a quote adds is its own minute. */
  lemma NewlyPending(cfg: Config, st: Builder, s: nat, t: int, bid: real, ask: real, r: Builder, x: int)
    requires Shaped(cfg, st) && s < cfg.symbols && r == AddQuote(cfg, st, s, t, bid, ask) && x in Pending(r)
    ensures x in Pending(st) || (x == Minute(t) + NS_PER_MINUTE && r.nextDue <= x)
  {
    PendingParts(st, x);
    PendingParts(r, x);
  }

  lemma AddQuoteEarliest(cfg: Config, st: Builder, s: nat, t: int, bid: real, ask: real)
    requires Shaped(cfg, st) && s < cfg.symbols && Earliest(st)
    ensures Earliest(AddQuote(cfg, st, s, t, bid, ask))
  {
    var r := AddQuote(cfg, st, s, t, bid, ask);
    forall x | x in Pending(r)
      ensures r.nextDue <= x
    {
      NewlyPending(cfg, st, s, t, bid, ask, r, x);
    }
    if r.nextDue != st.nextDue {
      PendingParts(r, r.nextDue);
      assert r.building[s].Some? && r.building[s].value.closeTime == r.nextDue;
    } else if st.nextDue in Pending(st) {
      StillPending(cfg, st, s, t, bid, ask, r, st.nextDue);
    }
  }

  // ---------------------------------------------------------------- the builder as a whole

  ghost predicate Inv(cfg: Config, Ts: seq<seq<Candle>>, cut: int, st: Builder, es: seq<Event>) {
    && WellFormed(cfg) && Shaped(cfg, st) && |Ts| == cfg.symbols && cut >= 0
    && (forall s: nat :: s < cfg.symbols ==> Minutes(st, s, Ts[s], cut))
    && (forall j: nat :: j < |cfg.subs| ==> SubHolds(cfg, st, j, Ts[cfg.subs[j].symbol], cut, Project(es, j)))
    && Ordered(es)
    && (forall i :: 0 <= i < |es| ==> es[i].sub < |cfg.subs| && es[i].At() <= cut)
    && Earliest(st)
  }

  lemma {:induction false} TagProjects(j: nat, cs: seq<Candle>, k: nat)
    ensures Project(Tag(j, cs), k) == if j == k then cs else []
  {
    if cs != [] {
      var n := |cs| - 1;
      assert Tag(j, cs)[..n] == Tag(j, cs[..n]);
      TagProjects(j, cs[..n], k);
      assert cs == cs[..n] + [cs[n]];
    }
  }

  /** The events of one series are what that series emitted. */
  lemma {:induction false} TagAllProjects(outs: seq<seq<Candle>>, k: nat)
    ensures Project(TagAll(outs), k) == if k < |outs| then outs[k] else []
  {
    if outs != [] {
      var j := |outs| - 1;
      TagAllProjects(outs[..j], k);
      TagOneMore(outs[..j], outs[j], j, k);
      TagAllSplits(outs);
    }
  }

  lemma TagAllSplits(outs: seq<seq<Candle>>)
    requires outs != []
    ensures TagAll(outs) == TagAll(outs[..|outs| - 1]) + Tag(|outs| - 1, outs[|outs| - 1])
  {}

  lemma TagOneMore(front: seq<seq<Candle>>, cs: seq<Candle>, j: nat, k: nat)
    requires |front| == j && Project(TagAll(front), k) == if k < j then front[k] else []
    ensures Project(TagAll(front) + Tag(j, cs), k) == if k < j then front[k] else if k == j then cs else []
  {
    TagAdds(TagAll(front), j, cs, k);
    if k == j {
      NothingBefore(Project(TagAll(front), k), cs);
    }
  }

  lemma NothingBefore(a: seq<Candle>, b: seq<Candle>)
    requires a == []
    ensures a + b == b
  {}

  lemma TagAdds(front: seq<Event>, j: nat, cs: seq<Candle>, k: nat)
    ensures Project(front + Tag(j, cs), k) == if j == k then Project(front, k) + cs else Project(front, k)
  {
    TagProjects(j, cs, k);
    ProjectJoin(front, Tag(j, cs), k);
  }

  lemma {:induction false} TagAllSubs(outs: seq<seq<Candle>>)
    ensures forall e :: e in TagAll(outs) ==> e.sub < |outs|
  {
    if outs != [] {
      TagAllSubs(outs[..|outs| - 1]);
    }
  }

  /** What a slow call emits, series by series and in order. */
  lemma SlowEvents(cfg: Config, Ts: seq<seq<Candle>>, cut: int, st: Builder, es: seq<Event>, cutoff: int)
    requires WellFormed(cfg) && GoodBuckets(cfg) && Inv(cfg, Ts, cut, st, es) && cut <= cutoff
    ensures var events := Slow(cfg, st, cutoff).events;
      && Ordered(events)
      && (forall j: nat :: j < |cfg.subs| ==> Project(events, j) == SubCall(cfg, st, j, cutoff).1)
      && (forall i :: 0 <= i < |events| ==> events[i].sub < |cfg.subs| && cut < events[i].At() <= cutoff)
  {
    OutsRise(cfg, Ts, cut, st, es, cutoff);
    SortedOuts(Outs(cfg, st, cutoff), cut, cutoff);
  }

  lemma OutsRise(cfg: Config, Ts: seq<seq<Candle>>, cut: int, st: Builder, es: seq<Event>, cutoff: int)
    requires WellFormed(cfg) && GoodBuckets(cfg) && Inv(cfg, Ts, cut, st, es) && cut <= cutoff
    ensures var outs := Outs(cfg, st, cutoff);
      forall j: nat :: j < |outs| ==> Rising(outs[j]) && Within(outs[j], cut, cutoff)
  {
    var outs := Outs(cfg, st, cutoff);
    forall j: nat | j < |outs|
      ensures Rising(outs[j]) && Within(outs[j], cut, cutoff)
    {
      OutRises(cfg, Ts[cfg.subs[j].symbol], cut, st, Project(es, j), j, cutoff);
    }
  }

  /** Sorting the tagged lists keeps every series and leaves no ties. */
  lemma SortedOuts(outs: seq<seq<Candle>>, cut: int, cutoff: int)
    requires forall j: nat :: j < |outs| ==> Rising(outs[j]) && Within(outs[j], cut, cutoff)
    ensures var r := Sort(TagAll(outs));
      && Ordered(r)
      && (forall j: nat :: Project(r, j) == if j < |outs| then outs[j] else [])
      && (forall i :: 0 <= i < |r| ==> r[i].sub < |outs| && cut < r[i].At() <= cutoff)
  {
    var r := Sort(TagAll(outs));
    forall j: nat
      ensures Rising(Project(r, j)) && Project(r, j) == if j < |outs| then outs[j] else []
    {
      TagAllProjects(outs, j);
      SortProjects(TagAll(outs), j);
    }
    SortOrders(TagAll(outs));
    RisingOrders(r);
    MultisetMembers(r, TagAll(outs));
    TagAllSubs(outs);
    forall i | 0 <= i < |r|
      ensures r[i].sub < |outs| && cut < r[i].At() <= cutoff
    {
      assert r[i] in TagAll(outs);
      ProjectMembers(r, r[i].sub);
      assert r[i] == Event(r[i].sub, r[i].candle);
      assert Within(outs[r[i].sub], cut, cutoff);
    }
  }

  lemma OutRises(cfg: Config, T: seq<Candle>, cut: int, st: Builder, E: seq<Candle>, j: nat, cutoff: int)
    requires WellFormed(cfg) && Shaped(cfg, st) && GoodBuckets(cfg) && j < |cfg.subs| && cut <= cutoff
    requires Minutes(st, cfg.subs[j].symbol, T, cut) && SubHolds(cfg, st, j, T, cut, E)
    ensures Rising(SubCall(cfg, st, j, cutoff).1) && Within(SubCall(cfg, st, j, cutoff).1, cut, cutoff)
  {
    FlushSub(cfg, st, j, T, cut, cutoff, E);
    SubRises(cfg, Flushed(cfg, st, cutoff), j, T, cutoff, E + SubCall(cfg, st, j, cutoff).1);
    RisingParts(E, SubCall(cfg, st, j, cutoff).1);
  }

  lemma FlushInv(
    cfg: Config, Ts: seq<seq<Candle>>, cut: int, st: Builder, es: seq<Event>, cutoff: int,
    r: Emission, es': seq<Event>)
    requires GoodBuckets(cfg) && Inv(cfg, Ts, cut, st, es) && cut <= cutoff
    requires r == Slow(cfg, st, cutoff) && es' == es + r.events
    ensures Inv(cfg, Ts, cutoff, r.builder, es')
  {
    SlowEvents(cfg, Ts, cut, st, es, cutoff);
    FlushedEarliest(cfg, st, cutoff);
    FlushAllMinutes(cfg, Ts, cut, st, cutoff);
    FlushAllSubs(cfg, Ts, cut, st, es, cutoff, r.events);
    LaterInv(cfg, Ts, cut, cutoff, Flushed(cfg, st, cutoff), es, r.events);
  }

  lemma LaterInv(
    cfg: Config, Ts: seq<seq<Candle>>, cut: int, cutoff: int, st: Builder, es: seq<Event>, more: seq<Event>)
    requires WellFormed(cfg) && Shaped(cfg, st) && |Ts| == cfg.symbols && 0 <= cut <= cutoff && Earliest(st)
    requires forall s: nat :: s < cfg.symbols ==> Minutes(st, s, Ts[s], cutoff)
    requires forall j: nat :: j < |cfg.subs| ==>
      SubHolds(cfg, st, j, Ts[cfg.subs[j].symbol], cutoff, Project(es + more, j))
    requires Ordered(es) && forall i :: 0 <= i < |es| ==> es[i].sub < |cfg.subs| && es[i].At() <= cut
    requires Ordered(more) && forall i :: 0 <= i < |more| ==> more[i].sub < |cfg.subs| && cut < more[i].At() <= cutoff
    ensures Inv(cfg, Ts, cutoff, st, es + more)
  {
    OrderedJoin(es, more, cut);
  }

  lemma FlushAllMinutes(cfg: Config, Ts: seq<seq<Candle>>, cut: int, st: Builder, cutoff: int)
    requires WellFormed(cfg) && Shaped(cfg, st) && |Ts| == cfg.symbols && cut <= cutoff
    requires forall s: nat :: s < cfg.symbols ==> Minutes(st, s, Ts[s], cut)
    ensures forall s: nat :: s < cfg.symbols ==> Minutes(Flushed(cfg, st, cutoff), s, Ts[s], cutoff)
  {
    forall s: nat | s < cfg.symbols
      ensures Minutes(Flushed(cfg, st, cutoff), s, Ts[s], cutoff)
    {
      FlushMinutes(cfg, st, s, Ts[s], cut, cutoff);
    }
  }

  lemma FlushAllSubs(
    cfg: Config, Ts: seq<seq<Candle>>, cut: int, st: Builder, es: seq<Event>, cutoff: int, more: seq<Event>)
    requires WellFormed(cfg) && Shaped(cfg, st) && GoodBuckets(cfg) && |Ts| == cfg.symbols && cut <= cutoff
    requires forall s: nat :: s < cfg.symbols ==> Minutes(st, s, Ts[s], cut)
    requires forall j: nat :: j < |cfg.subs| ==> SubHolds(cfg, st, j, Ts[cfg.subs[j].symbol], cut, Project(es, j))
    requires forall j: nat :: j < |cfg.subs| ==> Project(more, j) == SubCall(cfg, st, j, cutoff).1
    ensures forall j: nat :: j < |cfg.subs| ==>
      SubHolds(cfg, Flushed(cfg, st, cutoff), j, Ts[cfg.subs[j].symbol], cutoff, Project(es + more, j))
  {
    forall j: nat | j < |cfg.subs|
      ensures SubHolds(cfg, Flushed(cfg, st, cutoff), j, Ts[cfg.subs[j].symbol], cutoff, Project(es + more, j))
    {
      ProjectJoin(es, more, j);
      FlushSub(cfg, st, j, Ts[cfg.subs[j].symbol], cut, cutoff, Project(es, j));
    }
  }

  lemma OrderedJoin(a: seq<Event>, b: seq<Event>, cut: int)
    requires Ordered(a) && Ordered(b)
    requires (forall i :: 0 <= i < |a| ==> a[i].At() <= cut) && (forall i :: 0 <= i < |b| ==> b[i].At() > cut)
    ensures Ordered(a + b)
  {}

  /** When nothing pending is due, the cut can move on by itself. */
  lemma QuietInv(cfg: Config, Ts: seq<seq<Candle>>, cut: int, st: Builder, es: seq<Event>, cutoff: int)
    requires WellFormed(cfg) && Inv(cfg, Ts, cut, st, es) && cut <= cutoff < st.nextDue
    ensures Inv(cfg, Ts, cutoff, st, es)
  {
    forall s: nat | s < cfg.symbols
      ensures Minutes(st, s, Ts[s], cutoff)
    {
      QuietMinutes(cfg, st, s, Ts[s], cut, cutoff);
    }
    forall j: nat | j < |cfg.subs|
      ensures SubHolds(cfg, st, j, Ts[cfg.subs[j].symbol], cutoff, Project(es, j))
    {
      assert SubHolds(cfg, st, j, Ts[cfg.subs[j].symbol], cut, Project(es, j));
      QuietSub(cfg, st, j, Ts[cfg.subs[j].symbol], cut, cutoff, Project(es, j));
    }
  }

  lemma QuietMinutes(cfg: Config, st: Builder, s: nat, T: seq<Candle>, cut: int, cutoff: int)
    requires Shaped(cfg, st) && s < cfg.symbols && Minutes(st, s, T, cut) && Earliest(st) && cut <= cutoff < st.nextDue
    ensures Minutes(st, s, T, cutoff) && ClosedBy(T, cutoff) == ClosedBy(T, cut)
  {
    SpacedRises(NS_PER_MINUTE, T);
    CutLater(T, cut, cutoff);
    var p := st.done[s] + Opt(st.building[s]);
    forall c | c in p
      ensures c.closeTime > cutoff
    {
      PendingParts(st, c.closeTime);
      var i :| 0 <= i < |p| && p[i] == c;
      if i < |st.done[s]| {
        assert st.done[s][i].closeTime == c.closeTime;
      } else {
        assert st.building[s].Some? && st.building[s].value.closeTime == c.closeTime;
      }
    }
    CutAll(p, cutoff);
    assert ClosedBy(T, cut) + [] == ClosedBy(T, cut);
  }

  lemma QuietSub(cfg: Config, st: Builder, j: nat, T: seq<Candle>, cut: int, cutoff: int, E: seq<Candle>)
    requires WellFormed(cfg) && Shaped(cfg, st) && j < |cfg.subs| && SubHolds(cfg, st, j, T, cut, E)
    requires Earliest(st) && cut <= cutoff < st.nextDue && Minutes(st, cfg.subs[j].symbol, T, cut)
    ensures SubHolds(cfg, st, j, T, cutoff, E)
  {
    QuietMinutes(cfg, st, cfg.subs[j].symbol, T, cut, cutoff);
    if st.htf[j].Some? {
      PendingParts(st, st.htf[j].value.closeTime);
    }
  }

  function Later(a: int, b: int): int { if a >= b then a else b }

  /** A call of the clock moves the cut to the latest cutoff. */
  lemma OnCutoffInv(
    cfg: Config, Ts: seq<seq<Candle>>, cut: int, st: Builder, es: seq<Event>, cutoff: int,
    r: Emission, es': seq<Event>)
    requires GoodBuckets(cfg) && Inv(cfg, Ts, cut, st, es) && cutoff < NEVER
    requires r == OnCutoff(cfg, st, cutoff) && es' == es + r.events
    ensures Inv(cfg, Ts, Later(cut, cutoff), r.builder, es')
  {
    if cutoff >= st.nextDue {
      PastCut(cfg, Ts, cut, st, es, cutoff);
      assert OnCutoff(cfg, st, cutoff) == Slow(cfg, st, cutoff);
      FlushInv(cfg, Ts, cut, st, es, cutoff, r, es');
    } else {
      assert es' == es;
      if cut <= cutoff {
        QuietInv(cfg, Ts, cut, st, es, cutoff);
      }
    }
  }

  lemma PastCut(cfg: Config, Ts: seq<seq<Candle>>, cut: int, st: Builder, es: seq<Event>, cutoff: int)
    requires Inv(cfg, Ts, cut, st, es) && st.nextDue <= cutoff < NEVER
    ensures cut < cutoff
  {
    PendingAfter(cfg, Ts, cut, st, es, st.nextDue);
  }

  /** Everything pending closes after the cut. */
  lemma PendingAfter(cfg: Config, Ts: seq<seq<Candle>>, cut: int, st: Builder, es: seq<Event>, x: int)
    requires WellFormed(cfg) && Inv(cfg, Ts, cut, st, es)
    ensures x in Pending(st) ==> x > cut
  {
    PendingParts(st, x);
    if x in Pending(st) {
      if s :| 0 <= s < |st.building| && st.building[s].Some? && st.building[s].value.closeTime == x {
        assert Minutes(st, s, Ts[s], cut);
        assert (st.done[s] + Opt(st.building[s]))[|st.done[s]|] == st.building[s].value;
        assert st.building[s].value in OpenAfter(Ts[s], cut);
      } else if k, i :| 0 <= k < |st.done| && 0 <= i < |st.done[k]| && st.done[k][i].closeTime == x {
        assert Minutes(st, k, Ts[k], cut);
        assert (st.done[k] + Opt(st.building[k]))[i] == st.done[k][i];
        assert st.done[k][i] in OpenAfter(Ts[k], cut);
      } else {
        var j :| 0 <= j < |st.htf| && st.htf[j].Some? && st.htf[j].value.closeTime == x;
        assert SubHolds(cfg, st, j, Ts[cfg.subs[j].symbol], cut, Project(es, j));
      }
    }
  }

  // ---------------------------------------------------------------- quotes

  /** The minutes after one more quote: a quote of an older minute than the last is dropped. */
  function Quoted(T: seq<Candle>, tick: Candle): seq<Candle> {
    if T != [] && Minute(tick.openTime) < T[|T| - 1].openTime then T else Add(Minute, NS_PER_MINUTE, T, tick)
  }

  lemma MinuteFloor(t: int)
    ensures Minute(t) <= t < Minute(t) + NS_PER_MINUTE && Minute(t) % NS_PER_MINUTE == 0
  {}

  lemma QuotedMinutes(T: seq<Candle>, tick: Candle)
    requires MinuteBars(T)
    ensures MinuteBars(Quoted(T, tick))
  {
    var m, n := Minute(tick.openTime), |T| - 1;
    MinuteFloor(tick.openTime);
    if T != [] && m >= T[n].openTime {
      if m > T[n].openTime {
        NextMinute(T[n].openTime, m);
      }
      AddSpaced(Minute, NS_PER_MINUTE, T, tick);
      AddWhole(T, tick, m);
    }
  }

  lemma AddWhole(T: seq<Candle>, tick: Candle, m: int)
    requires forall i :: 0 <= i < |T| ==> T[i].openTime % NS_PER_MINUTE == 0
    requires m == Minute(tick.openTime) && m % NS_PER_MINUTE == 0
    ensures var r := Add(Minute, NS_PER_MINUTE, T, tick);
      forall i :: 0 <= i < |r| ==> r[i].openTime % NS_PER_MINUTE == 0
  {}

  lemma NextMinute(x: int, y: int)
    requires x % NS_PER_MINUTE == 0 && y % NS_PER_MINUTE == 0 && x < y
    ensures x + NS_PER_MINUTE <= y
  {}

  lemma SnocCancels(a: seq<Candle>, b: seq<Candle>, x: Candle)
    requires a + [x] == b + [x]
    ensures a == b
  {
    assert a == (a + [x])[..|a|] && b == (b + [x])[..|b|];
  }

  lemma CutSnoc(p: seq<Candle>, x: Candle, cut: int)
    requires x.closeTime > cut
    ensures ClosedBy(p + [x], cut) == ClosedBy(p, cut) && OpenAfter(p + [x], cut) == OpenAfter(p, cut) + [x]
  {
    assert (p + [x])[..|p|] == p;
  }

  /** The minute of a quote has not closed by the cut. */
  predicate InTime(t: int, cut: int) { Minute(t) + NS_PER_MINUTE > cut }

  /** The branch that lets a quote open a minute that is already due: no minute is under construction, and the
      last one that went out is older than the quote's. */
  predicate Reopens(st: Builder, s: nat, t: int, cut: int)
    requires s < |st.building| == |st.emittedUntil|
  {
    st.building[s].None? && st.emittedUntil[s] < Minute(t) + NS_PER_MINUTE <= cut
  }

  /** The quote belongs to the minute under construction. */
  lemma QuoteJoins(cur: Candle, done: seq<Candle>, until: int, T: seq<Candle>, cut: int, tick: Candle)
    requires Held(Some(cur), done, until, T, cut) && cur.openTime == Minute(tick.openTime)
    ensures Held(Some(Merge(cur, tick)), done, until, Quoted(T, tick), cut)
    ensures ClosedBy(Quoted(T, tick), cut) == ClosedBy(T, cut)
  {
    var p := LastPending(cur, done, until, T, cut);
    var bar := Merge(cur, tick);
    QuotedMinutes(T, tick);
    assert Quoted(T, tick) == p + [bar];
    CutSnoc(p, bar, cut);
  }

  /** The quote starts a later minute. */
  lemma QuoteOpens(cur: Candle, done: seq<Candle>, until: int, T: seq<Candle>, cut: int, tick: Candle)
    requires Held(Some(cur), done, until, T, cut) && cur.openTime < Minute(tick.openTime) && InTime(tick.openTime, cut)
    ensures Held(Some(Begin(Minute, NS_PER_MINUTE, tick)), done + [cur], until, Quoted(T, tick), cut)
    ensures ClosedBy(Quoted(T, tick), cut) == ClosedBy(T, cut)
  {
    var p := LastPending(cur, done, until, T, cut);
    assert T[|T| - 1] == cur;
    QuoteAppends(T, tick, cut);
    ConcatAssociates(done, [cur], [Begin(Minute, NS_PER_MINUTE, tick)]);
  }

  lemma QuoteAppends(T: seq<Candle>, tick: Candle, cut: int)
    requires MinuteBars(T) && InTime(tick.openTime, cut) && (T != [] ==> T[|T| - 1].openTime < Minute(tick.openTime))
    ensures var bar := Begin(Minute, NS_PER_MINUTE, tick);
      && MinuteBars(Quoted(T, tick))
      && OpenAfter(Quoted(T, tick), cut) == OpenAfter(T, cut) + [bar]
      && ClosedBy(Quoted(T, tick), cut) == ClosedBy(T, cut)
  {
    var bar := Begin(Minute, NS_PER_MINUTE, tick);
    QuotedMinutes(T, tick);
    MinuteFloor(tick.openTime);
    assert Quoted(T, tick) == T + [bar];
    CutSnoc(T, bar, cut);
  }

  /** With nothing under construction the quote starts the next minute. */
  lemma QuoteStarts(done: seq<Candle>, until: int, T: seq<Candle>, cut: int, tick: Candle)
    requires Held(None, done, until, T, cut) && InTime(tick.openTime, cut)
    ensures Held(Some(Begin(Minute, NS_PER_MINUTE, tick)), done, until, Quoted(T, tick), cut)
    ensures ClosedBy(Quoted(T, tick), cut) == ClosedBy(T, cut)
  {
    MinuteFloor(tick.openTime);
    ClosedMinutes(T, cut);
    CutSplits(T, cut);
    assert T == ClosedBy(T, cut) + [];
    if T != [] {
      var last := T[|T| - 1];
      assert last in ClosedBy(T, cut);
      WholeSum(last.openTime, NS_PER_MINUTE);
      WholeBefore(last.closeTime, Minute(tick.openTime));
    }
    QuoteAppends(T, tick, cut);
  }

  /** The minute under construction is the last of all, and pending. */
  lemma LastPending(cur: Candle, done: seq<Candle>, until: int, T: seq<Candle>, cut: int) returns (p: seq<Candle>)
    requires Held(Some(cur), done, until, T, cut)
    ensures T == p + [cur] && ClosedBy(p, cut) == ClosedBy(T, cut) && OpenAfter(p, cut) == done && cur.closeTime > cut
  {
    ClosedMinutes(T, cut);
    CutSplits(T, cut);
    var open := OpenAfter(T, cut);
    assert open[|open| - 1] == cur && cur in open;
    p := T[..|T| - 1];
    assert T == (ClosedBy(T, cut) + done) + [cur];
    assert T == p + [cur];
    CutSnoc(p, cur, cut);
    SnocCancels(OpenAfter(p, cut), done, cur);
  }

  /** A quote whose minute has not closed by the cut either joins or opens a minute that is still pending, or is
      dropped; what is past the cut does not change. */
  lemma AddQuoteMinutes(
    cfg: Config, st: Builder, s: nat, T: seq<Candle>, cut: int, t: int, bid: real, ask: real, r: Builder,
    T': seq<Candle>)
    requires Shaped(cfg, st) && s < cfg.symbols && Minutes(st, s, T, cut) && InTime(t, cut) && cut >= 0
    requires r == AddQuote(cfg, st, s, t, bid, ask) && T' == Quoted(T, Tick(t, bid, ask))
    ensures Minutes(r, s, T', cut) && ClosedBy(T', cut) == ClosedBy(T, cut)
  {
    var tick, cur, done, until := Tick(t, bid, ask), st.building[s], st.done[s], st.emittedUntil[s];
    MinuteFloor(t);
    EmittedBeforeCut(ClosedBy(T, cut), cut);
    if cur.None? {
      QuoteStarts(done, until, T, cut, tick);
    } else if cur.value.openTime == Minute(t) {
      QuoteJoins(cur.value, done, until, T, cut, tick);
    } else if cur.value.openTime < Minute(t) {
      QuoteOpens(cur.value, done, until, T, cut, tick);
    } else {
      var p := LastPending(cur.value, done, until, T, cut);
    }
  }

  lemma EmittedBeforeCut(past: seq<Candle>, cut: int)
    requires (forall c :: c in past ==> c.closeTime <= cut) && cut >= 0
    ensures LastClose(past, 0) <= cut
  {
    if past != [] {
      assert past[|past| - 1] in past;
    }
  }

  lemma AddQuoteInv(
    cfg: Config, Ts: seq<seq<Candle>>, cut: int, st: Builder, es: seq<Event>, s: nat, t: int, bid: real, ask: real,
    r: Builder, Ts': seq<seq<Candle>>)
    requires Inv(cfg, Ts, cut, st, es) && s < cfg.symbols && InTime(t, cut)
    requires r == AddQuote(cfg, st, s, t, bid, ask) && Ts' == Ts[s := Quoted(Ts[s], Tick(t, bid, ask))]
    ensures Inv(cfg, Ts', cut, r, es)
  {
    AddQuoteEarliest(cfg, st, s, t, bid, ask);
    QuoteMinutes(cfg, Ts, cut, st, s, t, bid, ask, r, Ts');
    SubsUntouched(cfg, Ts, Ts', cut, st, es, r);
  }

  lemma QuoteMinutes(
    cfg: Config, Ts: seq<seq<Candle>>, cut: int, st: Builder, s: nat, t: int, bid: real, ask: real,
    r: Builder, Ts': seq<seq<Candle>>)
    requires Shaped(cfg, st) && |Ts| == cfg.symbols && s < cfg.symbols && InTime(t, cut) && cut >= 0
    requires forall k: nat :: k < cfg.symbols ==> Minutes(st, k, Ts[k], cut)
    requires r == AddQuote(cfg, st, s, t, bid, ask) && Ts' == Ts[s := Quoted(Ts[s], Tick(t, bid, ask))]
    ensures forall k: nat :: k < cfg.symbols ==>
      Minutes(r, k, Ts'[k], cut) && ClosedBy(Ts'[k], cut) == ClosedBy(Ts[k], cut)
    ensures r.htf == st.htf
  {
    AddQuoteMinutes(cfg, st, s, Ts[s], cut, t, bid, ask, r, Ts'[s]);
    forall k: nat | k < cfg.symbols
      ensures Minutes(r, k, Ts'[k], cut) && ClosedBy(Ts'[k], cut) == ClosedBy(Ts[k], cut)
    {
      if k != s {
        OtherMinutes(cfg, st, s, t, bid, ask, r, k, Ts[k], cut);
      }
    }
  }

  /** A quote of one symbol leaves the minutes of the others alone. */
  lemma OtherMinutes(
    cfg: Config, st: Builder, s: nat, t: int, bid: real, ask: real, r: Builder, k: nat, T: seq<Candle>, cut: int)
    requires Shaped(cfg, st) && s < cfg.symbols && k < cfg.symbols && k != s && Minutes(st, k, T, cut)
    requires r == AddQuote(cfg, st, s, t, bid, ask)
    ensures Minutes(r, k, T, cut)
  {}

  /** A quote whose minute has closed by the cut is dropped, unless it reopens that minute. */
  lemma LateQuoteDropped(
    cfg: Config, Ts: seq<seq<Candle>>, cut: int, st: Builder, es: seq<Event>, s: nat, t: int, bid: real, ask: real)
    requires Inv(cfg, Ts, cut, st, es) && s < cfg.symbols && !InTime(t, cut) && !Reopens(st, s, t, cut)
    ensures AddQuote(cfg, st, s, t, bid, ask) == st.(late := st.late + 1)
  {
    if Minute(t) + NS_PER_MINUTE > st.emittedUntil[s] {
      assert Minutes(st, s, Ts[s], cut);
      var cur := st.building[s].value;
      var p := LastPending(cur, st.done[s], st.emittedUntil[s], Ts[s], cut);
      assert Ts[s][|Ts[s]| - 1] == cur;
    }
  }

  lemma LateInv(cfg: Config, Ts: seq<seq<Candle>>, cut: int, st: Builder, es: seq<Event>, r: Builder)
    requires Inv(cfg, Ts, cut, st, es) && r == st.(late := r.late)
    ensures Inv(cfg, Ts, cut, r, es)
  {
    assert Pending(r) == Pending(st);
    forall s: nat | s < cfg.symbols
      ensures Minutes(r, s, Ts[s], cut)
    {
      assert Minutes(st, s, Ts[s], cut);
    }
    SubsUntouched(cfg, Ts, Ts, cut, st, es, r);
  }

  /** Something pending should already have gone out. */
  ghost predicate Overdue(st: Builder, cut: int) { exists x :: x in Pending(st) && x <= cut }

  /** Exactly when a quote makes something overdue: when it reopens a minute that has closed by the cut. */
  lemma OverdueIffReopened(
    cfg: Config, Ts: seq<seq<Candle>>, cut: int, st: Builder, es: seq<Event>, s: nat, t: int, bid: real, ask: real)
    requires Inv(cfg, Ts, cut, st, es) && s < cfg.symbols
    ensures Overdue(AddQuote(cfg, st, s, t, bid, ask), cut) <==> Reopens(st, s, t, cut)
  {
    var r := AddQuote(cfg, st, s, t, bid, ask);
    if Reopens(st, s, t, cut) {
      PendingParts(r, Minute(t) + NS_PER_MINUTE);
      assert r.building[s].Some? && r.building[s].value.closeTime == Minute(t) + NS_PER_MINUTE;
    } else {
      if InTime(t, cut) {
        var Ts' := Ts[s := Quoted(Ts[s], Tick(t, bid, ask))];
        AddQuoteInv(cfg, Ts, cut, st, es, s, t, bid, ask, r, Ts');
        NothingOverdue(cfg, Ts', cut, r, es);
      } else {
        LateQuoteDropped(cfg, Ts, cut, st, es, s, t, bid, ask);
        LateInv(cfg, Ts, cut, st, es, r);
        NothingOverdue(cfg, Ts, cut, r, es);
      }
    }
  }

  lemma NothingOverdue(cfg: Config, Ts: seq<seq<Candle>>, cut: int, st: Builder, es: seq<Event>)
    requires WellFormed(cfg) && Inv(cfg, Ts, cut, st, es)
    ensures !Overdue(st, cut)
  {
    forall x | x in Pending(st)
      ensures x > cut
    {
      PendingAfter(cfg, Ts, cut, st, es, x);
    }
  }

  /** Buckets do not notice a quote. */
  lemma SubsUntouched(
    cfg: Config, Ts: seq<seq<Candle>>, Ts': seq<seq<Candle>>, cut: int, st: Builder, es: seq<Event>, r: Builder)
    requires WellFormed(cfg) && |Ts| == |Ts'| == cfg.symbols && |st.htf| == |cfg.subs| && r.htf == st.htf
    requires forall k: nat :: k < cfg.symbols ==> ClosedBy(Ts'[k], cut) == ClosedBy(Ts[k], cut)
    requires forall j: nat :: j < |cfg.subs| ==> SubHolds(cfg, st, j, Ts[cfg.subs[j].symbol], cut, Project(es, j))
    ensures forall j: nat :: j < |cfg.subs| ==> SubHolds(cfg, r, j, Ts'[cfg.subs[j].symbol], cut, Project(es, j))
  {
    forall j: nat | j < |cfg.subs|
      ensures SubHolds(cfg, r, j, Ts'[cfg.subs[j].symbol], cut, Project(es, j))
    {
      assert SubHolds(cfg, st, j, Ts[cfg.subs[j].symbol], cut, Project(es, j));
    }
  }

  // ---------------------------------------------------------------- whole runs

  /** The quotes of one symbol that came before their minute had closed by the latest cutoff, as elements. */
  function TicksOf(cfg: Config, xs: seq<Input>, s: nat): seq<Candle> {
    if xs == [] then []
    else
      var x := xs[|xs| - 1];
      TicksOf(cfg, xs[..|xs| - 1], s)
      + if x.Quote? && x.symbol == s && InTime(x.t, Cut(cfg, xs)) then [Tick(x.t, x.bid, x.ask)] else []
  }

  /** Of these, the ones that count: those of no earlier minute than the last that counted. */
  function Accepted(ticks: seq<Candle>): seq<Candle> {
    if ticks == [] then []
    else
      var before, tick := Accepted(ticks[..|ticks| - 1]), ticks[|ticks| - 1];
      if before != [] && Minute(tick.openTime) < Minute(before[|before| - 1].openTime) then before else before + [tick]
  }

  /** The latest cutoff reached by the inputs. */
  function Cut(cfg: Config, xs: seq<Input>): int {
    if xs == [] then 0 else Later(Cut(cfg, xs[..|xs| - 1]), CutoffOf(cfg, xs[|xs| - 1]))
  }

  /** The builder when the last of the inputs is looked at: what its time makes due has gone out. */
  function Arrival(cfg: Config, xs: seq<Input>): (r: Builder)
    requires WellFormed(cfg) && xs != []
    ensures Shaped(cfg, r)
  {
    OnCutoff(cfg, Run(cfg, xs[..|xs| - 1]).builder, CutoffOf(cfg, xs[|xs| - 1])).builder
  }

  /** The last input is a quote that reopens a minute. */
  predicate LastReopens(cfg: Config, xs: seq<Input>)
    requires WellFormed(cfg) && xs != []
  {
    var x := xs[|xs| - 1];
    x.Quote? && x.symbol < cfg.symbols && Reopens(Arrival(cfg, xs), x.symbol, x.t, Cut(cfg, xs))
  }

  /** Times are before the sentinel, and no quote reopens a minute. */
  ghost predicate NoneReopens(cfg: Config, xs: seq<Input>)
    requires WellFormed(cfg)
  {
    && (forall i :: 0 <= i < |xs| ==> TimeOf(xs[i]) < NEVER)
    && (forall i :: 1 <= i <= |xs| ==> !LastReopens(cfg, xs[..i]))
  }

  function MinutesOf(cfg: Config, xs: seq<Input>, s: nat): seq<Candle> {
    Streamed(Minute, NS_PER_MINUTE, Accepted(TicksOf(cfg, xs, s)))
  }

  function AllMinutes(cfg: Config, xs: seq<Input>): (r: seq<seq<Candle>>)
    ensures |r| == cfg.symbols && forall s :: 0 <= s < cfg.symbols ==> r[s] == MinutesOf(cfg, xs, s)
  {
    seq(cfg.symbols, s requires 0 <= s < cfg.symbols => MinutesOf(cfg, xs, s))
  }

  lemma {:induction false} AcceptedEnds(ticks: seq<Candle>)
    ensures var a := Accepted(ticks); var T := Streamed(Minute, NS_PER_MINUTE, a);
      (a == [] <==> T == []) && (a != [] ==> T[|T| - 1].openTime == Minute(a[|a| - 1].openTime))
  {
    var a := Accepted(ticks);
    StreamedIsBatch(Minute, NS_PER_MINUTE, a);
    if a != [] {
      BatchEnd(Minute, NS_PER_MINUTE, a);
    }
  }

  lemma OneMoreQuote(ticks: seq<Candle>, tick: Candle)
    ensures Streamed(Minute, NS_PER_MINUTE, Accepted(ticks + [tick]))
      == Quoted(Streamed(Minute, NS_PER_MINUTE, Accepted(ticks)), tick)
  {
    assert (ticks + [tick])[..|ticks|] == ticks;
    AcceptedEnds(ticks);
    var a := Accepted(ticks);
    assert (a + [tick])[..|a|] == a;
  }

  /** A quote of a subscribed symbol in time. */
  predicate Counts(cfg: Config, x: Input, cut: int) { x.Quote? && x.symbol < cfg.symbols && InTime(x.t, cut) }

  lemma MinutesAfter(cfg: Config, xs: seq<Input>, x: Input)
    ensures AllMinutes(cfg, xs + [x]) ==
      if Counts(cfg, x, Cut(cfg, xs + [x])) then
        AllMinutes(cfg, xs)[x.symbol := Quoted(MinutesOf(cfg, xs, x.symbol), Tick(x.t, x.bid, x.ask))]
      else AllMinutes(cfg, xs)
  {
    assert (xs + [x])[..|xs|] == xs;
    var counts := Counts(cfg, x, Cut(cfg, xs + [x]));
    forall s: nat | s < cfg.symbols
      ensures MinutesOf(cfg, xs + [x], s) ==
        if counts && x.symbol == s then Quoted(MinutesOf(cfg, xs, s), Tick(x.t, x.bid, x.ask))
        else MinutesOf(cfg, xs, s)
    {
      if counts && x.symbol == s {
        OneMoreQuote(TicksOf(cfg, xs, s), Tick(x.t, x.bid, x.ask));
      } else {
        assert TicksOf(cfg, xs, s) + [] == TicksOf(cfg, xs, s);
      }
    }
  }

  lemma {:induction false} RunInv(cfg: Config, xs: seq<Input>)
    requires WellFormed(cfg) && GoodBuckets(cfg) && NoneReopens(cfg, xs)
    ensures Inv(cfg, AllMinutes(cfg, xs), Cut(cfg, xs), Run(cfg, xs).builder, Run(cfg, xs).events)
    decreases |xs|
  {
    if xs == [] {
      InitInv(cfg);
    } else {
      var front, x := xs[..|xs| - 1], xs[|xs| - 1];
      NoneBefore(cfg, xs);
      RunInv(cfg, front);
      FrontAndLast(xs);
      StepInv(cfg, front, x);
    }
  }

  lemma FrontAndLast(xs: seq<Input>)
    requires xs != []
    ensures xs == xs[..|xs| - 1] + [xs[|xs| - 1]]
  {}

  lemma NoneBefore(cfg: Config, xs: seq<Input>)
    requires WellFormed(cfg) && NoneReopens(cfg, xs) && xs != []
    ensures NoneReopens(cfg, xs[..|xs| - 1]) && !LastReopens(cfg, xs) && TimeOf(xs[|xs| - 1]) < NEVER
  {
    var front := xs[..|xs| - 1];
    assert xs[..|xs|] == xs;
    forall i | 1 <= i <= |front|
      ensures !LastReopens(cfg, front[..i])
    {
      assert front[..i] == xs[..i];
    }
  }

  lemma StepInv(cfg: Config, xs: seq<Input>, x: Input)
    requires WellFormed(cfg) && GoodBuckets(cfg) && TimeOf(x) < NEVER && !LastReopens(cfg, xs + [x])
    requires Inv(cfg, AllMinutes(cfg, xs), Cut(cfg, xs), Run(cfg, xs).builder, Run(cfg, xs).events)
    ensures var more := xs + [x];
      Inv(cfg, AllMinutes(cfg, more), Cut(cfg, more), Run(cfg, more).builder, Run(cfg, more).events)
  {
    MinutesAfter(cfg, xs, x);
    OneMoreInput(cfg, xs, x);
    InputInv(cfg, AllMinutes(cfg, xs), Cut(cfg, xs), Run(cfg, xs).builder, Run(cfg, xs).events, x,
             AllMinutes(cfg, xs + [x]), Run(cfg, xs + [x]).builder, Run(cfg, xs + [x]).events);
  }

  lemma OneMoreInput(cfg: Config, xs: seq<Input>, x: Input)
    requires WellFormed(cfg)
    ensures Run(cfg, xs + [x]).builder == Step(cfg, Run(cfg, xs).builder, x).builder
    ensures Run(cfg, xs + [x]).events == Run(cfg, xs).events + Step(cfg, Run(cfg, xs).builder, x).events
    ensures Cut(cfg, xs + [x]) == Later(Cut(cfg, xs), CutoffOf(cfg, x))
    ensures Arrival(cfg, xs + [x]) == OnCutoff(cfg, Run(cfg, xs).builder, CutoffOf(cfg, x)).builder
  {
    assert (xs + [x])[..|xs|] == xs;
  }

  /** One input, whatever came before. */
  lemma InputInv(
    cfg: Config, Ts: seq<seq<Candle>>, cut: int, st: Builder, es: seq<Event>, x: Input,
    Ts': seq<seq<Candle>>, st': Builder, es': seq<Event>)
    requires GoodBuckets(cfg) && Inv(cfg, Ts, cut, st, es) && TimeOf(x) < NEVER
    requires var cut', r := Later(cut, CutoffOf(cfg, x)), OnCutoff(cfg, st, CutoffOf(cfg, x)).builder;
      && (x.Quote? && x.symbol < cfg.symbols ==> !Reopens(r, x.symbol, x.t, cut'))
      && Ts' == if Counts(cfg, x, cut') then Ts[x.symbol := Quoted(Ts[x.symbol], Tick(x.t, x.bid, x.ask))] else Ts
    requires st' == Step(cfg, st, x).builder && es' == es + Step(cfg, st, x).events
    ensures Inv(cfg, Ts', Later(cut, CutoffOf(cfg, x)), st', es')
  {
    var cut', r := Later(cut, CutoffOf(cfg, x)), OnCutoff(cfg, st, CutoffOf(cfg, x));
    OnCutoffInv(cfg, Ts, cut, st, es, CutoffOf(cfg, x), r, es');
    if x.Quote? && x.symbol < cfg.symbols {
      if InTime(x.t, cut') {
        AddQuoteInv(cfg, Ts, cut', r.builder, es', x.symbol, x.t, x.bid, x.ask, st', Ts');
      } else {
        LateQuoteDropped(cfg, Ts, cut', r.builder, es', x.symbol, x.t, x.bid, x.ask);
        LateInv(cfg, Ts, cut', r.builder, es', st');
      }
    }
  }

  lemma InitInv(cfg: Config)
    requires WellFormed(cfg) && GoodBuckets(cfg)
    ensures Inv(cfg, AllMinutes(cfg, []), 0, Init(cfg), [])
  {
    var st := Init(cfg);
    forall x
      ensures x !in Pending(st)
    {
      PendingParts(st, x);
    }
    forall j: nat | j < |cfg.subs|
      ensures SubHolds(cfg, st, j, AllMinutes(cfg, [])[cfg.subs[j].symbol], 0, Project([], j))
    {
      assert MinutesOf(cfg, [], cfg.subs[j].symbol) == [];
    }
    forall s: nat | s < cfg.symbols
      ensures Minutes(st, s, AllMinutes(cfg, [])[s], 0)
    {
      assert MinutesOf(cfg, [], s) == [];
    }
  }

  // ---------------------------------------------------------------- streaming equals batch

  /** The historical aggregation of the quotes of a subscription that count: by minute, then by bucket. */
  function Historical(cfg: Config, xs: seq<Input>, j: nat): seq<Candle>
    requires j < |cfg.subs|
  {
    var m1 := Batch(Minute, NS_PER_MINUTE, Accepted(TicksOf(cfg, xs, cfg.subs[j].symbol)));
    if cfg.subs[j].minutes == 1 then m1 else Batch(Floors(cfg, j), Width(cfg, j), m1)
  }

  /** Minutes past the cut cannot change a bucket that closed by it. */
  lemma {:induction false} LaterMinutes(f: Floor, width: int, a: seq<Candle>, b: seq<Candle>, cut: int)
    requires GoodFloor(f, width) && MinuteBars(a + b) && forall c :: c in b ==> c.closeTime > cut
    ensures ClosedBy(Streamed(f, width, a + b), cut) == ClosedBy(Streamed(f, width, a), cut)
    decreases |b|
  {
    if b == [] {
      assert a + b == a;
    } else {
      var n := |b| - 1;
      var front, x := a + b[..n], b[n];
      assert x in b && a + b == front + [x];
      MinuteBarsPrefix(a + b, |front|);
      assert (a + b)[..|front|] == front && (a + b)[|front|] == x;
      LaterMinutes(f, width, a, b[..n], cut);
      LaterMinute(f, width, front, x, cut);
    }
  }

  lemma LaterMinute(f: Floor, width: int, front: seq<Candle>, x: Candle, cut: int)
    requires GoodFloor(f, width) && MinuteBars(front) && Increasing(front)
    requires x.openTime % NS_PER_MINUTE == 0 && x.closeTime == x.openTime + NS_PER_MINUTE && x.closeTime > cut
    ensures ClosedBy(Streamed(f, width, front + [x]), cut) == ClosedBy(Streamed(f, width, front), cut)
  {
    assert (front + [x])[..|front|] == front;
    MinuteFits(f, width, x);
    StreamedShape(f, width, front);
    AddIsPending(f, width, Streamed(f, width, front), x, cut);
  }

  lemma AddIsPending(f: Floor, width: int, bars: seq<Candle>, x: Candle, cut: int)
    requires Spaced(width, bars) && cut < f(x.openTime) + width
    ensures ClosedBy(Add(f, width, bars, x), cut) == ClosedBy(bars, cut)
  {
    var r := Add(f, width, bars, x);
    var n := |r| - 1;
    assert r[n].closeTime > cut;
    assert ClosedBy(r, cut) == ClosedBy(r[..n], cut);
    if |r| == |bars| {
      assert r[..n] == bars[..n];
      assert bars[n].closeTime == r[n].closeTime;
    } else {
      assert r[..n] == bars;
    }
  }

  /** As long as no quote reopens a minute, each series emits exactly the historical bars that have closed by the
      latest cutoff, and all series together are in event order: by close time, then by subscription, none twice. */
  lemma StreamingIsBatch(cfg: Config, xs: seq<Input>)
    requires WellFormed(cfg) && GoodBuckets(cfg) && NoneReopens(cfg, xs)
    ensures forall j: nat :: j < |cfg.subs| ==>
      Project(Run(cfg, xs).events, j) == ClosedBy(Historical(cfg, xs, j), Cut(cfg, xs))
    ensures Ordered(Run(cfg, xs).events)
  {
    RunInv(cfg, xs);
    var cut, r := Cut(cfg, xs), Run(cfg, xs);
    forall j: nat | j < |cfg.subs|
      ensures Project(r.events, j) == ClosedBy(Historical(cfg, xs, j), cut)
    {
      var s := cfg.subs[j].symbol;
      var T := MinutesOf(cfg, xs, s);
      assert Minutes(r.builder, s, AllMinutes(cfg, xs)[s], cut);
      assert SubHolds(cfg, r.builder, j, AllMinutes(cfg, xs)[s], cut, Project(r.events, j));
      SeriesIsBatch(cfg, xs, j, r.builder, T, cut, Project(r.events, j));
    }
  }

  lemma SeriesIsBatch(cfg: Config, xs: seq<Input>, j: nat, st: Builder, T: seq<Candle>, cut: int, E: seq<Candle>)
    requires GoodBuckets(cfg) && j < |cfg.subs| == |st.htf| && MinuteBars(T) && SubHolds(cfg, st, j, T, cut, E)
    requires T == MinutesOf(cfg, xs, cfg.subs[j].symbol)
    ensures E == ClosedBy(Historical(cfg, xs, j), cut)
  {
    StreamedIsBatch(Minute, NS_PER_MINUTE, Accepted(TicksOf(cfg, xs, cfg.subs[j].symbol)));
    if cfg.subs[j].minutes != 1 {
      var f, width := Floors(cfg, j), Width(cfg, j);
      ClosedMinutes(T, cut);
      CutSplits(T, cut);
      LaterMinutes(f, width, ClosedBy(T, cut), OpenAfter(T, cut), cut);
      CutJoin(E, Opt(st.htf[j]), cut);
      CutAll(E, cut);
      CutAll(Opt(st.htf[j]), cut);
      assert E + [] == E;
      StreamedIsBatch(f, width, T);
    }
  }

  /** Quotes that come before their minute has closed by the latest cutoff: for instance all quotes that lag at
      most the grace period. */
  ghost predicate Prompt(cfg: Config, xs: seq<Input>) {
    && (forall i :: 0 <= i < |xs| ==> TimeOf(xs[i]) < NEVER)
    && (forall i :: 1 <= i <= |xs| && xs[i - 1].Quote? ==> InTime(xs[i - 1].t, Cut(cfg, xs[..i])))
  }

  /** Prompt quotes reopen nothing, and all of them are in the historical bars. */
  lemma PromptIsEnough(cfg: Config, xs: seq<Input>, s: nat)
    requires WellFormed(cfg) && Prompt(cfg, xs)
    ensures NoneReopens(cfg, xs) && TicksOf(cfg, xs, s) == AllTicks(xs, s)
  {
    forall i | 1 <= i <= |xs|
      ensures !LastReopens(cfg, xs[..i])
    {
      assert xs[..i][i - 1] == xs[i - 1];
    }
    AllInTime(cfg, xs, s);
  }

  function AllTicks(xs: seq<Input>, s: nat): seq<Candle> {
    if xs == [] then []
    else
      var x := xs[|xs| - 1];
      AllTicks(xs[..|xs| - 1], s) + if x.Quote? && x.symbol == s then [Tick(x.t, x.bid, x.ask)] else []
  }

  lemma {:induction false} AllInTime(cfg: Config, xs: seq<Input>, s: nat)
    requires Prompt(cfg, xs)
    ensures TicksOf(cfg, xs, s) == AllTicks(xs, s)
  {
    if xs != [] {
      var front := xs[..|xs| - 1];
      assert xs[..|xs|] == xs;
      forall i | 1 <= i <= |front| && front[i - 1].Quote?
        ensures InTime(front[i - 1].t, Cut(cfg, front[..i]))
      {
        assert front[..i] == xs[..i] && front[i - 1] == xs[i - 1];
      }
      AllInTime(cfg, front, s);
    }
  }

  // ---------------------------------------------------------------- exactly when it fails

  /** Nothing in the builder is ever late by the cut, at any point of the run. */
  ghost predicate NeverOverdue(cfg: Config, xs: seq<Input>)
    requires WellFormed(cfg)
  {
    forall i :: 0 <= i <= |xs| ==> !Overdue(Run(cfg, xs[..i]).builder, Cut(cfg, xs[..i]))
  }

  /** A run holds nothing back that should be out if and only if no quote reopens a minute. */
  lemma {:induction false} NeverOverdueIffNoneReopens(cfg: Config, xs: seq<Input>)
    requires WellFormed(cfg) && GoodBuckets(cfg) && forall i :: 0 <= i < |xs| ==> TimeOf(xs[i]) < NEVER
    ensures NeverOverdue(cfg, xs) <==> NoneReopens(cfg, xs)
    decreases |xs|
  {
    if xs == [] {
      RunInv(cfg, xs);
      NothingOverdue(cfg, AllMinutes(cfg, xs), Cut(cfg, xs), Run(cfg, xs).builder, Run(cfg, xs).events);
    } else {
      var front, x := xs[..|xs| - 1], xs[|xs| - 1];
      NeverOverdueIffNoneReopens(cfg, front);
      assert xs == front + [x];
      Prefixes(cfg, xs);
      if NoneReopens(cfg, front) {
        RunInv(cfg, front);
        LastOverdueIff(cfg, front, x);
      }
    }
  }

  lemma Prefixes(cfg: Config, xs: seq<Input>)
    requires WellFormed(cfg) && xs != [] && forall i :: 0 <= i < |xs| ==> TimeOf(xs[i]) < NEVER
    ensures var front := xs[..|xs| - 1];
      && (NoneReopens(cfg, xs) <==> NoneReopens(cfg, front) && !LastReopens(cfg, xs))
      && (NeverOverdue(cfg, xs) <==> NeverOverdue(cfg, front) && !Overdue(Run(cfg, xs).builder, Cut(cfg, xs)))
  {
    NonePrefixes(cfg, xs);
    OverduePrefixes(cfg, xs);
  }

  lemma PrefixOfFront(xs: seq<Input>, i: nat)
    requires i < |xs|
    ensures xs[..|xs| - 1][..i] == xs[..i] && xs[..|xs|] == xs
  {}

  lemma NonePrefixes(cfg: Config, xs: seq<Input>)
    requires WellFormed(cfg) && xs != [] && forall i :: 0 <= i < |xs| ==> TimeOf(xs[i]) < NEVER
    ensures NoneReopens(cfg, xs) <==> NoneReopens(cfg, xs[..|xs| - 1]) && !LastReopens(cfg, xs)
  {
    PrefixOfFront(xs, 0);
    if NoneReopens(cfg, xs) {
      NoneBefore(cfg, xs);
    } else {
      var i :| 1 <= i <= |xs| && LastReopens(cfg, xs[..i]);
      if i < |xs| {
        PrefixOfFront(xs, i);
      }
    }
  }

  lemma OverduePrefixes(cfg: Config, xs: seq<Input>)
    requires WellFormed(cfg) && xs != []
    ensures NeverOverdue(cfg, xs) <==>
      NeverOverdue(cfg, xs[..|xs| - 1]) && !Overdue(Run(cfg, xs).builder, Cut(cfg, xs))
  {
    var front := xs[..|xs| - 1];
    PrefixOfFront(xs, 0);
    if NeverOverdue(cfg, xs) {
      forall i: nat | i <= |front|
        ensures !Overdue(Run(cfg, front[..i]).builder, Cut(cfg, front[..i]))
      {
        PrefixOfFront(xs, i);
      }
    } else {
      var i :| 0 <= i <= |xs| && Overdue(Run(cfg, xs[..i]).builder, Cut(cfg, xs[..i]));
      if i < |xs| {
        PrefixOfFront(xs, i);
      }
    }
  }

  lemma LastOverdueIff(cfg: Config, xs: seq<Input>, x: Input)
    requires WellFormed(cfg) && GoodBuckets(cfg) && TimeOf(x) < NEVER
    requires Inv(cfg, AllMinutes(cfg, xs), Cut(cfg, xs), Run(cfg, xs).builder, Run(cfg, xs).events)
    ensures Overdue(Run(cfg, xs + [x]).builder, Cut(cfg, xs + [x])) <==> LastReopens(cfg, xs + [x])
  {
    OneMoreInput(cfg, xs, x);
    var before, Ts, cut := Run(cfg, xs), AllMinutes(cfg, xs), Cut(cfg, xs + [x]);
    var r := OnCutoff(cfg, before.builder, CutoffOf(cfg, x));
    var es := before.events + r.events;
    OnCutoffInv(cfg, Ts, Cut(cfg, xs), before.builder, before.events, CutoffOf(cfg, x), r, es);
    if x.Quote? && x.symbol < cfg.symbols {
      OverdueIffReopened(cfg, Ts, cut, r.builder, es, x.symbol, x.t, x.bid, x.ask);
    } else {
      NothingOverdue(cfg, Ts, cut, r.builder, es);
    }
  }

  // ---------------------------------------------------------------- a quote later than the grace period

  const FIVE: Config := Config([Sub(0, 5)], 1, 0, (t: int, minutes: nat) => t - t % 300_000_000_000)

  const EARLY: Candle := Tick(0, 1.0, 2.0)
  const LATE: Candle := Tick(240_000_000_000, 3.0, 4.0)

  function Bucket(tick: Candle): Candle { tick.(openTime := 0, closeTime := 300_000_000_000) }

  /** Nothing pending, and the minute that closed last. */
  function Empty(until: int, late: nat): Builder { Builder([None], [[]], [None], [until], late, NEVER) }

  function Holding(minute: Candle, until: int): Builder {
    Builder([Some(minute)], [[]], [None], [until], 0, minute.closeTime)
  }

  lemma QuoteIntoEmpty(tick: Candle, until: int)
    requires tick == Tick(tick.openTime, tick.bidO, tick.askO) && tick.openTime % NS_PER_MINUTE == 0
    requires until < tick.openTime + NS_PER_MINUTE < NEVER
    ensures Step(FIVE, Empty(until, 0), Quote(0, tick.openTime, tick.bidO, tick.askO))
      == Emission(Holding(tick.(closeTime := tick.openTime + NS_PER_MINUTE), until), [])
  {
  }

  lemma CallAtSix(minute: Candle, until: int)
    requires 0 <= minute.openTime < minute.closeTime <= 300_000_000_000
    ensures var st := Holding(minute, until);
      && Finished(st.building[0], st.done[0], 360_000_000_000) == [minute]
      && ClosedBy([minute], 360_000_000_000) == [minute] && OpenAfter([minute], 360_000_000_000) == []
      && SubCall(FIVE, st, 0, 360_000_000_000) == (None, [Bucket(minute)])
  {
    var none: seq<Candle> := [];
    assert none + [minute] == [minute];
    CutAll([minute], 360_000_000_000);
    BucketAtSix(minute);
  }

  lemma BucketAtSix(minute: Candle)
    requires 0 <= minute.openTime < minute.closeTime <= 300_000_000_000
    ensures BucketCall(Floors(FIVE, 0), Width(FIVE, 0), None, [minute], 360_000_000_000) == (None, [Bucket(minute)])
  {
    var f, width := Floors(FIVE, 0), Width(FIVE, 0);
    var none: seq<Candle> := [];
    assert [minute][..0] == none && none + none == none && none + [Bucket(minute)] == [Bucket(minute)];
    assert AddMinutes(f, width, None, none) == (None, none);
    assert AddToBucket(f, width, None, minute) == (Some(Bucket(minute)), none);
    assert AddMinutes(f, width, None, [minute]) == (Some(Bucket(minute)), none + none);
  }

  lemma ClockAtSix(minute: Candle, until: int)
    requires 0 <= minute.openTime < minute.closeTime <= 300_000_000_000
    ensures Step(FIVE, Holding(minute, until), Clock(360_000_000_000))
      == Emission(Empty(minute.closeTime, 0), [Event(0, Bucket(minute))])
  {
    var st, cutoff := Holding(minute, until), 360_000_000_000;
    CallAtSix(minute, until);
    OneEvent(Outs(FIVE, st, cutoff), Bucket(minute));
    AllGone(st, minute, cutoff);
    assert CutoffOf(FIVE, Clock(cutoff)) == cutoff;
  }

  lemma OneEvent(outs: seq<seq<Candle>>, c: Candle)
    requires |outs| == 1 && outs[0] == [c]
    ensures Sort(TagAll(outs)) == [Event(0, c)]
  {
    assert outs[..0] == [];
    assert TagAll(outs) == Tag(0, [c]) == [Event(0, c)];
  }

  lemma AllGone(st: Builder, minute: Candle, cutoff: int)
    requires |st.emittedUntil| == 1 && st == Holding(minute, st.emittedUntil[0]) && minute.closeTime <= cutoff
    requires Finished(st.building[0], st.done[0], cutoff) == [minute]
    requires ClosedBy([minute], cutoff) == [minute] && OpenAfter([minute], cutoff) == []
    requires SubCall(FIVE, st, 0, cutoff).0 == None
    ensures Flushed(FIVE, st, cutoff) == Empty(minute.closeTime, 0)
  {
    var r := Emptied(FIVE, st, cutoff);
    assert r.building == [None] && r.done == [[]] && r.htf == [None] && r.emittedUntil == [minute.closeTime];
    NothingPending(r);
  }

  lemma NothingPending(st: Builder)
    requires st.building == [None] && st.done == [[]] && st.htf == [None]
    ensures MinOf(Pending(st)) == NEVER
  {
    forall x
      ensures x !in Pending(st)
    {
      PendingParts(st, x);
    }
  }

  /** A quote into the empty builder, then the clock at six minutes: the bucket goes out. */
  lemma BucketGoesOut(tick: Candle, until: int, r1: Emission, r2: Emission)
    requires tick == Tick(tick.openTime, tick.bidO, tick.askO) && tick.openTime % NS_PER_MINUTE == 0
    requires 0 <= until < tick.openTime + NS_PER_MINUTE <= 300_000_000_000 && 0 <= tick.openTime
    requires r1 == Step(FIVE, Empty(until, 0), Quote(0, tick.openTime, tick.bidO, tick.askO))
    requires Shaped(FIVE, r1.builder) && r2 == Step(FIVE, r1.builder, Clock(360_000_000_000))
    ensures r1.events == [] && r2.builder == Empty(tick.openTime + NS_PER_MINUTE, 0)
    ensures r2.events == [Event(0, Bucket(tick))]
  {
    var minute := tick.(closeTime := tick.openTime + NS_PER_MINUTE);
    QuoteIntoEmpty(tick, until);
    ClockAtSix(minute, until);
    assert r1.builder == Holding(minute, until);
    assert Bucket(minute) == Bucket(tick);
  }

  /** A quote, a clock tick six minutes in, a quote of minute four, and the clock again: the bucket that went
      out at the first tick is opened again by the late quote and goes out a second time. */
  lemma LateQuoteRepeatsABucket(early: Input, late: Input, clock: Input)
    requires early == Quote(0, 0, 1.0, 2.0) && late == Quote(0, 240_000_000_000, 3.0, 4.0)
    requires clock == Clock(360_000_000_000)
    ensures WellFormed(FIVE) && GoodBuckets(FIVE) && !InTime(late.t, CutoffOf(FIVE, clock))
    ensures var r1 := Step(FIVE, Init(FIVE), early);
      var r2 := Step(FIVE, r1.builder, clock);
      var r3 := Step(FIVE, r2.builder, late);
      var r4 := Step(FIVE, r3.builder, clock);
      r2.events == [Event(0, Bucket(EARLY))] && r4.events == [Event(0, Bucket(LATE))]
  {
    FiveIsGood();
    assert Init(FIVE) == Empty(0, 0);
    var r1 := Step(FIVE, Init(FIVE), early);
    var r2 := Step(FIVE, r1.builder, clock);
    BucketGoesOut(EARLY, 0, r1, r2);
    var r3 := Step(FIVE, r2.builder, late);
    BucketGoesOut(LATE, NS_PER_MINUTE, r3, Step(FIVE, r3.builder, clock));
  }

  lemma FiveIsGood()
    ensures WellFormed(FIVE) && GoodBuckets(FIVE)
  {
    var f := Floors(FIVE, 0);
    forall t, u | f(t) <= u < f(t) + 300_000_000_000
      ensures f(u) == f(t)
    {
      SameFive(t / 300_000_000_000, u / 300_000_000_000, t, u);
    }
    forall t | t % NS_PER_MINUTE == 0
      ensures f(t) % NS_PER_MINUTE == 0
    {
      WholeFive(t, t / NS_PER_MINUTE, t / 300_000_000_000);
    }
    assert Width(FIVE, 0) == 300_000_000_000;
  }

  lemma SameFive(p: int, q: int, t: int, u: int)
    requires p == t / 300_000_000_000 && q == u / 300_000_000_000
    requires t - t % 300_000_000_000 <= u < t - t % 300_000_000_000 + 300_000_000_000
    ensures u - u % 300_000_000_000 == t - t % 300_000_000_000
  {
    assert p == q;
  }

  lemma WholeProduct(k: int, x: int)
    requires x == k * NS_PER_MINUTE
    ensures x % NS_PER_MINUTE == 0
  {}

  lemma WholeFive(t: int, p: int, q: int)
    requires t == p * NS_PER_MINUTE && q == t / 300_000_000_000
    ensures (t - t % 300_000_000_000) % NS_PER_MINUTE == 0
  {
    var r := t % 300_000_000_000;
    assert t - r == q * 300_000_000_000 == (5 * q) * NS_PER_MINUTE;
    WholeProduct(5 * q, t - r);
  }
}
