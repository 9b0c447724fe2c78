/** Building bars from smaller bars: one at a time, as the live side does, and in one go, as the historical
    aggregation does. A quote counts as a bar of its own. */
module Resample {
  import opened Types

  /** The open time of the bucket that holds an instant. */
  type Floor = int -> int

  /** What bucket alignment promises: an instant lies in its bucket, and a bucket is the bucket of every
      instant in it. */
  ghost predicate Aligned(f: Floor, width: int) {
    && width > 0
    && (forall t :: f(t) <= t < f(t) + width)
    && (forall t, u :: f(t) <= u < f(t) + width ==> f(u) == f(t))
  }

  /** The bar of one element: it opens with the element's prices and spans the bucket. */
  function Begin(f: Floor, width: int, b: Candle): Candle {
    b.(openTime := f(b.openTime), closeTime := f(b.openTime) + width)
  }

  function Merge(a: Candle, b: Candle): Candle {
    a.(bidH := Max(a.bidH, b.bidH), bidL := Min(a.bidL, b.bidL), bidC := b.bidC,
       askH := Max(a.askH, b.askH), askL := Min(a.askL, b.askL), askC := b.askC,
       volume := a.volume + b.volume)
  }

  /** Add one element to the bars so far. */
  function Add(f: Floor, width: int, bars: seq<Candle>, b: Candle): seq<Candle> {
    if bars != [] && bars[|bars| - 1].openTime == f(b.openTime) then
      bars[..|bars| - 1] + [Merge(bars[|bars| - 1], b)]
    else bars + [Begin(f, width, b)]
  }

  /** One element at a time. */
  function Streamed(f: Floor, width: int, bs: seq<Candle>): seq<Candle> {
    if bs == [] then [] else Add(f, width, Streamed(f, width, bs[..|bs| - 1]), bs[|bs| - 1])
  }

  // ---------------------------------------------------------------- in one go

  function MaxBidH(bs: seq<Candle>): real
    requires bs != []
  {
    if |bs| == 1 then bs[0].bidH else Max(MaxBidH(bs[..|bs| - 1]), bs[|bs| - 1].bidH)
  }

  function MinBidL(bs: seq<Candle>): real
    requires bs != []
  {
    if |bs| == 1 then bs[0].bidL else Min(MinBidL(bs[..|bs| - 1]), bs[|bs| - 1].bidL)
  }

  function MaxAskH(bs: seq<Candle>): real
    requires bs != []
  {
    if |bs| == 1 then bs[0].askH else Max(MaxAskH(bs[..|bs| - 1]), bs[|bs| - 1].askH)
  }

  function MinAskL(bs: seq<Candle>): real
    requires bs != []
  {
    if |bs| == 1 then bs[0].askL else Min(MinAskL(bs[..|bs| - 1]), bs[|bs| - 1].askL)
  }

  function Volume(bs: seq<Candle>): real {
    if bs == [] then 0.0 else Volume(bs[..|bs| - 1]) + bs[|bs| - 1].volume
  }

  /** First open, highest high, lowest low, last close, total volume. */
  function Aggregate(f: Floor, width: int, bs: seq<Candle>): Candle
    requires bs != []
  {
    var a, z := bs[0], bs[|bs| - 1];
    Candle(f(a.openTime), f(a.openTime) + width,
           a.bidO, MaxBidH(bs), MinBidL(bs), z.bidC, a.askO, MaxAskH(bs), MinAskL(bs), z.askC, Volume(bs))
  }

  /** The trailing elements that share the bucket of the last one start here. */
  function LastGroup(f: Floor, bs: seq<Candle>): (n: nat)
    requires bs != []
    ensures n < |bs|
    ensures forall i :: n <= i < |bs| ==> f(bs[i].openTime) == f(bs[|bs| - 1].openTime)
    ensures n > 0 ==> f(bs[n - 1].openTime) != f(bs[|bs| - 1].openTime)
  {
    if |bs| > 1 && f(bs[|bs| - 2].openTime) == f(bs[|bs| - 1].openTime) then LastGroup(f, bs[..|bs| - 1]) else |bs| - 1
  }

  /** Group by bucket, then aggregate each group. */
  function Batch(f: Floor, width: int, bs: seq<Candle>): seq<Candle>
    decreases |bs|
  {
    if bs == [] then []
    else
      var n := LastGroup(f, bs);
      Batch(f, width, bs[..n]) + [Aggregate(f, width, bs[n..])]
  }

  lemma AggregateOne(f: Floor, width: int, b: Candle)
    ensures Aggregate(f, width, [b]) == Begin(f, width, b)
  {
    assert [b][..|[b]| - 1] == [];
    assert Volume([b]) == Volume([]) + b.volume;
  }

  lemma AggregateMore(f: Floor, width: int, bs: seq<Candle>, b: Candle)
    requires bs != []
    ensures Aggregate(f, width, bs + [b]) == Merge(Aggregate(f, width, bs), b)
  {
    assert (bs + [b])[..|bs|] == bs;
  }

  lemma BatchEnd(f: Floor, width: int, bs: seq<Candle>)
    requires bs != []
    ensures var r := Batch(f, width, bs); r != [] && r[|r| - 1].openTime == f(bs[|bs| - 1].openTime)
  {}

  /** One more element either opens a group of its own or joins the last group. */
  lemma BatchAdd(f: Floor, width: int, front: seq<Candle>, b: Candle)
    ensures Batch(f, width, front + [b]) == Add(f, width, Batch(f, width, front), b)
  {
    var bs := front + [b];
    var m, n := |front|, LastGroup(f, bs);
    assert bs[..m] == front;
    if front != [] {
      BatchEnd(f, width, front);
    }
    if n == m {
      assert bs[m..] == [b];
      AggregateOne(f, width, b);
    } else {
      LastGroupIs(f, front, n);
      assert front[..n] == bs[..n] && bs[n..] == front[n..] + [b];
      AggregateMore(f, width, front[n..], b);
      var r := Batch(f, width, front);
      assert r[..|r| - 1] == Batch(f, width, front[..n]);
    }
  }

  lemma {:induction false} LastGroupIs(f: Floor, bs: seq<Candle>, n: nat)
    requires n < |bs| && forall i :: n <= i < |bs| ==> f(bs[i].openTime) == f(bs[|bs| - 1].openTime)
    requires n > 0 ==> f(bs[n - 1].openTime) != f(bs[|bs| - 1].openTime)
    ensures LastGroup(f, bs) == n
    decreases |bs|
  {
    var m := |bs| - 1;
    if n < m {
      assert f(bs[m - 1].openTime) == f(bs[m].openTime);
      LastGroupIs(f, bs[..m], n);
    }
  }

  /** Aggregating bar by bar is aggregating the groups. */
  lemma {:induction false} StreamedIsBatch(f: Floor, width: int, bs: seq<Candle>)
    ensures Streamed(f, width, bs) == Batch(f, width, bs)
    decreases |bs|
  {
    if bs != [] {
      var m := |bs| - 1;
      StreamedIsBatch(f, width, bs[..m]);
      assert bs == bs[..m] + [bs[m]];
      BatchAdd(f, width, bs[..m], bs[m]);
    }
  }

  ghost predicate Increasing(bs: seq<Candle>) { forall i, j :: 0 <= i < j < |bs| ==> bs[i].openTime <= bs[j].openTime }

  lemma FloorMonotone(f: Floor, width: int, t: int, u: int)
    requires Aligned(f, width) && t <= u
    ensures f(t) == f(u) || f(t) + width <= f(u)
  {
    if u >= f(t) + width {
      var v := f(t) + width - 1;
      assert f(v) == f(t);
      assert f(u) <= v ==> f(v) == f(u);
    }
  }

  /** Bars one width long that do not overlap. */
  ghost predicate Spaced(width: int, bars: seq<Candle>) {
    && (forall i :: 0 <= i < |bars| ==> bars[i].closeTime == bars[i].openTime + width)
    && (forall i, j :: 0 <= i < j < |bars| ==> bars[i].closeTime <= bars[j].openTime)
  }

  lemma AddSpaced(f: Floor, width: int, bars: seq<Candle>, b: Candle)
    requires Spaced(width, bars) && width > 0
    requires bars != [] ==>
      bars[|bars| - 1].openTime == f(b.openTime) || bars[|bars| - 1].openTime + width <= f(b.openTime)
    ensures var r := Add(f, width, bars, b);
      Spaced(width, r) && r != [] && r[|r| - 1].openTime == f(b.openTime)
  {
    var n := |bars| - 1;
    forall i | 0 <= i <= n
      ensures bars[i].closeTime <= bars[n].closeTime
    {}
  }

  /** The bars of elements in time order are spaced, and the last element lies in the last bar. */
  lemma {:induction false} StreamedShape(f: Floor, width: int, bs: seq<Candle>)
    requires Aligned(f, width) && Increasing(bs)
    ensures var r := Streamed(f, width, bs);
      Spaced(width, r) && (bs != [] ==> r != [] && r[|r| - 1].openTime == f(bs[|bs| - 1].openTime))
    decreases |bs|
  {
    if bs != [] {
      var m := |bs| - 1;
      StreamedShape(f, width, bs[..m]);
      if m > 0 {
        FloorMonotone(f, width, bs[m - 1].openTime, bs[m].openTime);
      }
      AddSpaced(f, width, Streamed(f, width, bs[..m]), bs[m]);
    }
  }
}
