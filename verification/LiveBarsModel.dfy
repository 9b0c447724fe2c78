/** The live bar builder as a function of its state: what a quote or a clock tick does. */
module LiveBarsModel {
  import opened Types
  import opened Events
  import opened Resample

  datatype Sub = Sub(symbol: nat, minutes: nat)

  /** `bucket(t, minutes)` is the open time of the bucket of that timeframe that holds t. */
  datatype Config = Config(subs: seq<Sub>, symbols: nat, grace: int, bucket: (int, nat) -> int)

  /** Per symbol: the minute being built, the minutes built but not yet due, the close of the last minute
      emitted. Per subscription: the open bucket. `nextDue` is the earliest close of anything pending. */
  datatype Builder = Builder(
    building: seq<Option<Candle>>, done: seq<seq<Candle>>, htf: seq<Option<Candle>>,
    emittedUntil: seq<int>, late: nat, nextDue: int)

  const NEVER: int := 0x4000_0000_0000_0000

  ghost predicate WellFormed(cfg: Config) {
    cfg.grace >= 0 && forall j :: 0 <= j < |cfg.subs| ==> cfg.subs[j].symbol < cfg.symbols && cfg.subs[j].minutes > 0
  }

  ghost predicate Shaped(cfg: Config, st: Builder) {
    && |st.building| == |st.done| == |st.emittedUntil| == cfg.symbols
    && |st.htf| == |cfg.subs|
  }

  function Minute(t: int): int { t - t % NS_PER_MINUTE }

  function Floors(cfg: Config, j: nat): Floor
    requires j < |cfg.subs|
  {
    (t: int) => cfg.bucket(t, cfg.subs[j].minutes)
  }

  function Width(cfg: Config, j: nat): int
    requires j < |cfg.subs|
  {
    cfg.subs[j].minutes * NS_PER_MINUTE
  }

  /** A quote as an element to aggregate; the volume counts ticks. */
  function Tick(t: int, bid: real, ask: real): Candle { Candle(t, t, bid, bid, bid, bid, ask, ask, ask, ask, 1.0) }

  function ClosedBy(cs: seq<Candle>, cutoff: int): (r: seq<Candle>)
    ensures forall c :: c in r ==> c.closeTime <= cutoff
  {
    if cs == [] then []
    else ClosedBy(cs[..|cs| - 1], cutoff) + if cs[|cs| - 1].closeTime <= cutoff then [cs[|cs| - 1]] else []
  }

  function OpenAfter(cs: seq<Candle>, cutoff: int): (r: seq<Candle>)
    ensures forall c :: c in r ==> c.closeTime > cutoff
  {
    if cs == [] then []
    else OpenAfter(cs[..|cs| - 1], cutoff) + if cs[|cs| - 1].closeTime > cutoff then [cs[|cs| - 1]] else []
  }

  function Opt(c: Option<Candle>): seq<Candle> { if c.Some? then [c.value] else [] }

  // ---------------------------------------------------------------- the slow path

  predicate IsDue(c: Option<Candle>, cutoff: int) { c.Some? && c.value.closeTime <= cutoff }

  /** A due minute under construction joins the finished ones. */
  function Finished(building: Option<Candle>, done: seq<Candle>, cutoff: int): seq<Candle> {
    if IsDue(building, cutoff) then done + [building.value] else done
  }

  function Still(c: Option<Candle>, cutoff: int): Option<Candle> { if IsDue(c, cutoff) then None else c }

  /** Put a closed minute into the open bucket; a bucket it does not belong to is emitted first. */
  function AddToBucket(f: Floor, width: int, agg: Option<Candle>, b: Candle): (Option<Candle>, seq<Candle>) {
    if agg.Some? && agg.value.openTime <= b.openTime < agg.value.closeTime then (Some(Merge(agg.value, b)), [])
    else if agg.Some? && agg.value.openTime != f(b.openTime) then (Some(Begin(f, width, b)), [agg.value])
    else if agg.None? then (Some(Begin(f, width, b)), [])
    else (Some(Merge(agg.value, b)), [])
  }

  function AddMinutes(f: Floor, width: int, agg: Option<Candle>, due: seq<Candle>): (Option<Candle>, seq<Candle>) {
    if due == [] then (agg, [])
    else
      var (a, es) := AddMinutes(f, width, agg, due[..|due| - 1]);
      var (a', es') := AddToBucket(f, width, a, due[|due| - 1]);
      (a', es + es')
  }

  /** What one higher timeframe does with the minutes that are due: add them, then emit its bucket if it is
      due itself. */
  function BucketCall(
    f: Floor, width: int, agg: Option<Candle>, due: seq<Candle>, cutoff: int): (Option<Candle>, seq<Candle>) {
    var (a, es) := AddMinutes(f, width, agg, due);
    (Still(a, cutoff), es + if IsDue(a, cutoff) then [a.value] else [])
  }

  function DueMinutes(st: Builder, s: nat, cutoff: int): seq<Candle>
    requires s < |st.building| == |st.done|
  {
    ClosedBy(Finished(st.building[s], st.done[s], cutoff), cutoff)
  }

  function SubCall(cfg: Config, st: Builder, j: nat, cutoff: int): (Option<Candle>, seq<Candle>)
    requires WellFormed(cfg) && Shaped(cfg, st) && j < |cfg.subs|
  {
    var due := DueMinutes(st, cfg.subs[j].symbol, cutoff);
    if cfg.subs[j].minutes == 1 then (st.htf[j], due)
    else BucketCall(Floors(cfg, j), Width(cfg, j), st.htf[j], due, cutoff)
  }

  function Tag(j: nat, cs: seq<Candle>): (r: seq<Event>)
    ensures |r| == |cs| && forall i :: 0 <= i < |cs| ==> r[i] == Event(j, cs[i])
  {
    seq(|cs|, i requires 0 <= i < |cs| => Event(j, cs[i]))
  }

  /** What each subscription emits, tagged with its place. */
  function TagAll(outs: seq<seq<Candle>>): seq<Event> {
    if outs == [] then [] else TagAll(outs[..|outs| - 1]) + Tag(|outs| - 1, outs[|outs| - 1])
  }

  function Outs(cfg: Config, st: Builder, cutoff: int): (r: seq<seq<Candle>>)
    requires WellFormed(cfg) && Shaped(cfg, st)
    ensures |r| == |cfg.subs| && forall j :: 0 <= j < |cfg.subs| ==> r[j] == SubCall(cfg, st, j, cutoff).1
  {
    seq(|cfg.subs|, j requires 0 <= j < |cfg.subs| => SubCall(cfg, st, j, cutoff).1)
  }

  function Closes(cs: seq<Option<Candle>>): seq<int> {
    if cs == [] then []
    else Closes(cs[..|cs| - 1]) + if cs[|cs| - 1].Some? then [cs[|cs| - 1].value.closeTime] else []
  }

  function CloseTimes(cs: seq<Candle>): (r: seq<int>)
    ensures |r| == |cs| && forall i :: 0 <= i < |cs| ==> r[i] == cs[i].closeTime
  {
    seq(|cs|, i requires 0 <= i < |cs| => cs[i].closeTime)
  }

  function AllCloses(css: seq<seq<Candle>>): seq<int> {
    if css == [] then [] else AllCloses(css[..|css| - 1]) + CloseTimes(css[|css| - 1])
  }

  function Pending(st: Builder): seq<int> { Closes(st.building) + AllCloses(st.done) + Closes(st.htf) }

  function MinOf(xs: seq<int>): (r: int)
    ensures xs == [] ==> r == NEVER
    ensures xs != [] ==> r in xs
    ensures forall x :: x in xs ==> r <= x
  {
    if xs == [] then NEVER
    else if |xs| == 1 then xs[0]
    else
      assert forall x :: x in xs ==> x == xs[0] || x in xs[1..];
      var m := MinOf(xs[1..]);
      if xs[0] <= m then xs[0] else m
  }

  function LastClose(due: seq<Candle>, before: int): int { if due == [] then before else due[|due| - 1].closeTime }

  /** Everything due at the cutoff leaves the builder. */
  function Emptied(cfg: Config, st: Builder, cutoff: int): (r: Builder)
    requires WellFormed(cfg) && Shaped(cfg, st)
    ensures Shaped(cfg, r)
  {
    var n := cfg.symbols;
    st.(
      building := seq(n, s requires 0 <= s < n => Still(st.building[s], cutoff)),
      done := seq(n, s requires 0 <= s < n => OpenAfter(Finished(st.building[s], st.done[s], cutoff), cutoff)),
      emittedUntil := seq(n, s requires 0 <= s < n => LastClose(DueMinutes(st, s, cutoff), st.emittedUntil[s])),
      htf := seq(|cfg.subs|, j requires 0 <= j < |cfg.subs| => SubCall(cfg, st, j, cutoff).0))
  }

  function Flushed(cfg: Config, st: Builder, cutoff: int): (r: Builder)
    requires WellFormed(cfg) && Shaped(cfg, st)
    ensures Shaped(cfg, r)
  {
    var r := Emptied(cfg, st, cutoff);
    r.(nextDue := MinOf(Pending(r)))
  }

  /** The builder after a call, and the events of the call. */
  datatype Emission = Emission(builder: Builder, events: seq<Event>)

  /** The path without the shortcut. */
  function Slow(cfg: Config, st: Builder, cutoff: int): (r: Emission)
    requires WellFormed(cfg) && Shaped(cfg, st)
    ensures Shaped(cfg, r.builder)
  {
    Emission(Flushed(cfg, st, cutoff), Sort(TagAll(Outs(cfg, st, cutoff))))
  }

  /** Nothing is looked at while the cutoff is before the next due close. */
  function OnCutoff(cfg: Config, st: Builder, cutoff: int): (r: Emission)
    requires WellFormed(cfg) && Shaped(cfg, st)
    ensures Shaped(cfg, r.builder)
  {
    if cutoff < st.nextDue then Emission(st, []) else Slow(cfg, st, cutoff)
  }

  // ---------------------------------------------------------------- a quote

  /** Add a quote of a subscribed symbol, or drop it as late. */
  function AddQuote(cfg: Config, st: Builder, s: nat, t: int, bid: real, ask: real): (r: Builder)
    requires Shaped(cfg, st) && s < cfg.symbols
    ensures Shaped(cfg, r)
  {
    var minute, cur, tick := Minute(t), st.building[s], Tick(t, bid, ask);
    if minute + NS_PER_MINUTE <= st.emittedUntil[s] then st.(late := st.late + 1)
    else if cur.Some? && cur.value.openTime == minute then
      st.(building := st.building[s := Some(Merge(cur.value, tick))])
    else if cur.Some? && minute < cur.value.openTime then st.(late := st.late + 1)
    else
      st.(building := st.building[s := Some(Begin(Minute, NS_PER_MINUTE, tick))],
          done := if cur.Some? then st.done[s := st.done[s] + [cur.value]] else st.done,
          nextDue := if minute + NS_PER_MINUTE < st.nextDue then minute + NS_PER_MINUTE else st.nextDue)
  }

  datatype Input = Clock(now: int) | Quote(symbol: nat, t: int, bid: real, ask: real)

  function TimeOf(x: Input): int { if x.Clock? then x.now else x.t }

  /** Nothing that closes after this is emitted yet. */
  function CutoffOf(cfg: Config, x: Input): int { TimeOf(x) - cfg.grace }

  function Step(cfg: Config, st: Builder, x: Input): (r: Emission)
    requires WellFormed(cfg) && Shaped(cfg, st)
    ensures Shaped(cfg, r.builder)
  {
    var r := OnCutoff(cfg, st, CutoffOf(cfg, x));
    if x.Quote? && x.symbol < cfg.symbols then r.(builder := AddQuote(cfg, r.builder, x.symbol, x.t, x.bid, x.ask))
    else r
  }

  function Init(cfg: Config): (r: Builder)
    ensures Shaped(cfg, r)
  {
    Builder(seq(cfg.symbols, (_: int) => None), seq(cfg.symbols, (_: int) => []), seq(|cfg.subs|, (_: int) => None),
            seq(cfg.symbols, (_: int) => 0), 0, NEVER)
  }

  /** The builder and everything it has emitted after the inputs. */
  function Run(cfg: Config, xs: seq<Input>): (r: Emission)
    requires WellFormed(cfg)
    ensures Shaped(cfg, r.builder)
  {
    if xs == [] then Emission(Init(cfg), [])
    else
      var before := Run(cfg, xs[..|xs| - 1]);
      var r := Step(cfg, before.builder, xs[|xs| - 1]);
      Emission(r.builder, before.events + r.events)
  }
}
