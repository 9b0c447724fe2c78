/** The strategy registry: an append-only ledger of records, the versions that replay gives, and the operations
    that write to it. */
module Registry {
  import opened Types
  import opened Ladder

  datatype Actor = Evaluator | Validation | Owner | Learning

  datatype Info = Info(strategy: string, version: string, learned: bool, demoOnly: bool, parent: Option<string>)

  datatype Change = Change(from: Option<Stage>, to: Stage, reason: string, actor: Actor, at: int)

  datatype Version = Version(info: Info, stage: Stage, since: int, history: seq<Change>, profile: bool)

  datatype Record =
    | NewVersion(info: Info, at: int)
    | NewProfile(strategy: string, version: string)
    | StageChange(strategy: string, version: string, change: Change)

  /** The ledger, and the versions in the order they entered. */
  datatype Registry = Registry(ledger: seq<Record>, versions: seq<Version>)

  // ---------------------------------------------------------------- printed reasons

  const SWAP_IN: string := "swap: replaces"
  const SWAP_OUT: string := "swap: replaced by"
  const ROLLBACK: string := "rollback:"

  function SwapInReason(champion: string, reason: string): string { SWAP_IN + " " + champion + ": " + reason }

  function SwapOutReason(challenger: string): (r: string)
    ensures SWAP_OUT <= r
  {
    SWAP_OUT + (" " + challenger + "; kept in shadow for rollback")
  }

  function RolledBackReason(champion: string, reason: string): (r: string)
    ensures ROLLBACK <= r
  {
    ROLLBACK + (" " + champion + ": " + reason)
  }

  function RestoredReason(winner: string, reason: string): (r: string)
    ensures ROLLBACK <= r
  {
    ROLLBACK + (" restored over " + winner + ": " + reason)
  }

  predicate IsSpace(c: char) { c == ' ' || c == '\t' || c == '\n' || c == '\r' }

  function BeforeColon(s: string): string { if s == "" || s[0] == ':' then "" else [s[0]] + BeforeColon(s[1..]) }

  function StripLeft(s: string): string { if s != "" && IsSpace(s[0]) then StripLeft(s[1..]) else s }

  function StripRight(s: string): string { if s != "" && IsSpace(s[|s| - 1]) then StripRight(s[..|s| - 1]) else s }

  function Strip(s: string): string { StripRight(StripLeft(s)) }

  /** The name of the old champion in a printed swap reason. */
  function OldChampion(reason: string): string
    requires SWAP_IN <= reason
  {
    Strip(BeforeColon(reason[|SWAP_IN|..]))
  }

  // ---------------------------------------------------------------- replay

  function Find(vs: seq<Version>, strategy: string, version: string): (r: Option<nat>)
    ensures r.Some? ==> r.value < |vs| && vs[r.value].info.strategy == strategy && vs[r.value].info.version == version
    ensures r.Some? ==> forall i :: 0 <= i < r.value ==>
      !(vs[i].info.strategy == strategy && vs[i].info.version == version)
    ensures r.None? ==> forall i :: 0 <= i < |vs| ==>
      !(vs[i].info.strategy == strategy && vs[i].info.version == version)
  {
    if vs == [] then None
    else
      var n := |vs| - 1;
      var r := Find(vs[..n], strategy, version);
      if r.Some? then r else if vs[n].info.strategy == strategy && vs[n].info.version == version then Some(n) else None
  }

  function Entered(info: Info, at: int): Version {
    Version(info, Candidate, at, [Change(None, Candidate, "submitted", Validation, at)], false)
  }

  function Moved(v: Version, c: Change): Version { v.(stage := c.to, since := c.at, history := v.history + [c]) }

  /** One ledger record; a record of an unknown version changes nothing. */
  function Apply(vs: seq<Version>, r: Record): (n: seq<Version>)
    ensures !r.NewVersion? ==> |n| == |vs|
  {
    match r
    case NewVersion(info, at) =>
      var k := Find(vs, info.strategy, info.version);
      if k.Some? then vs[k.value := Entered(info, at)] else vs + [Entered(info, at)]
    case NewProfile(s, v) =>
      var k := Find(vs, s, v);
      if k.Some? then vs[k.value := vs[k.value].(profile := true)] else vs
    case StageChange(s, v, c) =>
      var k := Find(vs, s, v);
      if k.Some? then vs[k.value := Moved(vs[k.value], c)] else vs
  }

  function Replay(ledger: seq<Record>): seq<Version> {
    if ledger == [] then [] else Apply(Replay(ledger[..|ledger| - 1]), ledger[|ledger| - 1])
  }

  function Recorded(r: Registry, rec: Record): Registry { Registry(r.ledger + [rec], Apply(r.versions, rec)) }

  // ---------------------------------------------------------------- operations; None: an exception, nothing written

  /** Write a stage change of a version, from the stage it is in. */
  function WriteChange(r: Registry, k: nat, to: Stage, reason: string, actor: Actor, now: int): (n: Registry)
    requires k < |r.versions|
    ensures |n.versions| == |r.versions|
  {
    var v := r.versions[k];
    Recorded(r, StageChange(v.info.strategy, v.info.version, Change(Some(v.stage), to, reason, actor, now)))
  }

  predicate Legal(v: Version, to: Stage, actor: Actor) {
    && (Allowed(v.stage, to) || (to == Retired && actor == Owner && v.stage != Retired))
    && !(v.info.demoOnly && v.stage == Shadow && to != Retired && to != DemoOnly)
    && (to == DemoOnly ==> v.info.demoOnly && actor == Owner)
    && !(v.stage == Candidate && to == Shadow && !v.profile && !v.info.demoOnly)
  }

  function Transition(
    r: Registry, s: string, v: string, to: Stage, reason: string, actor: Actor, now: int): Option<Registry> {
    var k := Find(r.versions, s, v);
    if k.None? || !Legal(r.versions[k.value], to, actor) then None
    else Some(WriteChange(r, k.value, to, reason, actor, now))
  }

  function Submit(r: Registry, info: Info, profile: bool, now: int): Option<Registry> {
    if Find(r.versions, info.strategy, info.version).Some? then None
    else
      var r1 := Recorded(r, NewVersion(info, now));
      Some(if profile then Recorded(r1, NewProfile(info.strategy, info.version)) else r1)
  }

  function SetProfile(r: Registry, s: string, v: string): Option<Registry> {
    if Find(r.versions, s, v).None? then None else Some(Recorded(r, NewProfile(s, v)))
  }

  predicate MaySwap(champ: Version, chal: Version) {
    chal.info.learned && chal.info.parent == Some(champ.info.version) && chal.stage == Shadow && Money(champ.stage)
  }

  function Swap(
    r: Registry, s: string, champion: string, challenger: string, reason: string, now: int): Option<Registry> {
    var c, d := Find(r.versions, s, champion), Find(r.versions, s, challenger);
    if c.None? || d.None? || !MaySwap(r.versions[c.value], r.versions[d.value]) then None
    else
      var stage := r.versions[c.value].stage;
      var r1 := WriteChange(r, d.value, stage, SwapInReason(champion, reason), Evaluator, now);
      Some(WriteChange(r1, c.value, Shadow, SwapOutReason(challenger), Evaluator, now))
  }

  datatype LastSwap = LastSwap(at: int, winner: string, loser: string, stage: Stage)

  /** The latest swap in one history; the first of equals counts. */
  function LatestIn(version: string, hs: seq<Change>, best: Option<LastSwap>): Option<LastSwap> {
    if hs == [] then best
    else
      var h := hs[|hs| - 1];
      var b := LatestIn(version, hs[..|hs| - 1], best);
      if SWAP_IN <= h.reason && (b.None? || h.at > b.value.at) then
        Some(LastSwap(h.at, version, OldChampion(h.reason), h.to))
      else b
  }

  function LatestSwap(vs: seq<Version>, s: string): Option<LastSwap> {
    if vs == [] then None
    else
      var v, best := vs[|vs| - 1], LatestSwap(vs[..|vs| - 1], s);
      if v.info.strategy == s then LatestIn(v.info.version, v.history, best) else best
  }

  function Rollback(r: Registry, s: string, reason: string, now: int): Option<Registry> {
    var last := LatestSwap(r.versions, s);
    if last.None? then None
    else
      var l := last.value;
      var was, won := Find(r.versions, s, l.loser), Find(r.versions, s, l.winner);
      if was.None? || won.None? || r.versions[was.value].stage != Shadow then None
      else
        var r1 :=
          if r.versions[won.value].stage != Shadow then
            WriteChange(r, won.value, Shadow, RolledBackReason(l.loser, reason), Evaluator, now)
          else r;
        Some(WriteChange(r1, was.value, l.stage, RestoredReason(l.winner, reason), Evaluator, now))
  }

  function PromoteCandidate(
    r: Registry, s: string, v: string, passed: bool, synthetic: bool, now: int): Option<Registry> {
    var k := Find(r.versions, s, v);
    if k.None? then None
    else if r.versions[k.value].info.demoOnly then
      Transition(r, s, v, Shadow, "demo_only: plumbing test", Validation, now)
    else if passed && !synthetic then Transition(r, s, v, Shadow, "passed validation", Validation, now)
    else
      var why := if !passed then "failed validation" else "validated on synthetic data only";
      Transition(r, s, v, Retired, why, Validation, now)
  }

  function CountIn(hs: seq<Change>, to: Stage, since: int): nat {
    if hs == [] then 0
    else
      var h := hs[|hs| - 1];
      CountIn(hs[..|hs| - 1], to, since) + if h.to == to && h.at >= since then 1 else 0
  }

  function PromotionsTo(vs: seq<Version>, to: Stage, since: int): nat {
    if vs == [] then 0 else PromotionsTo(vs[..|vs| - 1], to, since) + CountIn(vs[|vs| - 1].history, to, since)
  }

  /** The evaluator's move from micro to live, held back by the weekly limit. */
  function PromoteToLive(r: Registry, s: string, v: string, limit: nat, now: int): Option<Registry> {
    var k := Find(r.versions, s, v);
    if k.None? || r.versions[k.value].stage != Micro || PromotionsTo(r.versions, Live, now - WEEK) >= limit then None
    else Transition(r, s, v, Live, "micro targets met", Evaluator, now)
  }

  // ---------------------------------------------------------------- runs

  datatype Step =
    | DoSubmit(info: Info, profile: bool)
    | DoProfile(s: string, v: string)
    | DoTransition(s: string, v: string, to: Stage, reason: string, actor: Actor)
    | DoSwap(s: string, champion: string, challenger: string, reason: string)
    | DoRollback(s: string, reason: string)
    | DoPromoteCandidate(s: string, v: string, passed: bool, synthetic: bool)
    | DoPromoteToLive(s: string, v: string)

  /** A step at a time; an operation that raises leaves the registry as it is. */
  datatype Timed = Timed(now: int, step: Step)

  function Attempt(r: Registry, x: Timed, limit: nat): Option<Registry> {
    match x.step
    case DoSubmit(info, profile) => Submit(r, info, profile, x.now)
    case DoProfile(s, v) => SetProfile(r, s, v)
    case DoTransition(s, v, to, reason, actor) => Transition(r, s, v, to, reason, actor, x.now)
    case DoSwap(s, champion, challenger, reason) => Swap(r, s, champion, challenger, reason, x.now)
    case DoRollback(s, reason) => Rollback(r, s, reason, x.now)
    case DoPromoteCandidate(s, v, passed, synthetic) => PromoteCandidate(r, s, v, passed, synthetic, x.now)
    case DoPromoteToLive(s, v) => PromoteToLive(r, s, v, limit, x.now)
  }

  function Next(r: Registry, x: Timed, limit: nat): Registry {
    var a := Attempt(r, x, limit);
    if a.Some? then a.value else r
  }

  function Run(xs: seq<Timed>, limit: nat): Registry {
    if xs == [] then Registry([], []) else Next(Run(xs[..|xs| - 1], limit), xs[|xs| - 1], limit)
  }
}
