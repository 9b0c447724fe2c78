/** What every run of the registry keeps, and that a rollback after a swap gives back exactly what the swap took. */
module RegistryLaws {
  import opened Types
  import opened Ladder
  import opened Registry

  // ---------------------------------------------------------------- one key, one version

  predicate SameKey(a: Version, b: Version) { a.info.strategy == b.info.strategy && a.info.version == b.info.version }

  ghost predicate Distinct(vs: seq<Version>) { forall i, j :: 0 <= i < j < |vs| ==> !SameKey(vs[i], vs[j]) }

  lemma FindOwn(vs: seq<Version>, k: nat)
    requires Distinct(vs) && k < |vs|
    ensures Find(vs, vs[k].info.strategy, vs[k].info.version) == Some(k)
  {
    var f := Find(vs, vs[k].info.strategy, vs[k].info.version);
    if f.Some? && f.value != k {
      assert SameKey(vs[f.value], vs[k]);
    }
  }

  /** Same keys, except for new ones at the end. */
  ghost predicate Extends(vs: seq<Version>, ws: seq<Version>) {
    |vs| <= |ws| && forall i :: 0 <= i < |vs| ==> ws[i].info == vs[i].info
  }

  lemma UpdateDistinct(vs: seq<Version>, k: nat, v: Version)
    requires Distinct(vs) && k < |vs| && v.info == vs[k].info
    ensures Distinct(vs[k := v]) && Extends(vs, vs[k := v])
  {
    var ws := vs[k := v];
    forall i, j | 0 <= i < j < |ws|
      ensures !SameKey(ws[i], ws[j])
    {
      assert !SameKey(vs[i], vs[j]);
    }
  }

  lemma AppendDistinct(vs: seq<Version>, info: Info, at: int)
    requires Distinct(vs) && Find(vs, info.strategy, info.version).None?
    ensures Apply(vs, NewVersion(info, at)) == vs + [Entered(info, at)]
    ensures Distinct(vs + [Entered(info, at)]) && Extends(vs, vs + [Entered(info, at)])
  {}

  // ---------------------------------------------------------------- what a single edit may do

  /** One ledger record at a time: a new version, a profile, or a change from the stage the version is in. */
  datatype Edit =
    | Enter(info: Info, at: int)
    | GiveProfile(k: nat)
    | Move(k: nat, to: Stage, reason: string, actor: Actor, at: int)

  predicate CanEdit(vs: seq<Version>, e: Edit) {
    match e
    case Enter(info, _) => Find(vs, info.strategy, info.version).None?
    case GiveProfile(k) => k < |vs|
    case Move(k, _, _, _, _) => k < |vs|
  }

  function RecordOf(vs: seq<Version>, e: Edit): Record
    requires CanEdit(vs, e)
  {
    match e
    case Enter(info, at) => NewVersion(info, at)
    case GiveProfile(k) => NewProfile(vs[k].info.strategy, vs[k].info.version)
    case Move(k, to, reason, actor, at) =>
      StageChange(vs[k].info.strategy, vs[k].info.version, Change(Some(vs[k].stage), to, reason, actor, at))
  }

  function Edited(vs: seq<Version>, e: Edit): seq<Version>
    requires CanEdit(vs, e)
  {
    match e
    case Enter(info, at) => vs + [Entered(info, at)]
    case GiveProfile(k) => vs[k := vs[k].(profile := true)]
    case Move(k, to, reason, actor, at) => vs[k := Moved(vs[k], Change(Some(vs[k].stage), to, reason, actor, at))]
  }

  lemma EditApplies(vs: seq<Version>, e: Edit)
    requires Distinct(vs) && CanEdit(vs, e)
    ensures Apply(vs, RecordOf(vs, e)) == Edited(vs, e) && Distinct(Edited(vs, e)) && Extends(vs, Edited(vs, e))
  {
    match e {
      case Enter(info, at) => AppendDistinct(vs, info, at);
      case GiveProfile(k) =>
        FindOwn(vs, k);
        UpdateDistinct(vs, k, vs[k].(profile := true));
      case Move(k, to, reason, actor, at) =>
        FindOwn(vs, k);
        UpdateDistinct(vs, k, Edited(vs, e)[k]);
    }
  }

  /** The edits of a step, in order. */
  function Edits(r: Registry, x: Timed, limit: nat): (es: seq<Edit>)
  {
    if Attempt(r, x, limit).None? then []
    else
      match x.step
      case DoSubmit(info, profile) => [Enter(info, x.now)] + if profile then [GiveProfile(|r.versions|)] else []
      case DoProfile(s, v) => [GiveProfile(Find(r.versions, s, v).value)]
      case DoTransition(s, v, to, reason, actor) => [Move(Find(r.versions, s, v).value, to, reason, actor, x.now)]
      case DoPromoteToLive(s, v) => [Move(Find(r.versions, s, v).value, Live, "micro targets met", Evaluator, x.now)]
      case DoPromoteCandidate(s, v, passed, synthetic) =>
        var k := Find(r.versions, s, v).value;
        if r.versions[k].info.demoOnly then [Move(k, Shadow, "demo_only: plumbing test", Validation, x.now)]
        else if passed && !synthetic then [Move(k, Shadow, "passed validation", Validation, x.now)]
        else
          var why := if !passed then "failed validation" else "validated on synthetic data only";
          [Move(k, Retired, why, Validation, x.now)]
      case DoSwap(s, champion, challenger, reason) =>
        var c, d := Find(r.versions, s, champion).value, Find(r.versions, s, challenger).value;
        [Move(d, r.versions[c].stage, SwapInReason(champion, reason), Evaluator, x.now),
         Move(c, Shadow, SwapOutReason(challenger), Evaluator, x.now)]
      case DoRollback(s, reason) =>
        var l := LatestSwap(r.versions, s).value;
        var was, won := Find(r.versions, s, l.loser).value, Find(r.versions, s, l.winner).value;
        (if r.versions[won].stage == Shadow then []
         else [Move(won, Shadow, RolledBackReason(l.loser, reason), Evaluator, x.now)])
        + [Move(was, l.stage, RestoredReason(l.winner, reason), Evaluator, x.now)]
  }

  predicate CanEditAll(vs: seq<Version>, es: seq<Edit>)
    decreases |es|
  {
    es == [] || (CanEdit(vs, es[0]) && CanEditAll(Edited(vs, es[0]), es[1..]))
  }

  function EditedAll(r: Registry, es: seq<Edit>): Registry
    requires CanEditAll(r.versions, es)
    decreases |es|
  {
    if es == [] then r
    else EditedAll(Registry(r.ledger + [RecordOf(r.versions, es[0])], Edited(r.versions, es[0])), es[1..])
  }

  lemma OneEdit(r: Registry, e: Edit)
    requires CanEdit(r.versions, e)
    ensures CanEditAll(r.versions, [e])
    ensures EditedAll(r, [e]) == Registry(r.ledger + [RecordOf(r.versions, e)], Edited(r.versions, e))
  {
    var rest: seq<Edit> := [e][1..];
    assert rest == [];
    assert CanEditAll(Edited(r.versions, e), rest);
  }

  lemma TwoEdits(r: Registry, e: Edit, f: Edit)
    requires CanEdit(r.versions, e) && CanEdit(Edited(r.versions, e), f)
    ensures CanEditAll(r.versions, [e, f])
    ensures EditedAll(r, [e, f])
      == EditedAll(Registry(r.ledger + [RecordOf(r.versions, e)], Edited(r.versions, e)), [f])
  {
    assert [e, f][1..] == [f];
    OneEdit(Registry(r.ledger + [RecordOf(r.versions, e)], Edited(r.versions, e)), f);
  }

  /** The registry after one edit. */
  function Done(r: Registry, e: Edit): Registry
    requires CanEdit(r.versions, e)
  {
    Registry(r.ledger + [RecordOf(r.versions, e)], Edited(r.versions, e))
  }

  lemma WriteIsEdit(r: Registry, k: nat, to: Stage, reason: string, actor: Actor, now: int)
    requires Distinct(r.versions) && k < |r.versions|
    ensures var e := Move(k, to, reason, actor, now);
      && WriteChange(r, k, to, reason, actor, now) == Done(r, e)
      && Distinct(Done(r, e).versions) && Extends(r.versions, Done(r, e).versions)
  {
    EditApplies(r.versions, Move(k, to, reason, actor, now));
  }

  /** A step is its edits. */
  lemma StepIsEdits(r: Registry, x: Timed, limit: nat)
    requires Distinct(r.versions)
    ensures CanEditAll(r.versions, Edits(r, x, limit)) && Next(r, x, limit) == EditedAll(r, Edits(r, x, limit))
  {
    if Attempt(r, x, limit).Some? {
      match x.step {
        case DoSubmit(info, profile) => SubmitIsEdits(r, info, profile, x.now);
        case DoProfile(s, v) =>
          var e := GiveProfile(Find(r.versions, s, v).value);
          EditApplies(r.versions, e);
          OneEdit(r, e);
        case DoSwap(s, champion, challenger, reason) => SwapIsEdits(r, s, champion, challenger, reason, x.now, limit);
        case DoRollback(s, reason) => RollbackIsEdits(r, s, reason, x.now, limit);
        case _ => MoveIsEdit(r, x, limit);
      }
    }
  }

  lemma MoveIsEdit(r: Registry, x: Timed, limit: nat)
    requires Distinct(r.versions) && Attempt(r, x, limit).Some?
    requires x.step.DoTransition? || x.step.DoPromoteCandidate? || x.step.DoPromoteToLive?
    ensures CanEditAll(r.versions, Edits(r, x, limit)) && Next(r, x, limit) == EditedAll(r, Edits(r, x, limit))
  {
    var e := Edits(r, x, limit)[0];
    assert Edits(r, x, limit) == [e];
    WriteIsEdit(r, e.k, e.to, e.reason, e.actor, e.at);
    OneEdit(r, e);
  }

  lemma SubmitIsEdits(r: Registry, info: Info, profile: bool, now: int)
    requires Distinct(r.versions) && Submit(r, info, profile, now).Some?
    ensures var es := [Enter(info, now)] + if profile then [GiveProfile(|r.versions|)] else [];
      CanEditAll(r.versions, es) && Submit(r, info, profile, now).value == EditedAll(r, es)
  {
    var e := Enter(info, now);
    EditApplies(r.versions, e);
    var r1 := Done(r, e);
    if profile {
      var f := GiveProfile(|r.versions|);
      EditApplies(r1.versions, f);
      TwoEdits(r, e, f);
      OneEdit(r1, f);
      assert [e] + [f] == [e, f];
    } else {
      OneEdit(r, e);
      assert [e] + [] == [e];
    }
  }

  lemma SwapIsEdits(r: Registry, s: string, champion: string, challenger: string, reason: string, now: int, limit: nat)
    requires Distinct(r.versions) && Swap(r, s, champion, challenger, reason, now).Some?
    ensures var es := Edits(r, Timed(now, DoSwap(s, champion, challenger, reason)), limit);
      CanEditAll(r.versions, es) && Swap(r, s, champion, challenger, reason, now).value == EditedAll(r, es)
  {
    var es := Edits(r, Timed(now, DoSwap(s, champion, challenger, reason)), limit);
    var e, f := es[0], es[1];
    assert es == [e, f];
    WriteIsEdit(r, e.k, e.to, e.reason, e.actor, e.at);
    var r1 := Done(r, e);
    WriteIsEdit(r1, f.k, f.to, f.reason, f.actor, f.at);
    TwoEdits(r, e, f);
    OneEdit(r1, f);
  }

  lemma RollbackIsEdits(r: Registry, s: string, reason: string, now: int, limit: nat)
    requires Distinct(r.versions) && Rollback(r, s, reason, now).Some?
    ensures var es := Edits(r, Timed(now, DoRollback(s, reason)), limit);
      CanEditAll(r.versions, es) && Rollback(r, s, reason, now).value == EditedAll(r, es)
  {
    var es := Edits(r, Timed(now, DoRollback(s, reason)), limit);
    var e := es[0];
    WriteIsEdit(r, e.k, e.to, e.reason, e.actor, e.at);
    var r1 := Done(r, e);
    if |es| == 1 {
      assert es == [e];
      OneEdit(r, e);
    } else {
      var f := es[1];
      assert es == [e, f];
      WriteIsEdit(r1, f.k, f.to, f.reason, f.actor, f.at);
      TwoEdits(r, e, f);
      OneEdit(r1, f);
    }
  }

  // ---------------------------------------------------------------- replay, and histories edge to edge

  /** A history starts with the entry as candidate, every change starts from the stage before it, and the
      version is where the last one led, since then. */
  ghost predicate Chained(v: Version) {
    && v.history != []
    && v.history[0].from.None? && v.history[0].to == Candidate
    && (forall i :: 0 <= i < |v.history| - 1 ==> v.history[i + 1].from == Some(v.history[i].to))
    && v.stage == v.history[|v.history| - 1].to && v.since == v.history[|v.history| - 1].at
  }

  ghost predicate Replayed(r: Registry) {
    && r.versions == Replay(r.ledger)
    && Distinct(r.versions)
    && forall i :: 0 <= i < |r.versions| ==> Chained(r.versions[i])
  }

  lemma EditReplayed(r: Registry, e: Edit)
    requires Replayed(r) && CanEdit(r.versions, e)
    ensures Replayed(Done(r, e))
  {
    EditApplies(r.versions, e);
    assert (r.ledger + [RecordOf(r.versions, e)])[..|r.ledger|] == r.ledger;
    if e.Move? {
      MovedChained(r.versions[e.k], e.to, e.reason, e.actor, e.at);
    }
  }

  lemma MovedChained(v: Version, to: Stage, reason: string, actor: Actor, at: int)
    requires Chained(v)
    ensures Chained(Moved(v, Change(Some(v.stage), to, reason, actor, at)))
  {}

  lemma {:induction false} EditsReplayed(r: Registry, es: seq<Edit>)
    requires Replayed(r) && CanEditAll(r.versions, es)
    ensures Replayed(EditedAll(r, es))
    decreases |es|
  {
    if es != [] {
      EditReplayed(r, es[0]);
      EditsReplayed(Done(r, es[0]), es[1..]);
    }
  }

  /** At every point of every run the versions are the replay of the ledger, each key has one version, and every
      history chains edge to edge from candidate to the present stage. */
  lemma {:induction false} StateIsReplay(xs: seq<Timed>, limit: nat)
    ensures Replayed(Run(xs, limit))
  {
    if xs != [] {
      var r, x := Run(xs[..|xs| - 1], limit), xs[|xs| - 1];
      StateIsReplay(xs[..|xs| - 1], limit);
      StepIsEdits(r, x, limit);
      EditsReplayed(r, Edits(r, x, limit));
    }
  }

  // ---------------------------------------------------------------- reading a printed reason back

  /** A version name that a printed reason gives back. */
  predicate Clean(name: string) { ':' !in name && Strip(name) == name }

  lemma {:induction false} BeforeFirstColon(a: string, b: string)
    ensures ':' !in a ==> BeforeColon(a + ":" + b) == a
    ensures ':' !in BeforeColon(a)
  {
    if a == "" {
      assert a + ":" + b == ":" + b;
    } else {
      assert a + ":" + b == [a[0]] + (a[1..] + ":" + b);
      BeforeFirstColon(a[1..], b);
      assert a == [a[0]] + a[1..];
    }
  }

  lemma {:induction false} StripKeeps(s: string)
    ensures ':' !in s ==> ':' !in StripLeft(s) && ':' !in StripRight(s)
    decreases |s|
  {
    if s != "" {
      StripKeeps(s[1..]);
      StripKeeps(s[..|s| - 1]);
    }
  }

  /** Printing a swap reason and reading the old champion back gives the name exactly when the name has no colon
      and no blanks around it. */
  lemma ReasonRoundTrip(champion: string, reason: string)
    ensures SWAP_IN <= SwapInReason(champion, reason)
    ensures OldChampion(SwapInReason(champion, reason)) == champion <==> Clean(champion)
  {
    var printed := SwapInReason(champion, reason);
    var tail := printed[|SWAP_IN|..];
    assert tail == " " + champion + ": " + reason;
    assert " " + champion + ": " + reason == (" " + champion) + ":" + (" " + reason);
    BeforeFirstColon(" " + champion, " " + reason);
    BeforeFirstColon(tail, "");
    if ':' !in champion {
      assert ':' !in " " + champion;
      assert (" " + champion)[1..] == champion;
      assert StripLeft(" " + champion) == StripLeft(champion);
    } else {
      StripKeeps(BeforeColon(tail));
      StripKeeps(StripLeft(BeforeColon(tail)));
    }
  }

  // ---------------------------------------------------------------- ladder safety

  /** The version has been in shadow or in a money stage. */
  ghost predicate Past(v: Version) {
    exists i :: 0 <= i < |v.history| && (v.history[i].to == Shadow || Money(v.history[i].to))
  }

  ghost predicate Has(vs: seq<Version>, s: string, name: string, demoOnly: bool) {
    exists i :: 0 <= i < |vs| && vs[i].info.strategy == s && vs[i].info.version == name
      && vs[i].info.demoOnly == demoOnly
  }

  /** A learned version has its parent's demo_only flag. */
  ghost predicate Inherits(vs: seq<Version>, info: Info) {
    info.learned && info.parent.Some? ==> Has(vs, info.strategy, info.parent.value, info.demoOnly)
  }

  /** What a swap mark says: the version took a money stage from one that is not demo_only. */
  ghost predicate TrueMark(vs: seq<Version>, s: string, c: Change) {
    SWAP_IN <= c.reason ==> Money(c.to) && Has(vs, s, OldChampion(c.reason), false)
  }

  ghost predicate Fine(vs: seq<Version>, v: Version) {
    && Chained(v)
    && (Past(v) ==> v.profile || v.info.demoOnly)
    && (Money(v.stage) ==> !v.info.demoOnly)
    && (v.stage == DemoOnly ==> v.info.demoOnly)
    && Clean(v.info.version)
    && Inherits(vs, v.info)
    && (forall c :: c in v.history ==> TrueMark(vs, v.info.strategy, c))
  }

  ghost predicate AllFine(vs: seq<Version>) { Distinct(vs) && forall i :: 0 <= i < |vs| ==> Fine(vs, vs[i]) }

  /** What an edit must respect. */
  ghost predicate SafeEdit(vs: seq<Version>, e: Edit)
    requires CanEdit(vs, e)
  {
    match e
    case Enter(info, _) => Clean(info.version) && Inherits(vs, info)
    case GiveProfile(_) => true
    case Move(k, to, reason, actor, at) =>
      && (to == Shadow || Money(to) ==> vs[k].profile || vs[k].info.demoOnly)
      && (Money(to) ==> !vs[k].info.demoOnly)
      && (to == DemoOnly ==> vs[k].info.demoOnly)
      && TrueMark(vs, vs[k].info.strategy, Change(Some(vs[k].stage), to, reason, actor, at))
  }

  lemma HasMore(vs: seq<Version>, ws: seq<Version>, s: string, name: string, demoOnly: bool)
    requires Extends(vs, ws) && Has(vs, s, name, demoOnly)
    ensures Has(ws, s, name, demoOnly)
  {
    var i :| 0 <= i < |vs| && vs[i].info.strategy == s && vs[i].info.version == name && vs[i].info.demoOnly == demoOnly;
    assert ws[i].info == vs[i].info;
  }

  lemma FineMore(vs: seq<Version>, ws: seq<Version>, v: Version)
    requires Extends(vs, ws) && Fine(vs, v)
    ensures Fine(ws, v)
  {
    if v.info.learned && v.info.parent.Some? {
      HasMore(vs, ws, v.info.strategy, v.info.parent.value, v.info.demoOnly);
    }
    forall c | c in v.history
      ensures TrueMark(ws, v.info.strategy, c)
    {
      assert TrueMark(vs, v.info.strategy, c);
      if SWAP_IN <= c.reason {
        HasMore(vs, ws, v.info.strategy, OldChampion(c.reason), false);
      }
    }
  }

  lemma MovedFine(vs: seq<Version>, k: nat, to: Stage, reason: string, actor: Actor, at: int)
    requires k < |vs| && Fine(vs, vs[k]) && SafeEdit(vs, Move(k, to, reason, actor, at))
    ensures Fine(vs, Moved(vs[k], Change(Some(vs[k].stage), to, reason, actor, at)))
  {
    var v, c := vs[k], Change(Some(vs[k].stage), to, reason, actor, at);
    var m := Moved(v, c);
    MovedChained(v, to, reason, actor, at);
    if Past(m) && !(to == Shadow || Money(to)) {
      var i :| 0 <= i < |m.history| && (m.history[i].to == Shadow || Money(m.history[i].to));
      assert v.history[i] == m.history[i];
      assert Past(v);
    }
  }

  lemma EnteredFine(vs: seq<Version>, info: Info, at: int)
    requires Clean(info.version) && Inherits(vs, info)
    ensures Fine(vs, Entered(info, at))
  {
    var v := Entered(info, at);
    assert v.history[0] == Change(None, Candidate, "submitted", Validation, at);
  }

  lemma ProfiledFine(vs: seq<Version>, v: Version)
    requires Fine(vs, v)
    ensures Fine(vs, v.(profile := true))
  {
    assert Chained(v.(profile := true));
  }

  lemma SafeEditKeeps(vs: seq<Version>, e: Edit)
    requires AllFine(vs) && CanEdit(vs, e) && SafeEdit(vs, e)
    ensures AllFine(Edited(vs, e))
  {
    EditApplies(vs, e);
    var ws := Edited(vs, e);
    forall i: nat | i < |ws|
      ensures Fine(ws, ws[i])
    {
      EditedFine(vs, e, i);
      FineMore(vs, ws, ws[i]);
    }
  }

  lemma EditedFine(vs: seq<Version>, e: Edit, i: nat)
    requires AllFine(vs) && CanEdit(vs, e) && SafeEdit(vs, e) && i < |Edited(vs, e)|
    ensures Fine(vs, Edited(vs, e)[i])
  {
    match e {
      case Enter(info, at) =>
        if i == |vs| {
          EnteredFine(vs, info, at);
        }
      case GiveProfile(k) => ProfiledFine(vs, vs[k]);
      case Move(k, to, reason, actor, at) => MovedFine(vs, k, to, reason, actor, at);
    }
  }

  /** Being in a stage is having got there. */
  lemma StageIsPast(vs: seq<Version>, v: Version)
    requires Fine(vs, v) && (v.stage == Shadow || Money(v.stage))
    ensures v.profile || v.info.demoOnly
  {
    assert v.history[|v.history| - 1].to == v.stage;
    assert Past(v);
  }

  // ---------------------------------------------------------------- where the latest swap comes from

  /** The swap is one of these marks. */
  ghost predicate FromMark(v: Version, l: LastSwap) {
    && v.info.version == l.winner
    && exists i :: 0 <= i < |v.history| && SWAP_IN <= v.history[i].reason && v.history[i].at == l.at
         && v.history[i].to == l.stage && OldChampion(v.history[i].reason) == l.loser
  }

  ghost predicate FromMarks(vs: seq<Version>, s: string, l: LastSwap) {
    exists i :: 0 <= i < |vs| && vs[i].info.strategy == s && FromMark(vs[i], l)
  }

  lemma {:induction false} LatestInFrom(v: Version, n: nat, best: Option<LastSwap>)
    requires n <= |v.history|
    ensures var r := LatestIn(v.info.version, v.history[..n], best);
      r == best || (r.Some? && FromMark(v, r.value))
  {
    if n > 0 {
      LatestInFrom(v, n - 1, best);
      assert v.history[..n][..n - 1] == v.history[..n - 1] && v.history[..n][n - 1] == v.history[n - 1];
    }
  }

  lemma {:induction false} LatestSwapFrom(vs: seq<Version>, s: string, n: nat)
    requires n <= |vs|
    ensures var r := LatestSwap(vs[..n], s); r.Some? ==> FromMarks(vs, s, r.value)
  {
    if n > 0 {
      LatestSwapFrom(vs, s, n - 1);
      assert vs[..n][..n - 1] == vs[..n - 1] && vs[..n][n - 1] == vs[n - 1];
      var v := vs[n - 1];
      if v.info.strategy == s {
        LatestInFrom(v, |v.history|, LatestSwap(vs[..n - 1], s));
        assert v.history[..|v.history|] == v.history;
      }
    }
  }

  lemma SwapIsMarked(vs: seq<Version>, s: string)
    requires AllFine(vs) && LatestSwap(vs, s).Some?
    ensures var l := LatestSwap(vs, s).value;
      && Money(l.stage) && Has(vs, s, l.loser, false)
      && exists i :: 0 <= i < |vs| && vs[i].info.strategy == s && vs[i].info.version == l.winner && Past(vs[i])
  {
    var l := LatestSwap(vs, s).value;
    LatestSwapFrom(vs, s, |vs|);
    assert vs[..|vs|] == vs;
    var i :| 0 <= i < |vs| && vs[i].info.strategy == s && FromMark(vs[i], l);
    var v := vs[i];
    var j :| 0 <= j < |v.history| && SWAP_IN <= v.history[j].reason && v.history[j].at == l.at
      && v.history[j].to == l.stage && OldChampion(v.history[j].reason) == l.loser;
    assert Fine(vs, v) && v.history[j] in v.history;
    assert TrueMark(vs, s, v.history[j]);
    assert Past(v);
  }

  /** The version of a key has the flags that some version of the key has. */
  lemma FoundFlag(vs: seq<Version>, s: string, name: string, demoOnly: bool)
    requires Distinct(vs) && Has(vs, s, name, demoOnly)
    ensures var f := Find(vs, s, name); f.Some? && vs[f.value].info.demoOnly == demoOnly
  {
    var i :| 0 <= i < |vs| && vs[i].info.strategy == s && vs[i].info.version == name && vs[i].info.demoOnly == demoOnly;
    FindOwn(vs, i);
  }

  // ---------------------------------------------------------------- every step is safe

  /** Callers print swap reasons only through a swap; names are clean; learned versions inherit the flag. */
  ghost predicate Honest(vs: seq<Version>, x: Timed) {
    match x.step
    case DoTransition(_, _, _, reason, _) => !(SWAP_IN <= reason)
    case DoSubmit(info, _) => Clean(info.version) && Inherits(vs, info)
    case _ => true
  }

  lemma NotSwapIn()
    ensures !(SWAP_IN <= "micro targets met") && !(SWAP_IN <= "demo_only: plumbing test")
    ensures !(SWAP_IN <= "passed validation") && !(SWAP_IN <= "failed validation")
    ensures !(SWAP_IN <= "validated on synthetic data only")
  {
    assert "micro targets met"[0] == 'm' && "demo_only: plumbing test"[0] == 'd';
    assert "passed validation"[0] == 'p' && "failed validation"[0] == 'f'
      && "validated on synthetic data only"[0] == 'v';
  }

  lemma OtherReason(reason: string)
    requires SWAP_OUT <= reason || ROLLBACK <= reason
    ensures !(SWAP_IN <= reason)
  {
    if SWAP_OUT <= reason {
      assert SWAP_IN[13] == 's' && SWAP_OUT[13] == 'd' == reason[13];
    } else {
      assert SWAP_IN[0] == 's' && ROLLBACK[0] == 'r' == reason[0];
    }
  }

  /** A move whose reason is no swap mark. */
  lemma UnmarkedIsSafe(vs: seq<Version>, k: nat, to: Stage, reason: string, at: int)
    requires k < |vs| && (SWAP_OUT <= reason || ROLLBACK <= reason) && (to == Shadow || Money(to))
    requires vs[k].profile || vs[k].info.demoOnly
    requires Money(to) ==> !vs[k].info.demoOnly
    ensures SafeEdit(vs, Move(k, to, reason, Evaluator, at))
  {
    OtherReason(reason);
  }

  ghost predicate SafeEdits(vs: seq<Version>, es: seq<Edit>)
    requires CanEditAll(vs, es)
    decreases |es|
  {
    es == [] || (SafeEdit(vs, es[0]) && SafeEdits(Edited(vs, es[0]), es[1..]))
  }

  lemma {:induction false} SafeEditsKeep(r: Registry, es: seq<Edit>)
    requires AllFine(r.versions) && CanEditAll(r.versions, es) && SafeEdits(r.versions, es)
    ensures AllFine(EditedAll(r, es).versions)
    decreases |es|
  {
    if es != [] {
      SafeEditKeeps(r.versions, es[0]);
      SafeEditsKeep(Done(r, es[0]), es[1..]);
    }
  }

  /** A legal transition is safe. */
  lemma LegalIsSafe(vs: seq<Version>, k: nat, to: Stage, reason: string, actor: Actor, at: int)
    requires AllFine(vs) && k < |vs| && Legal(vs[k], to, actor) && !(SWAP_IN <= reason)
    ensures SafeEdit(vs, Move(k, to, reason, actor, at))
  {
    var v := vs[k];
    assert Fine(vs, v);
    if v.stage == Shadow || Money(v.stage) {
      StageIsPast(vs, v);
    }
  }

  lemma MoveIsSafe(r: Registry, x: Timed, limit: nat)
    requires AllFine(r.versions) && Attempt(r, x, limit).Some? && Honest(r.versions, x)
    requires x.step.DoTransition? || x.step.DoPromoteCandidate? || x.step.DoPromoteToLive?
    requires CanEditAll(r.versions, Edits(r, x, limit))
    ensures SafeEdits(r.versions, Edits(r, x, limit))
  {
    var e := Edits(r, x, limit)[0];
    assert Edits(r, x, limit) == [e];
    NotSwapIn();
    LegalIsSafe(r.versions, e.k, e.to, e.reason, e.actor, e.at);
    OneSafe(r.versions, e);
  }

  lemma OneSafe(vs: seq<Version>, e: Edit)
    requires CanEdit(vs, e) && SafeEdit(vs, e)
    ensures CanEditAll(vs, [e]) && SafeEdits(vs, [e])
  {
    var rest: seq<Edit> := [e][1..];
    assert rest == [];
    assert CanEditAll(Edited(vs, e), rest) && SafeEdits(Edited(vs, e), rest);
  }

  lemma TwoSafe(vs: seq<Version>, e: Edit, f: Edit)
    requires CanEdit(vs, e) && SafeEdit(vs, e) && CanEdit(Edited(vs, e), f) && SafeEdit(Edited(vs, e), f)
    ensures CanEditAll(vs, [e, f]) && SafeEdits(vs, [e, f])
  {
    OneSafe(Edited(vs, e), f);
    assert [e, f][1..] == [f];
  }

  lemma SubmitIsSafe(vs: seq<Version>, info: Info, profile: bool, now: int)
    requires AllFine(vs) && Find(vs, info.strategy, info.version).None? && Clean(info.version) && Inherits(vs, info)
    ensures var es := [Enter(info, now)] + if profile then [GiveProfile(|vs|)] else [];
      CanEditAll(vs, es) && SafeEdits(vs, es)
  {
    var e := Enter(info, now);
    if profile {
      assert [e] + [GiveProfile(|vs|)] == [e, GiveProfile(|vs|)];
      TwoSafe(vs, e, GiveProfile(|vs|));
    } else {
      assert [e] + [] == [e];
      OneSafe(vs, e);
    }
  }

  lemma SwapIsSafe(vs: seq<Version>, c: nat, d: nat, outReason: string, reason: string, now: int)
    requires AllFine(vs) && c < |vs| && d < |vs| && MaySwap(vs[c], vs[d]) && vs[c].info.strategy == vs[d].info.strategy
    requires SWAP_OUT <= outReason
    ensures var e := Move(d, vs[c].stage, SwapInReason(vs[c].info.version, reason), Evaluator, now);
      var f := Move(c, Shadow, outReason, Evaluator, now);
      CanEditAll(vs, [e, f]) && SafeEdits(vs, [e, f])
  {
    var e := Move(d, vs[c].stage, SwapInReason(vs[c].info.version, reason), Evaluator, now);
    SwapInIsSafe(vs, c, d, reason, now);
    assert Fine(vs, vs[c]);
    StageIsPast(vs, vs[c]);
    assert Edited(vs, e)[c] == vs[c];
    UnmarkedIsSafe(Edited(vs, e), c, Shadow, outReason, now);
    TwoSafe(vs, e, Move(c, Shadow, outReason, Evaluator, now));
  }

  lemma SwapInIsSafe(vs: seq<Version>, c: nat, d: nat, reason: string, now: int)
    requires AllFine(vs) && c < |vs| && d < |vs| && MaySwap(vs[c], vs[d]) && vs[c].info.strategy == vs[d].info.strategy
    ensures SafeEdit(vs, Move(d, vs[c].stage, SwapInReason(vs[c].info.version, reason), Evaluator, now))
  {
    var champ, chal := vs[c], vs[d];
    assert Fine(vs, champ) && Fine(vs, chal);
    StageIsPast(vs, chal);
    FoundFlag(vs, chal.info.strategy, champ.info.version, chal.info.demoOnly);
    FindOwn(vs, c);
    ReasonRoundTrip(champ.info.version, reason);
    assert Has(vs, chal.info.strategy, champ.info.version, false);
  }

  lemma RollbackParts(vs: seq<Version>, s: string, l: LastSwap, was: nat, won: nat)
    requires AllFine(vs) && LatestSwap(vs, s) == Some(l)
    requires Find(vs, s, l.loser) == Some(was) && Find(vs, s, l.winner) == Some(won) && vs[was].stage == Shadow
    ensures Money(l.stage) && !vs[was].info.demoOnly && vs[was].profile && (vs[won].profile || vs[won].info.demoOnly)
  {
    SwapIsMarked(vs, s);
    FoundFlag(vs, s, l.loser, false);
    var i :| 0 <= i < |vs| && vs[i].info.strategy == s && vs[i].info.version == l.winner && Past(vs[i]);
    FindOwn(vs, i);
    assert Fine(vs, vs[won]) && Fine(vs, vs[was]);
    StageIsPast(vs, vs[was]);
  }

  lemma RollbackIsSafe(r: Registry, s: string, reason: string, now: int, limit: nat)
    requires AllFine(r.versions) && Rollback(r, s, reason, now).Some?
    requires CanEditAll(r.versions, Edits(r, Timed(now, DoRollback(s, reason)), limit))
    ensures SafeEdits(r.versions, Edits(r, Timed(now, DoRollback(s, reason)), limit))
  {
    var vs, l := r.versions, LatestSwap(r.versions, s).value;
    var was, won := Find(vs, s, l.loser).value, Find(vs, s, l.winner).value;
    EditsOfRollback(r, s, reason, now, limit);
    RollbackParts(vs, s, l, was, won);
    RollbackEdits(vs, was, won, l.stage, RolledBackReason(l.loser, reason), RestoredReason(l.winner, reason), now);
  }

  lemma EditsOfRollback(r: Registry, s: string, reason: string, now: int, limit: nat)
    requires Rollback(r, s, reason, now).Some?
    ensures LatestSwap(r.versions, s).Some?
    ensures var l := LatestSwap(r.versions, s).value;
      && Find(r.versions, s, l.loser).Some? && Find(r.versions, s, l.winner).Some?
      && var was, won := Find(r.versions, s, l.loser).value, Find(r.versions, s, l.winner).value;
      && r.versions[was].stage == Shadow
      && Edits(r, Timed(now, DoRollback(s, reason)), limit)
        == (if r.versions[won].stage == Shadow then []
            else [Move(won, Shadow, RolledBackReason(l.loser, reason), Evaluator, now)])
           + [Move(was, l.stage, RestoredReason(l.winner, reason), Evaluator, now)]
  {}

  lemma RollbackEdits(vs: seq<Version>, was: nat, won: nat, stage: Stage, out: string, back: string, now: int)
    requires was < |vs| && won < |vs| && vs[was].stage == Shadow && Money(stage) && ROLLBACK <= out && ROLLBACK <= back
    requires !vs[was].info.demoOnly && vs[was].profile && (vs[won].profile || vs[won].info.demoOnly)
    ensures var f := Move(was, stage, back, Evaluator, now);
      var es := (if vs[won].stage == Shadow then [] else [Move(won, Shadow, out, Evaluator, now)]) + [f];
      CanEditAll(vs, es) && SafeEdits(vs, es)
  {
    var f := Move(was, stage, back, Evaluator, now);
    if vs[won].stage != Shadow {
      var e := Move(won, Shadow, out, Evaluator, now);
      UnmarkedIsSafe(vs, won, Shadow, out, now);
      UnmarkedIsSafe(Edited(vs, e), was, stage, back, now);
      TwoSafe(vs, e, f);
      assert [e] + [f] == [e, f];
    } else {
      UnmarkedIsSafe(vs, was, stage, back, now);
      OneSafe(vs, f);
      assert [] + [f] == [f];
    }
  }

  lemma StepIsSafe(r: Registry, x: Timed, limit: nat)
    requires AllFine(r.versions) && Honest(r.versions, x) && CanEditAll(r.versions, Edits(r, x, limit))
    ensures SafeEdits(r.versions, Edits(r, x, limit))
  {
    if Attempt(r, x, limit).Some? {
      match x.step {
        case DoSubmit(info, profile) => SubmitIsSafe(r.versions, info, profile, x.now);
        case DoProfile(s, v) => OneSafe(r.versions, GiveProfile(Find(r.versions, s, v).value));
        case DoSwap(s, champion, challenger, reason) =>
          var c, d := Find(r.versions, s, champion).value, Find(r.versions, s, challenger).value;
          SwapIsSafe(r.versions, c, d, SwapOutReason(challenger), reason, x.now);
        case DoRollback(s, reason) => RollbackIsSafe(r, s, reason, x.now, limit);
        case _ => MoveIsSafe(r, x, limit);
      }
    }
  }

  ghost predicate HonestRun(xs: seq<Timed>, limit: nat) {
    forall i :: 0 <= i < |xs| ==> Honest(Run(xs[..i], limit).versions, xs[i])
  }

  lemma {:induction false} RunIsFine(xs: seq<Timed>, limit: nat)
    requires HonestRun(xs, limit)
    ensures AllFine(Run(xs, limit).versions)
  {
    if xs != [] {
      var n := |xs| - 1;
      assert forall i :: 0 <= i < n ==> xs[..n][..i] == xs[..i] && xs[..n][i] == xs[i];
      RunIsFine(xs[..n], limit);
      StepIsEdits(Run(xs[..n], limit), xs[n], limit);
      StepIsSafe(Run(xs[..n], limit), xs[n], limit);
      SafeEditsKeep(Run(xs[..n], limit), Edits(Run(xs[..n], limit), xs[n], limit));
    }
  }

  /** Ladder safety, swaps and rollbacks included: no demo_only version is in a money stage, and every other
      version in shadow or a money stage has a validated profile. */
  lemma LadderIsSafe(xs: seq<Timed>, limit: nat, i: nat)
    requires HonestRun(xs, limit) && i < |Run(xs, limit).versions|
    ensures var v := Run(xs, limit).versions[i];
      && (Money(v.stage) ==> !v.info.demoOnly)
      && (v.stage == Shadow || Money(v.stage) ==> v.profile || v.info.demoOnly)
  {
    RunIsFine(xs, limit);
    var vs := Run(xs, limit).versions;
    assert Fine(vs, vs[i]);
    if vs[i].stage == Shadow || Money(vs[i].stage) {
      StageIsPast(vs, vs[i]);
    }
  }
}
