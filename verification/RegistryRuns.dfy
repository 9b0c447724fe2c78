/** Two properties of whole registry runs: a rollback undoes the latest swap exactly, and the evaluator never
    exceeds its weekly promotions to live. */
module RegistryRuns {
  import opened Types
  import opened Ladder
  import opened Registry
  import opened RegistryLaws

  // ---------------------------------------------------------------- the latest swap

  function MarkOf(v: Version, c: Change): LastSwap
    requires SWAP_IN <= c.reason
  {
    LastSwap(c.at, v.info.version, OldChampion(c.reason), c.to)
  }

  /** A swap is in the histories, and every other swap of the strategy is older. */
  ghost predicate Stands(vs: seq<Version>, s: string, l: LastSwap) {
    && FromMarks(vs, s, l)
    && forall i, j ::
      0 <= i < |vs| && 0 <= j < |vs[i].history| && vs[i].info.strategy == s && SWAP_IN <= vs[i].history[j].reason ==>
        MarkOf(vs[i], vs[i].history[j]) == l || vs[i].history[j].at < l.at
  }

  lemma {:induction false} LatestInIsMax(v: Version, n: nat, best: Option<LastSwap>)
    requires n <= |v.history|
    ensures var r := LatestIn(v.info.version, v.history[..n], best);
      && (best.Some? ==> r.Some? && r.value.at >= best.value.at)
      && (forall j :: 0 <= j < n && SWAP_IN <= v.history[j].reason ==> r.Some? && r.value.at >= v.history[j].at)
  {
    if n > 0 {
      LatestInIsMax(v, n - 1, best);
      assert v.history[..n][..n - 1] == v.history[..n - 1] && v.history[..n][n - 1] == v.history[n - 1];
    }
  }

  lemma {:induction false} LatestIsMax(vs: seq<Version>, s: string, n: nat)
    requires n <= |vs|
    ensures var r := LatestSwap(vs[..n], s);
      forall i, j ::
        0 <= i < n && 0 <= j < |vs[i].history| && vs[i].info.strategy == s && SWAP_IN <= vs[i].history[j].reason ==>
        r.Some? && r.value.at >= vs[i].history[j].at
  {
    if n > 0 {
      LatestIsMax(vs, s, n - 1);
      assert vs[..n][..n - 1] == vs[..n - 1] && vs[..n][n - 1] == vs[n - 1];
      var v := vs[n - 1];
      LatestInIsMax(v, |v.history|, LatestSwap(vs[..n - 1], s));
      assert v.history[..|v.history|] == v.history;
    }
  }

  lemma StandsIsLatest(vs: seq<Version>, s: string, l: LastSwap)
    requires Stands(vs, s, l)
    ensures LatestSwap(vs, s) == Some(l)
  {
    assert vs[..|vs|] == vs;
    LatestIsMax(vs, s, |vs|);
    LatestSwapFrom(vs, s, |vs|);
    var i :| 0 <= i < |vs| && vs[i].info.strategy == s && FromMark(vs[i], l);
    var j :| 0 <= j < |vs[i].history| && SWAP_IN <= vs[i].history[j].reason && vs[i].history[j].at == l.at
      && vs[i].history[j].to == l.stage && OldChampion(vs[i].history[j].reason) == l.loser;
    var r := LatestSwap(vs, s).value;
    var a :| 0 <= a < |vs| && vs[a].info.strategy == s && FromMark(vs[a], r);
    var b :| 0 <= b < |vs[a].history| && SWAP_IN <= vs[a].history[b].reason && vs[a].history[b].at == r.at
      && vs[a].history[b].to == r.stage && OldChampion(vs[a].history[b].reason) == r.loser;
    assert MarkOf(vs[a], vs[a].history[b]) == r;
  }

  // ---------------------------------------------------------------- what leaves a swap standing

  /** An edit that adds no swap mark to the strategy. */
  predicate Unmarked(vs: seq<Version>, e: Edit, s: string)
    requires CanEdit(vs, e)
  {
    e.Move? ==> vs[e.k].info.strategy != s || !(SWAP_IN <= e.reason)
  }

  lemma MovedMark(v: Version, c: Change, l: LastSwap)
    requires FromMark(v, l)
    ensures FromMark(Moved(v, c), l)
  {
    var j :| 0 <= j < |v.history| && SWAP_IN <= v.history[j].reason && v.history[j].at == l.at
      && v.history[j].to == l.stage && OldChampion(v.history[j].reason) == l.loser;
    assert Moved(v, c).history[j] == v.history[j];
  }

  lemma EditedMarks(vs: seq<Version>, e: Edit, s: string, l: LastSwap)
    requires CanEdit(vs, e) && FromMarks(vs, s, l)
    ensures FromMarks(Edited(vs, e), s, l)
  {
    var ws := Edited(vs, e);
    var i :| 0 <= i < |vs| && vs[i].info.strategy == s && FromMark(vs[i], l);
    if e.Move? && e.k == i {
      MovedMark(vs[i], Change(Some(vs[i].stage), e.to, e.reason, e.actor, e.at), l);
    } else if e.GiveProfile? && e.k == i {
      assert FromMark(vs[i].(profile := true), l);
    }
    assert ws[i].info.strategy == s && FromMark(ws[i], l);
  }

  lemma EntryIsNoMark()
    ensures !(SWAP_IN <= "submitted")
  {
    assert SWAP_IN[1] == 'w' && "submitted"[1] == 'u';
  }

  lemma UnmarkedStands(vs: seq<Version>, e: Edit, s: string, l: LastSwap)
    requires CanEdit(vs, e) && Unmarked(vs, e, s) && Stands(vs, s, l)
    ensures Stands(Edited(vs, e), s, l)
  {
    EditedMarks(vs, e, s, l);
    EntryIsNoMark();
    var ws := Edited(vs, e);
    forall i, j | 0 <= i < |ws| && 0 <= j < |ws[i].history| && ws[i].info.strategy == s
      && SWAP_IN <= ws[i].history[j].reason
      ensures MarkOf(ws[i], ws[i].history[j]) == l || ws[i].history[j].at < l.at
    {
      if i < |vs| {
        assert ws[i].info == vs[i].info;
        if j < |vs[i].history| {
          assert ws[i].history[j] == vs[i].history[j];
        }
      }
    }
  }

  ghost predicate UnmarkedAll(vs: seq<Version>, es: seq<Edit>, s: string)
    requires CanEditAll(vs, es)
    decreases |es|
  {
    es == [] || (Unmarked(vs, es[0], s) && UnmarkedAll(Edited(vs, es[0]), es[1..], s))
  }

  lemma {:induction false} UnmarkedAllStands(r: Registry, es: seq<Edit>, s: string, l: LastSwap)
    requires CanEditAll(r.versions, es) && UnmarkedAll(r.versions, es, s) && Stands(r.versions, s, l)
    ensures Stands(EditedAll(r, es).versions, s, l)
    decreases |es|
  {
    if es != [] {
      UnmarkedStands(r.versions, es[0], s, l);
      UnmarkedAllStands(Done(r, es[0]), es[1..], s, l);
    }
  }

  /** A step that is not another swap of the strategy, and prints no swap mark. */
  predicate Quiet(x: Timed, s: string) {
    && (x.step.DoSwap? ==> x.step.s != s)
    && (x.step.DoTransition? ==> !(SWAP_IN <= x.step.reason))
  }

  /** Each edit of a quiet step is unmarked wherever it is made. */
  lemma QuietEdits(r: Registry, x: Timed, limit: nat, s: string, i: nat)
    requires Distinct(r.versions) && Quiet(x, s) && i < |Edits(r, x, limit)|
    ensures var e := Edits(r, x, limit)[i];
      e.Move? ==> !(SWAP_IN <= e.reason) || (e.k < |r.versions| && r.versions[e.k].info.strategy != s)
  {
    NotSwapIn();
    var e := Edits(r, x, limit)[i];
    if x.step.DoSwap? {
      OtherReason(SwapOutReason(x.step.challenger));
    } else if x.step.DoRollback? {
      var l := LatestSwap(r.versions, x.step.s).value;
      OtherReason(RolledBackReason(l.loser, x.step.reason));
      OtherReason(RestoredReason(l.winner, x.step.reason));
    }
  }

  lemma {:induction false} EditsUnmarked(vs: seq<Version>, es: seq<Edit>, s: string, ws: seq<Version>)
    requires CanEditAll(ws, es) && Extends(vs, ws) && Distinct(ws)
    requires forall i :: 0 <= i < |es| && es[i].Move? ==>
      !(SWAP_IN <= es[i].reason) || (es[i].k < |vs| && vs[es[i].k].info.strategy != s)
    ensures UnmarkedAll(ws, es, s)
    decreases |es|
  {
    if es != [] {
      EditApplies(ws, es[0]);
      assert forall i :: 0 <= i < |es[1..]| ==> es[1..][i] == es[i + 1];
      EditsUnmarked(vs, es[1..], s, Edited(ws, es[0]));
    }
  }

  lemma QuietStands(r: Registry, x: Timed, limit: nat, s: string, l: LastSwap)
    requires Distinct(r.versions) && Quiet(x, s) && Stands(r.versions, s, l)
    ensures Stands(Next(r, x, limit).versions, s, l)
  {
    StepIsEdits(r, x, limit);
    var es := Edits(r, x, limit);
    forall i: nat | i < |es| && es[i].Move?
      ensures !(SWAP_IN <= es[i].reason) || (es[i].k < |r.versions| && r.versions[es[i].k].info.strategy != s)
    {
      QuietEdits(r, x, limit, s, i);
    }
    EditsUnmarked(r.versions, es, s, r.versions);
    UnmarkedAllStands(r, es, s, l);
  }

  // ---------------------------------------------------------------- the swap itself

  /** All swaps of the strategy are before this time. */
  ghost predicate MarksBefore(vs: seq<Version>, s: string, now: int) {
    forall i, j ::
      0 <= i < |vs| && 0 <= j < |vs[i].history| && vs[i].info.strategy == s && SWAP_IN <= vs[i].history[j].reason ==>
      vs[i].history[j].at < now
  }

  lemma MarkStands(vs: seq<Version>, d: nat, champion: string, stage: Stage, reason: string, now: int)
    requires d < |vs| && MarksBefore(vs, vs[d].info.strategy, now) && Clean(champion)
    ensures var ws := Edited(vs, Move(d, stage, SwapInReason(champion, reason), Evaluator, now));
      Stands(ws, vs[d].info.strategy, LastSwap(now, vs[d].info.version, champion, stage))
  {
    var s, printed := vs[d].info.strategy, SwapInReason(champion, reason);
    var l := LastSwap(now, vs[d].info.version, champion, stage);
    var ws := Edited(vs, Move(d, stage, printed, Evaluator, now));
    ReasonRoundTrip(champion, reason);
    var n := |vs[d].history|;
    assert ws[d].history[n] == Change(Some(vs[d].stage), stage, printed, Evaluator, now);
    assert FromMark(ws[d], l);
    forall i, j | 0 <= i < |ws| && 0 <= j < |ws[i].history| && ws[i].info.strategy == s
      && SWAP_IN <= ws[i].history[j].reason
      ensures MarkOf(ws[i], ws[i].history[j]) == l || ws[i].history[j].at < l.at
    {
      if !(i == d && j == n) {
        assert ws[i].history[j] == vs[i].history[j] && ws[i].info == vs[i].info;
      }
    }
  }

  lemma SwapStands(r: Registry, s: string, champion: string, challenger: string, reason: string, now: int)
    requires Distinct(r.versions) && Swap(r, s, champion, challenger, reason, now).Some?
    requires MarksBefore(r.versions, s, now) && Clean(champion)
    ensures var c := Find(r.versions, s, champion).value;
      Stands(Swap(r, s, champion, challenger, reason, now).value.versions, s,
        LastSwap(now, challenger, champion, r.versions[c].stage))
  {
    var c, d := Find(r.versions, s, champion).value, Find(r.versions, s, challenger).value;
    var e := Move(d, r.versions[c].stage, SwapInReason(champion, reason), Evaluator, now);
    var l := LastSwap(now, challenger, champion, r.versions[c].stage);
    MarkStands(r.versions, d, champion, r.versions[c].stage, reason, now);
    WriteIsEdit(r, d, e.to, e.reason, Evaluator, now);
    var r1 := Done(r, e);
    WriteIsEdit(r1, c, Shadow, SwapOutReason(challenger), Evaluator, now);
    OtherReason(SwapOutReason(challenger));
    UnmarkedStands(r1.versions, Move(c, Shadow, SwapOutReason(challenger), Evaluator, now), s, l);
  }

  /** While a swap stands and its old champion waits in shadow, a rollback succeeds: the old champion gets exactly
      the stage the swap took, the winner is in shadow, and nobody else moves. */
  lemma RollbackRestores(r: Registry, s: string, l: LastSwap, was: nat, won: nat, reason: string, now: int)
    requires Distinct(r.versions) && Stands(r.versions, s, l)
    requires Find(r.versions, s, l.loser) == Some(was) && r.versions[was].stage == Shadow
    requires Find(r.versions, s, l.winner) == Some(won) && won != was
    ensures var r' := Rollback(r, s, reason, now);
      && r'.Some? && |r'.value.versions| == |r.versions|
      && r'.value.versions[was].stage == l.stage && r'.value.versions[won].stage == Shadow
      && forall i :: 0 <= i < |r.versions| && i != was && i != won ==> r'.value.versions[i] == r.versions[i]
  {
    StandsIsLatest(r.versions, s, l);
    var r1 := r;
    if r.versions[won].stage != Shadow {
      WriteIsEdit(r, won, Shadow, RolledBackReason(l.loser, reason), Evaluator, now);
      r1 := WriteChange(r, won, Shadow, RolledBackReason(l.loser, reason), Evaluator, now);
    }
    WriteIsEdit(r1, was, l.stage, RestoredReason(l.winner, reason), Evaluator, now);
  }

  // ---------------------------------------------------------------- swap, anything, rollback

  lemma {:induction false} StandsOn(pre: seq<Timed>, xs: seq<Timed>, limit: nat, s: string, l: LastSwap)
    requires Stands(Run(pre, limit).versions, s, l) && forall i :: 0 <= i < |xs| ==> Quiet(xs[i], s)
    ensures Stands(Run(pre + xs, limit).versions, s, l)
    decreases |xs|
  {
    if xs == [] {
      assert pre + xs == pre;
    } else {
      var front, x := xs[..|xs| - 1], xs[|xs| - 1];
      StandsOn(pre, front, limit, s, l);
      OneMore(pre, front, x, xs);
      StateIsReplay(pre + front, limit);
      QuietStands(Run(pre + front, limit), x, limit, s, l);
    }
  }

  lemma OneMore(pre: seq<Timed>, front: seq<Timed>, x: Timed, xs: seq<Timed>)
    requires xs == front + [x]
    ensures (pre + xs)[..|pre + xs| - 1] == pre + front && (pre + xs)[|pre + xs| - 1] == x
  {}

  /** A swap, then any steps but another swap of the strategy (demotions of the new champion, its retirement, other
      strategies' swaps, rollbacks), then a rollback while the old champion is in shadow: the old champion has again
      exactly the stage it had before the swap, read back from the printed reason, and the new one is in shadow. */
  lemma SwapThenRollback(
    pre: seq<Timed>, swap: Timed, xs: seq<Timed>, limit: nat, s: string, champion: string, challenger: string,
    why: string, was: nat, won: nat, reason: string, now: int)
    requires swap.step == DoSwap(s, champion, challenger, why) && Attempt(Run(pre, limit), swap, limit).Some?
    requires MarksBefore(Run(pre, limit).versions, s, swap.now) && Clean(champion)
    requires forall i :: 0 <= i < |xs| ==> Quiet(xs[i], s)
    requires var vs := Run(pre + [swap] + xs, limit).versions;
      && Find(vs, s, champion) == Some(was) && vs[was].stage == Shadow
      && Find(vs, s, challenger) == Some(won) && won != was
    ensures var r := Rollback(Run(pre + [swap] + xs, limit), s, reason, now);
      var before := Run(pre, limit).versions;
      var c := Find(before, s, champion);
      && r.Some? && c.Some? && |r.value.versions| > was && |r.value.versions| > won
      && r.value.versions[was].stage == before[c.value].stage
      && r.value.versions[won].stage == Shadow
  {
    var before := Run(pre, limit);
    StateIsReplay(pre, limit);
    SwapStands(before, s, champion, challenger, why, swap.now);
    assert (pre + [swap])[..|pre|] == pre;
    var l := LastSwap(swap.now, challenger, champion, before.versions[Find(before.versions, s, champion).value].stage);
    StandsOn(pre + [swap], xs, limit, s, l);
    StateIsReplay(pre + [swap] + xs, limit);
    RollbackRestores(Run(pre + [swap] + xs, limit), s, l, was, won, reason, now);
  }

  // ---------------------------------------------------------------- leaving "retired"

  /** The step is a rollback of a swap that this version won, and the old champion is in shadow. */
  predicate Revives(vs: seq<Version>, x: Timed, i: nat) {
    && x.step.DoRollback?
    && var last := LatestSwap(vs, x.step.s);
      && last.Some?
      && var was := Find(vs, x.step.s, last.value.loser);
        was.Some? && vs[was.value].stage == Shadow && Find(vs, x.step.s, last.value.winner) == Some(i)
  }

  lemma SubmitKeepsStages(r: Registry, info: Info, profile: bool, now: int, i: nat)
    requires Distinct(r.versions) && i < |r.versions| && Submit(r, info, profile, now).Some?
    ensures var vs := Submit(r, info, profile, now).value.versions; |vs| > i && vs[i] == r.versions[i]
  {
    var e := Enter(info, now);
    EditApplies(r.versions, e);
    if profile {
      EditApplies(Done(r, e).versions, GiveProfile(|r.versions|));
    }
  }

  lemma SwapKeepsRetired(r: Registry, x: Timed, i: nat)
    requires Distinct(r.versions) && i < |r.versions| && r.versions[i].stage == Retired
    requires x.step.DoSwap? && Swap(r, x.step.s, x.step.champion, x.step.challenger, x.step.reason, x.now).Some?
    ensures var vs := Swap(r, x.step.s, x.step.champion, x.step.challenger, x.step.reason, x.now).value.versions;
      |vs| == |r.versions| && vs[i] == r.versions[i]
  {
    var c := Find(r.versions, x.step.s, x.step.champion).value;
    var d := Find(r.versions, x.step.s, x.step.challenger).value;
    var e := Move(d, r.versions[c].stage, SwapInReason(x.step.champion, x.step.reason), Evaluator, x.now);
    WriteIsEdit(r, d, e.to, e.reason, Evaluator, x.now);
    WriteIsEdit(Done(r, e), c, Shadow, SwapOutReason(x.step.challenger), Evaluator, x.now);
  }

  lemma RollbackLeavesIff(r: Registry, x: Timed, i: nat)
    requires Distinct(r.versions) && i < |r.versions| && r.versions[i].stage == Retired
    requires x.step.DoRollback? && Rollback(r, x.step.s, x.step.reason, x.now).Some?
    ensures var vs := Rollback(r, x.step.s, x.step.reason, x.now).value.versions;
      && |vs| == |r.versions| && vs[i].info == r.versions[i].info
      && (vs[i].stage != Retired <==> Revives(r.versions, x, i))
      && (vs[i].stage != Retired ==> vs[i].stage == Shadow)
  {
    var l := LatestSwap(r.versions, x.step.s).value;
    var was := Find(r.versions, x.step.s, l.loser).value;
    var won := Find(r.versions, x.step.s, l.winner).value;
    var r1 := r;
    if r.versions[won].stage != Shadow {
      WriteIsEdit(r, won, Shadow, RolledBackReason(l.loser, x.step.reason), Evaluator, x.now);
      r1 := WriteChange(r, won, Shadow, RolledBackReason(l.loser, x.step.reason), Evaluator, x.now);
    }
    WriteIsEdit(r1, was, l.stage, RestoredReason(l.winner, x.step.reason), Evaluator, x.now);
  }

  lemma MoveKeepsRetired(r: Registry, x: Timed, limit: nat, i: nat)
    requires Distinct(r.versions) && i < |r.versions| && r.versions[i].stage == Retired
    requires x.step.DoTransition? || x.step.DoPromoteCandidate? || x.step.DoPromoteToLive? || x.step.DoProfile?
    ensures var vs := Next(r, x, limit).versions;
      |vs| == |r.versions| && vs[i].info == r.versions[i].info && vs[i].stage == Retired
  {
    if Attempt(r, x, limit).Some? {
      var e := Edits(r, x, limit)[0];
      assert Edits(r, x, limit) == [e];
      StepIsEdits(r, x, limit);
      OneEdit(r, e);
    }
  }

  /** In every run and for every step: a retired version leaves "retired" if and only if the step is a rollback of
      the swap it won while the old champion is in shadow; it then comes back to shadow. */
  lemma RetiredLeftIff(xs: seq<Timed>, x: Timed, limit: nat, i: nat)
    requires i < |Run(xs, limit).versions| && Run(xs, limit).versions[i].stage == Retired
    ensures var vs, ws := Run(xs, limit).versions, Next(Run(xs, limit), x, limit).versions;
      && i < |ws| && ws[i].info == vs[i].info
      && (ws[i].stage != Retired <==> Revives(vs, x, i))
      && (ws[i].stage != Retired ==> ws[i].stage == Shadow)
  {
    var r := Run(xs, limit);
    StateIsReplay(xs, limit);
    if Attempt(r, x, limit).Some? {
      match x.step {
        case DoSubmit(info, profile) => SubmitKeepsStages(r, info, profile, x.now, i);
        case DoSwap(_, _, _, _) => SwapKeepsRetired(r, x, i);
        case DoRollback(_, _) => RollbackLeavesIff(r, x, i);
        case _ => MoveKeepsRetired(r, x, limit, i);
      }
    }
  }

  /** It happens: while a swap stands and its old champion is in shadow, a retired winner comes back. */
  lemma RollbackRevivesRetired(r: Registry, s: string, l: LastSwap, was: nat, won: nat, reason: string, now: int)
    requires Distinct(r.versions) && Stands(r.versions, s, l)
    requires Find(r.versions, s, l.loser) == Some(was) && r.versions[was].stage == Shadow
    requires Find(r.versions, s, l.winner) == Some(won) && r.versions[won].stage == Retired
    ensures Rollback(r, s, reason, now).Some? && Rollback(r, s, reason, now).value.versions[won].stage == Shadow
  {
    RollbackRestores(r, s, l, was, won, reason, now);
  }

  // ---------------------------------------------------------------- the weekly limit

  function RecordsTo(ledger: seq<Record>, to: Stage, since: int): nat {
    if ledger == [] then 0
    else
      var x := ledger[|ledger| - 1];
      RecordsTo(ledger[..|ledger| - 1], to, since)
      + if x.StageChange? && x.change.to == to && x.change.at >= since then 1 else 0
  }

  lemma {:induction false} PromotionsUpdated(vs: seq<Version>, k: nat, v: Version, to: Stage, since: int)
    requires k < |vs|
    ensures PromotionsTo(vs[k := v], to, since)
      == PromotionsTo(vs, to, since) - CountIn(vs[k].history, to, since) + CountIn(v.history, to, since)
  {
    var n := |vs| - 1;
    if k < n {
      PromotionsUpdated(vs[..n], k, v, to, since);
      assert vs[k := v][..n] == vs[..n][k := v];
    } else {
      assert vs[k := v][..n] == vs[..n];
    }
  }

  /** The histories and the ledger count alike. */
  ghost predicate Counted(r: Registry, since: int) {
    PromotionsTo(r.versions, Live, since) == RecordsTo(r.ledger, Live, since)
  }

  lemma EditCounted(r: Registry, e: Edit, since: int)
    requires CanEdit(r.versions, e) && Counted(r, since)
    ensures Counted(Done(r, e), since)
  {
    var vs, rec := r.versions, RecordOf(r.versions, e);
    assert (r.ledger + [rec])[..|r.ledger|] == r.ledger;
    match e {
      case Enter(info, at) =>
        assert (vs + [Entered(info, at)])[..|vs|] == vs;
        assert Entered(info, at).history[..0] == [];
        assert CountIn(Entered(info, at).history, Live, since) == 0;
      case GiveProfile(k) => PromotionsUpdated(vs, k, vs[k].(profile := true), Live, since);
      case Move(k, to, reason, actor, at) =>
        var m := Moved(vs[k], Change(Some(vs[k].stage), to, reason, actor, at));
        assert m.history[..|m.history| - 1] == vs[k].history;
        PromotionsUpdated(vs, k, m, Live, since);
    }
  }

  lemma {:induction false} EditsCounted(r: Registry, es: seq<Edit>, since: int)
    requires CanEditAll(r.versions, es) && Counted(r, since)
    ensures Counted(EditedAll(r, es), since)
    decreases |es|
  {
    if es != [] {
      EditCounted(r, es[0], since);
      EditsCounted(Done(r, es[0]), es[1..], since);
    }
  }

  lemma {:induction false} RunCounted(xs: seq<Timed>, limit: nat, since: int)
    ensures Counted(Run(xs, limit), since)
  {
    if xs != [] {
      var r, x := Run(xs[..|xs| - 1], limit), xs[|xs| - 1];
      RunCounted(xs[..|xs| - 1], limit, since);
      StateIsReplay(xs[..|xs| - 1], limit);
      StepIsEdits(r, x, limit);
      EditsCounted(r, Edits(r, x, limit), since);
    }
  }

  predicate IsPromotion(x: Record) {
    x.StageChange? && x.change.from == Some(Micro) && x.change.to == Live && x.change.actor == Evaluator
      && x.change.reason == "micro targets met"
  }

  /** The evaluator's promotions from micro to live in a closed window. */
  function PromotionsIn(ledger: seq<Record>, from: int, to: int): nat {
    if ledger == [] then 0
    else
      var x := ledger[|ledger| - 1];
      PromotionsIn(ledger[..|ledger| - 1], from, to) + if IsPromotion(x) && from <= x.change.at <= to then 1 else 0
  }

  lemma {:induction false} WindowBelow(ledger: seq<Record>, from: int, to: int, since: int)
    requires since <= from
    ensures PromotionsIn(ledger, from, to) <= RecordsTo(ledger, Live, since)
  {
    if ledger != [] {
      WindowBelow(ledger[..|ledger| - 1], from, to, since);
    }
  }

  /** The evaluator prints "micro targets met" nowhere else. */
  predicate OwnReason(x: Timed) { x.step.DoTransition? ==> x.step.reason != "micro targets met" }

  lemma {:induction false} EditsPromote(r: Registry, es: seq<Edit>, from: int, to: int)
    requires CanEditAll(r.versions, es)
    requires forall i :: 0 <= i < |es| && es[i].Move? ==> es[i].reason != "micro targets met"
    ensures PromotionsIn(EditedAll(r, es).ledger, from, to) == PromotionsIn(r.ledger, from, to)
    decreases |es|
  {
    if es != [] {
      var rec := RecordOf(r.versions, es[0]);
      assert (r.ledger + [rec])[..|r.ledger|] == r.ledger;
      assert forall i :: 0 <= i < |es[1..]| ==> es[1..][i] == es[i + 1];
      EditsPromote(Done(r, es[0]), es[1..], from, to);
    }
  }

  lemma OtherSteps(r: Registry, x: Timed, limit: nat, i: nat)
    requires !x.step.DoPromoteToLive? && OwnReason(x) && i < |Edits(r, x, limit)| && Edits(r, x, limit)[i].Move?
    ensures Edits(r, x, limit)[i].reason != "micro targets met"
  {
    if x.step.DoSwap? {
      var e := Edits(r, x, limit)[0];
      ReasonRoundTrip(x.step.champion, x.step.reason);
      assert SWAP_IN[0] == 's' && SWAP_OUT[0] == 's' && "micro targets met"[0] == 'm';
    } else if x.step.DoRollback? {
      assert ROLLBACK[0] == 'r' && "micro targets met"[0] == 'm';
    } else if x.step.DoPromoteCandidate? {
      assert "micro targets met"[0] == 'm' && "demo_only: plumbing test"[0] == 'd';
      assert "passed validation"[0] == 'p' && "failed validation"[0] == 'f'
        && "validated on synthetic data only"[0] == 'v';
    }
  }

  /** In every closed week of every run the evaluator promotes at most `limit` versions to live. */
  lemma {:induction false} WeeklyLimit(xs: seq<Timed>, limit: nat, from: int)
    requires forall i :: 0 <= i < |xs| ==> OwnReason(xs[i])
    ensures PromotionsIn(Run(xs, limit).ledger, from, from + WEEK) <= limit
  {
    if xs != [] {
      var n := |xs| - 1;
      var r, x := Run(xs[..n], limit), xs[n];
      WeeklyLimit(xs[..n], limit, from);
      StateIsReplay(xs[..n], limit);
      StepIsEdits(r, x, limit);
      if x.step.DoPromoteToLive? {
        RunCounted(xs[..n], limit, x.now - WEEK);
        PromotionStep(r, x, limit, from);
      } else {
        forall i: nat | i < |Edits(r, x, limit)| && Edits(r, x, limit)[i].Move?
          ensures Edits(r, x, limit)[i].reason != "micro targets met"
        {
          OtherSteps(r, x, limit, i);
        }
        EditsPromote(r, Edits(r, x, limit), from, from + WEEK);
      }
    }
  }

  lemma PromotionStep(r: Registry, x: Timed, limit: nat, from: int)
    requires Distinct(r.versions) && x.step.DoPromoteToLive? && Counted(r, x.now - WEEK)
    requires PromotionsIn(r.ledger, from, from + WEEK) <= limit
    ensures PromotionsIn(Next(r, x, limit).ledger, from, from + WEEK) <= limit
  {
    if Attempt(r, x, limit).Some? {
      var r' := Next(r, x, limit);
      var rec := r'.ledger[|r.ledger|];
      assert r'.ledger[..|r.ledger|] == r.ledger;
      if from <= rec.change.at <= from + WEEK {
        WindowBelow(r.ledger, from, from + WEEK, x.now - WEEK);
      }
    }
  }
}
