/** The registry with its ledger and versions updated in place, proved to do what Registry says. */
module RegistryStore {
  import opened Types
  import opened Ladder
  import Reg = Registry

  class RegistryStore {
    var ledger: seq<Reg.Record>
    var versions: seq<Reg.Version>

    function State(): Reg.Registry
      reads this
    {
      Reg.Registry(ledger, versions)
    }

    /** What an operation leaves behind: its result, or nothing changed when it raised. */
    twostate predicate Did(result: Option<Reg.Registry>, ok: bool)
      reads this
    {
      ok == result.Some? && State() == if ok then result.value else old(State())
    }

    /** Replay of an existing ledger. */
    constructor (records: seq<Reg.Record>)
      ensures State() == Reg.Registry(records, Reg.Replay(records))
    {
      ledger, versions := records, [];
      new;
      for i := 0 to |records|
        invariant ledger == records && versions == Reg.Replay(records[..i])
      {
        assert records[..i + 1][..i] == records[..i];
        versions := Reg.Apply(versions, records[i]);
      }
      assert records[..|records|] == records;
    }

    method Append(r: Reg.Record)
      modifies this
      ensures State() == Reg.Recorded(old(State()), r)
    {
      ledger := ledger + [r];
      versions := Reg.Apply(versions, r);
    }

    method Write(k: nat, to: Stage, reason: string, actor: Reg.Actor, now: int)
      requires k < |versions|
      modifies this
      ensures State() == Reg.WriteChange(old(State()), k, to, reason, actor, now)
    {
      var v := versions[k];
      Append(Reg.StageChange(v.info.strategy, v.info.version, Reg.Change(Some(v.stage), to, reason, actor, now)));
    }

    method Submit(info: Reg.Info, profile: bool, now: int) returns (ok: bool)
      modifies this
      ensures Did(Reg.Submit(old(State()), info, profile, now), ok)
    {
      if Reg.Find(versions, info.strategy, info.version).Some? {
        return false;
      }
      Append(Reg.NewVersion(info, now));
      if profile {
        Append(Reg.NewProfile(info.strategy, info.version));
      }
      return true;
    }

    method SetProfile(s: string, v: string) returns (ok: bool)
      modifies this
      ensures Did(Reg.SetProfile(old(State()), s, v), ok)
    {
      if Reg.Find(versions, s, v).None? {
        return false;
      }
      Append(Reg.NewProfile(s, v));
      return true;
    }

    method Transition(s: string, v: string, to: Stage, reason: string, actor: Reg.Actor, now: int) returns (ok: bool)
      modifies this
      ensures Did(Reg.Transition(old(State()), s, v, to, reason, actor, now), ok)
    {
      var k := Reg.Find(versions, s, v);
      if k.None? {
        return false;
      }
      var x := versions[k.value];
      var legal := Allowed(x.stage, to) || (to == Retired && actor == Reg.Owner && x.stage != Retired);
      if x.info.demoOnly && x.stage == Shadow && to != Retired && to != DemoOnly {
        legal := false;
      }
      if to == DemoOnly && !(x.info.demoOnly && actor == Reg.Owner) {
        legal := false;
      }
      if legal && x.stage == Candidate && to == Shadow && !x.profile && !x.info.demoOnly {
        legal := false;
      }
      if !legal {
        return false;
      }
      Write(k.value, to, reason, actor, now);
      return true;
    }

    method Swap(s: string, champion: string, challenger: string, reason: string, now: int) returns (ok: bool)
      modifies this
      ensures Did(Reg.Swap(old(State()), s, champion, challenger, reason, now), ok)
    {
      var c, d := Reg.Find(versions, s, champion), Reg.Find(versions, s, challenger);
      if c.None? || d.None? || !Reg.MaySwap(versions[c.value], versions[d.value]) {
        return false;
      }
      var stage := versions[c.value].stage;
      Write(d.value, stage, Reg.SwapInReason(champion, reason), Reg.Evaluator, now);
      Write(c.value, Shadow, Reg.SwapOutReason(challenger), Reg.Evaluator, now);
      return true;
    }

    /** The strategy's latest swap; of equally late ones the first met. */
    method LatestSwap(s: string) returns (best: Option<Reg.LastSwap>)
      ensures best == Reg.LatestSwap(versions, s)
    {
      best := None;
      for i := 0 to |versions|
        invariant best == Reg.LatestSwap(versions[..i], s)
      {
        var v := versions[i];
        assert versions[..i + 1][..i] == versions[..i];
        if v.info.strategy == s {
          ghost var before := best;
          for j := 0 to |v.history|
            invariant best == Reg.LatestIn(v.info.version, v.history[..j], before)
          {
            assert v.history[..j + 1][..j] == v.history[..j];
            var h := v.history[j];
            if Reg.SWAP_IN <= h.reason && (best.None? || h.at > best.value.at) {
              best := Some(Reg.LastSwap(h.at, v.info.version, Reg.OldChampion(h.reason), h.to));
            }
          }
          assert v.history[..|v.history|] == v.history;
        }
      }
      assert versions[..|versions|] == versions;
    }

    method Rollback(s: string, reason: string, now: int) returns (ok: bool)
      modifies this
      ensures Did(Reg.Rollback(old(State()), s, reason, now), ok)
    {
      var last := LatestSwap(s);
      if last.None? {
        return false;
      }
      var l := last.value;
      var was, won := Reg.Find(versions, s, l.loser), Reg.Find(versions, s, l.winner);
      if was.None? || won.None? || versions[was.value].stage != Shadow {
        return false;
      }
      if versions[won.value].stage != Shadow {
        Write(won.value, Shadow, Reg.RolledBackReason(l.loser, reason), Reg.Evaluator, now);
      }
      Write(was.value, l.stage, Reg.RestoredReason(l.winner, reason), Reg.Evaluator, now);
      return true;
    }

    method PromotionsTo(to: Stage, since: int) returns (n: nat)
      ensures n == Reg.PromotionsTo(versions, to, since)
    {
      n := 0;
      for i := 0 to |versions|
        invariant n == Reg.PromotionsTo(versions[..i], to, since)
      {
        var hs := versions[i].history;
        assert versions[..i + 1][..i] == versions[..i];
        ghost var before := n;
        for j := 0 to |hs|
          invariant n == before + Reg.CountIn(hs[..j], to, since)
        {
          assert hs[..j + 1][..j] == hs[..j];
          if hs[j].to == to && hs[j].at >= since {
            n := n + 1;
          }
        }
        assert hs[..|hs|] == hs;
      }
      assert versions[..|versions|] == versions;
    }

    method PromoteToLive(s: string, v: string, limit: nat, now: int) returns (ok: bool)
      modifies this
      ensures Did(Reg.PromoteToLive(old(State()), s, v, limit, now), ok)
    {
      var k := Reg.Find(versions, s, v);
      if k.None? || versions[k.value].stage != Micro {
        return false;
      }
      var n := PromotionsTo(Live, now - WEEK);
      if n >= limit {
        return false;
      }
      ok := Transition(s, v, Live, "micro targets met", Reg.Evaluator, now);
    }
  }
}
