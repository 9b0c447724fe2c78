/** The live strategy runner with its buffers updated in place, proved to do what LiveModel says. */
module LiveRunner {
  import opened Types
  import opened BrokerModel
  import opened Backtest
  import opened Events
  import LiveModel

  class LiveRunner<S> {
    const env: Env<S>
    const symbols: nat
    const views: LiveModel.Views
    var buffers: seq<seq<Candle>>
    var now: int
    var strategy: S
    var seen: set<string>
    /** True once an exception has left the runner. */
    var broken: bool
    ghost var issued: seq<Request>

    ghost function State(): LiveModel.Live<S>
      reads this
    {
      LiveModel.Live(buffers, now, strategy, seen, issued, broken)
    }

    ghost predicate Valid()
      reads this
    {
      |env.warmup| == |buffers|
    }

    constructor (env: Env<S>, symbols: nat, strategy: S, views: LiveModel.Views)
      ensures Valid() && this.env == env && this.symbols == symbols && this.views == views
      ensures State() == LiveModel.StartLive(|env.warmup|, strategy)
    {
      this.env, this.symbols, this.views, this.strategy := env, symbols, views, strategy;
      buffers := seq(|env.warmup|, (_: int) => []);
      now, seen, broken, issued := 0, {}, false, [];
    }

    /** One batch: reveal its bars group by group, and hand back what the strategy asked for, call by call. */
    method OnBars(batch: seq<Event>) returns (out: seq<Request>)
      requires Valid()
      modifies this
      ensures Valid()
      ensures State() == LiveModel.OnBars(env, symbols, old(State()), batch, views)
      ensures issued == old(issued) + out
    {
      out := [];
      var es := Sort(LiveModel.Mine(batch, |buffers|));
      LiveModel.SortedSubs(LiveModel.Mine(batch, |buffers|), |buffers|);
      ghost var result := LiveModel.Groups(env, symbols, State(), es, views);
      while es != []
        invariant Valid() && forall j :: 0 <= j < |es| ==> es[j].sub < |buffers|
        invariant LiveModel.Groups(env, symbols, State(), es, views) == result
        invariant issued == old(issued) + out
        decreases |es|
      {
        var n := LiveModel.Together(es);
        var more := OnGroup(es[..n]);
        ConcatAssociates(old(issued), out, more);
        es := es[n..];
        out := out + more;
      }
    }

    method OnGroup(group: seq<Event>) returns (out: seq<Request>)
      requires Valid() && group != [] && forall i :: 0 <= i < |group| ==> group[i].sub < |buffers|
      modifies this
      ensures Valid() && |buffers| == |old(buffers)|
      ensures State() == LiveModel.Group(env, symbols, old(State()), group, views)
      ensures issued == old(issued) + out
    {
      out := [];
      AppendAll(group);
      if !broken {
        if group[0].At() < now {
          broken := true;
        } else {
          now := group[0].At();
        }
      }
      if !broken && LiveModel.WarmedUp(buffers, env.warmup) {
        out := CallAll(group);
      }
    }

    method AppendAll(group: seq<Event>)
      requires Valid() && forall i :: 0 <= i < |group| ==> group[i].sub < |buffers|
      modifies this`buffers, this`broken
      ensures Valid() && |buffers| == |old(buffers)|
      ensures State() == LiveModel.AppendAll(old(State()), group)
    {
      for i := 0 to |group|
        invariant Valid() && |buffers| == |old(buffers)|
        invariant LiveModel.AppendAll(State(), group[i..]) == LiveModel.AppendAll(old(State()), group)
      {
        assert group[i..][0] == group[i] && group[i..][1..] == group[i + 1..];
        var e := group[i];
        var b := buffers[e.sub];
        if !broken {
          if b != [] && e.At() <= b[|b| - 1].closeTime {
            broken := true;
          } else {
            buffers := buffers[e.sub := b + [e.candle]];
          }
        }
      }
    }

    method CallAll(group: seq<Event>) returns (out: seq<Request>)
      requires Valid()
      modifies this`strategy, this`seen, this`broken, this`issued
      ensures Valid()
      ensures State() == LiveModel.CallAll(env, symbols, old(State()), group, 0, views)
      ensures issued == old(issued) + out
    {
      out := [];
      for i := 0 to |group|
        invariant Valid()
        invariant LiveModel.CallAll(env, symbols, State(), group[i..], i, views)
          == LiveModel.CallAll(env, symbols, old(State()), group, 0, views)
        invariant issued == old(issued) + out
      {
        assert group[i..][0] == group[i] && group[i..][1..] == group[i + 1..];
        var more := CallOne(group[i], i);
        ConcatAssociates(old(issued), out, more);
        out := out + more;
      }
    }

    method CallOne(e: Event, i: nat) returns (out: seq<Request>)
      requires Valid()
      modifies this`strategy, this`seen, this`broken, this`issued
      ensures Valid()
      ensures State() == LiveModel.CallOne(env, symbols, old(State()), e, views(now, i))
      ensures issued == old(issued) + out
    {
      out := [];
      if broken {
        return;
      }
      var (next, reqs) := env.onBar(strategy, View(now, buffers, views(now, i)), e.sub, e.candle);
      strategy := next;
      var checked := CheckRequests(env, symbols, reqs, now, seen);
      if checked.None? {
        broken := true;
      } else {
        seen := checked.value;
        out := reqs;
        issued := issued + reqs;
      }
    }
  }
}
