/** What every run of the order protocol keeps, whatever is lost and wherever it crashes. */
module OrderLaws {
  import opened Types
  import opened Orders

  // ---------------------------------------------------------------- the write-ahead journal

  /** Everything the broker ever accepted was journaled before; what it holds, it accepted. */
  ghost predicate WriteAhead(s: System) {
    && (forall r :: r in s.broker.placed ==> r in s.written)
    && (forall r :: r in s.written ==> r.id in s.disk.orders)
    && (forall id :: s.broker.positions[id] + s.broker.resting[id] <= Count(s.broker.placed, id))
    && (forall id :: id in s.confirmed ==> Count(s.broker.placed, id) >= 1)
  }

  ghost predicate Increasing(rs: seq<Request>) { forall i, j :: 0 <= i < j < |rs| ==> rs[i].sequence < rs[j].sequence }

  /** Memory is never behind the disk, and sends belong to journaled orders. */
  ghost predicate MemoryFits(s: System, m: Memory) {
    && (forall id :: id in s.disk.orders ==> id in m.orders)
    && s.disk.lastSequence <= m.lastSequence
    && (forall id :: id in m.sends ==> Request(id, m.sends[id].sequence) in s.written && m.sends[id].attempt <= 1)
    && (m.entry.Some? ==> EntryFits(s, m, m.entry.value))
  }

  ghost predicate EntryFits(s: System, m: Memory, e: Entry) {
    && e.sequence == m.lastSequence
    && e.id !in s.disk.orders
    && e.id !in m.sends
    && (e.id in m.orders <==> e.progress == Registered)
    && (e.progress == SequenceInMemory ==> s.disk.lastSequence < e.sequence)
    && (e.progress != SequenceInMemory ==>
          s.disk.lastSequence == e.sequence && forall r :: r in s.written ==> r.sequence < e.sequence)
  }

  ghost predicate Fits(s: System) {
    && WriteAhead(s)
    && Increasing(s.written)
    && (forall r :: r in s.written ==> r.sequence <= s.disk.lastSequence)
    && (s.mem.Some? ==> MemoryFits(s, s.mem.value))
  }

  /** One attempt, one request at most. */
  ghost predicate WithinAttempts(s: System) {
    forall id :: Count(s.broker.placed, id) <=
      if s.mem.Some? && id in s.mem.value.sends then s.mem.value.sends[id].attempt else 2
  }

  lemma {:induction false} CountMembers(rs: seq<Request>, id: string)
    ensures Count(rs, id) > 0 <==> exists r :: r in rs && r.id == id
  {
    if rs != [] {
      var n := |rs| - 1;
      CountMembers(rs[..n], id);
      assert rs == rs[..n] + [rs[n]];
    }
  }

  lemma CountSnoc(rs: seq<Request>, r: Request)
    ensures forall id :: Count(rs + [r], id) == Count(rs, id) + if r.id == id then 1 else 0
  {
    assert (rs + [r])[..|rs|] == rs;
  }

  lemma BrokerFits(s: System, step: Step)
    requires OfBroker(step) && Fits(s)
    ensures Fits(Next(s, step))
  {}

  lemma EntryKeepsFits(s: System, m: Memory, e: Entry, step: Step)
    requires Fits(s) && s.mem == Some(m) && m.entry == Some(e)
    ensures Fits(EntryStep(s, m, e, step))
  {
    var s' := EntryStep(s, m, e, step);
    if step.SaveOrder? && e.progress == Registered {
      forall r | r in s.broker.placed
        ensures r in s'.written
      {
        assert r in s.written;
      }
    }
  }

  lemma VerifyKeepsFits(s: System, m: Memory, d: Decision, intentHex: string, kind: Kind, now: int)
    requires Fits(s) && s.mem == Some(m)
    ensures Fits(VerifyStep(s, m, d, intentHex, kind, now))
  {}

  lemma JobKeepsFits(s: System, m: Memory, step: Step)
    requires Fits(s) && s.mem == Some(m) && m.entry.None?
    ensures Fits(JobStep(s, m, step))
  {}

  lemma RetryKeepsFits(s: System, m: Memory, id: string)
    requires Fits(s) && MemoryFits(s, m) && id in m.sends
    ensures Fits(s.(mem := Some(Retry(m, id, m.sends[id]))))
  {}

  lemma ConfirmedKeepsFits(s: System, m: Memory, id: string, status: Status)
    requires Fits(s) && MemoryFits(s, m) && m.entry.None? && id in m.sends && Count(s.broker.placed, id) >= 1
    ensures Fits(Confirmed(s, m, id, status))
  {}

  lemma AcceptKeepsFits(s: System, m: Memory, id: string)
    requires Fits(s) && s.mem == Some(m) && id in m.sends
    ensures Fits(s.(broker := Accept(s.broker, id, m.sends[id])))
  {
    var r := Request(id, m.sends[id].sequence);
    CountSnoc(s.broker.placed, r);
    assert r in s.written;
  }

  lemma LookKeepsFits(s: System, m: Memory, id: string, lost: bool)
    requires Fits(s) && s.mem == Some(m) && m.entry.None? && id in m.sends
    ensures Fits(PositionStep(s, m, id, m.sends[id], lost)) && Fits(OrderStep(s, m, id, m.sends[id], lost))
  {
    RetryKeepsFits(s, m, id);
    if id in s.broker.positions {
      ConfirmedKeepsFits(s, m, id, Open);
    }
    if id in s.broker.resting {
      ConfirmedKeepsFits(s, m, id, Pending);
    }
  }

  lemma SendKeepsFits(s: System, m: Memory, step: Step)
    requires Fits(s) && s.mem == Some(m) && m.entry.None?
    ensures Fits(SendStep(s, m, step))
  {
    if step.LookForPosition? && step.id in m.sends {
      LookKeepsFits(s, m, step.id, step.lost);
    } else if step.LookForOrder? && step.id in m.sends {
      LookKeepsFits(s, m, step.id, step.lost);
    } else if step.Place? && step.id in m.sends {
      PlaceKeepsFits(s, m, step.id, step.outcome);
    }
  }

  lemma PlaceKeepsFits(s: System, m: Memory, id: string, outcome: Outcome)
    requires Fits(s) && s.mem == Some(m) && m.entry.None? && id in m.sends
    ensures Fits(PlaceStep(s, m, id, m.sends[id], outcome))
  {
    RetryKeepsFits(s, m, id);
    if outcome.Accepted? {
      AcceptKeepsFits(s, m, id);
      var s' := s.(broker := Accept(s.broker, id, m.sends[id]));
      CountSnoc(s.broker.placed, Request(id, m.sends[id].sequence));
      RetryKeepsFits(s', m, id);
      ConfirmedKeepsFits(s', m, id, if m.sends[id].kind == AtMarket then Open else Pending);
    }
  }

  lemma NextFits(s: System, step: Step)
    requires Fits(s)
    ensures Fits(Next(s, step))
  {
    if OfBroker(step) {
      BrokerFits(s, step);
    } else if !step.Crash? && s.mem.Some? {
      var m := s.mem.value;
      if m.entry.Some? {
        EntryKeepsFits(s, m, m.entry.value, step);
      } else if step.Verify? {
        VerifyKeepsFits(s, m, step.d, step.intentHex, step.kind, step.now);
      } else {
        JobKeepsFits(s, m, step);
        SendKeepsFits(s, m, step);
      }
    }
  }

  // ---------------------------------------------------------------- at most two requests, always

  lemma PlaceWithinAttempts(s: System, m: Memory, id: string, outcome: Outcome)
    requires WithinAttempts(s) && s.mem == Some(m) && id in m.sends && m.sends[id].attempt <= 1
    ensures WithinAttempts(PlaceStep(s, m, id, m.sends[id], outcome))
  {
    var s', send := PlaceStep(s, m, id, m.sends[id], outcome), m.sends[id];
    var placed := s.broker.placed;
    CountSnoc(placed, Request(id, send.sequence));
    assert s'.broker.placed == placed || s'.broker.placed == placed + [Request(id, send.sequence)];
    assert forall k :: Count(s'.broker.placed, k) <= Count(placed, k) + if k == id then 1 else 0;
    AttemptOver(m.sends, s'.mem.value.sends, id, s.broker.placed, s'.broker.placed);
  }

  lemma AttemptOver(
    sends: map<string, Send>, sends': map<string, Send>, id: string, placed: seq<Request>, placed': seq<Request>)
    requires forall k :: Count(placed, k) <= if k in sends then sends[k].attempt else 2
    requires id in sends && sends[id].attempt <= 1
    requires
      || sends' == sends - {id}
      || (sends[id].attempt == 0 && sends' == sends[id := sends[id].(attempt := 1, stage := ReadPositions)])
    requires forall k :: Count(placed', k) <= Count(placed, k) + if k == id then 1 else 0
    ensures forall k :: Count(placed', k) <= if k in sends' then sends'[k].attempt else 2
  {
    forall k
      ensures Count(placed', k) <= if k in sends' then sends'[k].attempt else 2
    {
      assert Count(placed, k) <= if k in sends then sends[k].attempt else 2;
    }
  }

  lemma LookWithinAttempts(s: System, m: Memory, id: string, lost: bool)
    requires WithinAttempts(s) && s.mem == Some(m) && id in m.sends && m.sends[id].attempt <= 1
    ensures WithinAttempts(PositionStep(s, m, id, m.sends[id], lost))
    ensures WithinAttempts(OrderStep(s, m, id, m.sends[id], lost))
  {}

  lemma SendWithinAttempts(s: System, m: Memory, step: Step)
    requires WithinAttempts(s) && s.mem == Some(m) && forall id :: id in m.sends ==> m.sends[id].attempt <= 1
    ensures WithinAttempts(SendStep(s, m, step))
  {
    if step.LookForPosition? && step.id in m.sends {
      LookWithinAttempts(s, m, step.id, step.lost);
    } else if step.LookForOrder? && step.id in m.sends {
      LookWithinAttempts(s, m, step.id, step.lost);
    } else if step.Place? && step.id in m.sends {
      PlaceWithinAttempts(s, m, step.id, step.outcome);
    }
  }

  lemma EntryWithinAttempts(s: System, m: Memory, e: Entry, step: Step)
    requires WithinAttempts(s) && Fits(s) && s.mem == Some(m) && m.entry == Some(e)
    ensures WithinAttempts(EntryStep(s, m, e, step))
  {
    if step.SaveOrder? && e.progress == Registered {
      NeverPlaced(s, e.id);
      SendStarts(s.broker.placed, m.sends, e.id, Send(e.kind, e.sequence, 0, ReadPositions));
    }
  }

  lemma SendStarts(placed: seq<Request>, sends: map<string, Send>, id: string, send: Send)
    requires forall k :: Count(placed, k) <= if k in sends then sends[k].attempt else 2
    requires Count(placed, id) == 0
    ensures forall k :: Count(placed, k) <= if k in sends[id := send] then sends[id := send][k].attempt else 2
  {}

  /** What is not journaled never reached the broker. */
  lemma NeverPlaced(s: System, id: string)
    requires WriteAhead(s) && id !in s.disk.orders
    ensures Count(s.broker.placed, id) == 0
  {
    CountMembers(s.broker.placed, id);
  }

  lemma NextWithinAttempts(s: System, step: Step)
    requires WithinAttempts(s) && Fits(s)
    ensures WithinAttempts(Next(s, step))
  {
    if !OfBroker(step) && !step.Crash? && s.mem.Some? {
      var m := s.mem.value;
      if m.entry.Some? {
        EntryWithinAttempts(s, m, m.entry.value, step);
      } else {
        SendWithinAttempts(s, m, step);
      }
    }
  }

  lemma {:induction false} RunFits(steps: seq<Step>)
    ensures Fits(Run(steps)) && WithinAttempts(Run(steps))
  {
    if steps != [] {
      var n := |steps| - 1;
      RunFits(steps[..n]);
      NextFits(Run(steps[..n]), steps[n]);
      NextWithinAttempts(Run(steps[..n]), steps[n]);
    }
  }

  /** Over every run, with any losses and crashes: what is at the broker is in the journal on disk, the
      sequence numbers of the journaled entries strictly increase, nothing else reaches the broker, and no
      order id reaches it more than twice. */
  lemma EveryOrderIsJournaled(steps: seq<Step>)
    ensures var s := Run(steps);
      && (forall id :: id in s.broker.positions || id in s.broker.resting || Count(s.broker.placed, id) > 0 ==>
        id in s.disk.orders)
      && (forall r :: r in s.broker.placed ==> r in s.written)
      && Increasing(s.written)
      && (forall id :: Count(s.broker.placed, id) <= 2)
  {
    RunFits(steps);
    var s := Run(steps);
    forall id | id !in s.disk.orders
      ensures Count(s.broker.placed, id) == 0
    {
      NeverPlaced(s, id);
    }
  }

  // ---------------------------------------------------------------- at most once

  predicate InFlight(s: System, id: string) { s.mem.Some? && id in s.mem.value.sends }

  /** The order of a send in flight does not leave the broker, and it does not fill between the two calls
      of one search. */
  predicate Calm(s: System, step: Step) {
    && ((step.CloseOut? || step.Withdraw?) ==> !InFlight(s, step.id))
    && (step.Fill? && InFlight(s, step.id) ==> s.mem.value.sends[step.id].stage != ReadOrders)
  }

  ghost predicate CalmRun(steps: seq<Step>) { forall i :: 0 <= i < |steps| ==> Calm(Run(steps[..i]), steps[i]) }

  /** A send whose order is already at the broker is going to find it. */
  ghost predicate WillFind(b: Broker, id: string, send: Send) {
    && send.stage != Placing
    && b.positions[id] + b.resting[id] >= 1
    && (send.stage == ReadOrders ==> b.resting[id] >= 1)
  }

  ghost predicate OnceFor(s: System, id: string) {
    var n := Count(s.broker.placed, id);
    && n <= 1
    && (InFlight(s, id) && n == 1 ==> WillFind(s.broker, id, s.mem.value.sends[id]))
    && (id in s.disk.orders && s.disk.orders[id] == Rejected ==> n == 0 && !InFlight(s, id))
    && (s.mem.Some? && id in s.mem.value.orders && s.mem.value.orders[id] == Rejected ==>
          n == 0 && !InFlight(s, id) && id in s.disk.orders)
  }

  ghost predicate Once(s: System) { forall id :: OnceFor(s, id) }

  lemma BrokerOnce(s: System, step: Step, k: string)
    requires OnceFor(s, k) && Calm(s, step) && OfBroker(step)
    ensures OnceFor(Next(s, step), k)
  {}

  lemma LookOnce(s: System, m: Memory, id: string, lost: bool, k: string)
    requires OnceFor(s, k) && s.mem == Some(m) && id in m.sends
    ensures m.sends[id].stage == ReadPositions ==> OnceFor(PositionStep(s, m, id, m.sends[id], lost), k)
    ensures m.sends[id].stage == ReadOrders ==> OnceFor(OrderStep(s, m, id, m.sends[id], lost), k)
  {}

  lemma PlaceOnce(s: System, m: Memory, id: string, outcome: Outcome, k: string)
    requires OnceFor(s, k) && s.mem == Some(m) && id in m.sends && m.sends[id].stage == Placing && id in s.disk.orders
    ensures OnceFor(PlaceStep(s, m, id, m.sends[id], outcome), k)
  {
    CountSnoc(s.broker.placed, Request(id, m.sends[id].sequence));
    if k != id {
      OthersOnce(s, m, id, outcome, k);
    }
  }

  /** A request for one id says nothing about another: accepting it, and retrying or finishing its send. */
  lemma OthersOnce(s: System, m: Memory, id: string, outcome: Outcome, k: string)
    requires OnceFor(s, k) && s.mem == Some(m) && id in m.sends && m.sends[id].stage == Placing && k != id
    requires Count(s.broker.placed + [Request(id, m.sends[id].sequence)], k) == Count(s.broker.placed, k)
    ensures OnceFor(PlaceStep(s, m, id, m.sends[id], outcome), k)
  {
    var s' := if outcome.Accepted? then s.(broker := Accept(s.broker, id, m.sends[id])) else s;
    assert OnceFor(s', k);
    OtherSendOnce(s', m, id, k);
  }

  lemma OtherSendOnce(s: System, m: Memory, id: string, k: string)
    requires OnceFor(s, k) && s.mem == Some(m) && id in m.sends && k != id
    ensures OnceFor(s.(mem := Some(Retry(m, id, m.sends[id]))), k)
    ensures forall status :: OnceFor(Saved(s, Finished(m, id, status)), k) && OnceFor(Confirmed(s, m, id, status), k)
  {}

  lemma SendOnce(s: System, m: Memory, step: Step, k: string)
    requires OnceFor(s, k) && s.mem == Some(m) && forall id :: id in m.sends ==> id in s.disk.orders
    ensures OnceFor(SendStep(s, m, step), k)
  {
    if step.LookForPosition? && step.id in m.sends {
      LookOnce(s, m, step.id, step.lost, k);
    } else if step.LookForOrder? && step.id in m.sends {
      LookOnce(s, m, step.id, step.lost, k);
    } else if step.Place? && step.id in m.sends && m.sends[step.id].stage == Placing {
      PlaceOnce(s, m, step.id, step.outcome, k);
    }
  }

  lemma EntryOnce(s: System, m: Memory, e: Entry, step: Step, k: string)
    requires OnceFor(s, k) && Fits(s) && s.mem == Some(m) && m.entry == Some(e)
    ensures OnceFor(EntryStep(s, m, e, step), k)
  {
    NeverPlaced(s, e.id);
  }

  lemma NextOnce(s: System, step: Step, k: string)
    requires OnceFor(s, k) && Fits(s) && Calm(s, step)
    ensures OnceFor(Next(s, step), k)
  {
    if OfBroker(step) {
      BrokerOnce(s, step, k);
    } else if !step.Crash? && s.mem.Some? {
      var m := s.mem.value;
      if m.entry.Some? {
        EntryOnce(s, m, m.entry.value, step, k);
      } else if step.Verify? || step.Note? || step.AdoptUnknown? || step.Save? {
        JobOnce(s, m, step, k);
      } else {
        JournaledSends(s, m);
        SendOnce(s, m, step, k);
      }
    }
  }

  lemma JobOnce(s: System, m: Memory, step: Step, k: string)
    requires OnceFor(s, k) && s.mem == Some(m) && m.entry.None?
    requires step.Verify? || step.Note? || step.AdoptUnknown? || step.Save?
    ensures OnceFor(ProcessStep(s, m, step), k)
  {}

  lemma JournaledSends(s: System, m: Memory)
    requires Fits(s) && s.mem == Some(m)
    ensures forall id :: id in m.sends ==> id in s.disk.orders
  {
    forall id | id in m.sends
      ensures id in s.disk.orders
    {
      assert Request(id, m.sends[id].sequence) in s.written;
    }
  }

  lemma {:induction false} RunOnce(steps: seq<Step>)
    requires CalmRun(steps)
    ensures Once(Run(steps))
  {
    if steps != [] {
      var front, last := steps[..|steps| - 1], steps[|steps| - 1];
      CalmPrefix(steps);
      RunOnce(front);
      RunFits(front);
      AllOnce(Run(front), last);
    }
  }

  lemma CalmPrefix(steps: seq<Step>)
    requires CalmRun(steps) && steps != []
    ensures CalmRun(steps[..|steps| - 1]) && Calm(Run(steps[..|steps| - 1]), steps[|steps| - 1])
  {
    var front := steps[..|steps| - 1];
    forall i: nat | i < |front|
      ensures Calm(Run(front[..i]), front[i])
    {
      SamePrefix(steps, i);
    }
  }

  lemma AllOnce(s: System, step: Step)
    requires Once(s) && Fits(s) && Calm(s, step)
    ensures Once(Next(s, step))
  {
    forall id
      ensures OnceFor(Next(s, step), id)
    {
      NextOnce(s, step, id);
    }
  }

  /** With any lost answers, repeated decisions and crashes: no intent puts two orders at the broker, an order
      reported as sent was accepted exactly once, and one recorded as rejected never. */
  lemma AtMostOnce(steps: seq<Step>)
    requires CalmRun(steps)
    ensures var s := Run(steps);
      && (forall id :: Count(s.broker.placed, id) <= 1)
      && (forall id :: id in s.confirmed ==> Count(s.broker.placed, id) == 1)
      && (forall id :: id in s.disk.orders && s.disk.orders[id] == Rejected ==> Count(s.broker.placed, id) == 0)
  {
    RunOnce(steps);
    RunFits(steps);
    OnceMeans(Run(steps));
  }

  lemma OnceMeans(s: System)
    requires Once(s) && forall id :: id in s.confirmed ==> Count(s.broker.placed, id) >= 1
    ensures forall id :: Count(s.broker.placed, id) <= 1
    ensures forall id :: id in s.confirmed ==> Count(s.broker.placed, id) == 1
    ensures forall id :: id in s.disk.orders && s.disk.orders[id] == Rejected ==> Count(s.broker.placed, id) == 0
  {
    forall id
      ensures Count(s.broker.placed, id) <= 1
      ensures id in s.disk.orders && s.disk.orders[id] == Rejected ==> Count(s.broker.placed, id) == 0
    {
      assert OnceFor(s, id);
    }
  }

  // ---------------------------------------------------------------- what the search cannot see

  /** A process that runs no entry and whose send of this order is at this point. */
  ghost predicate SendIs(s: System, id: string, send: Send) {
    s.mem.Some? && s.mem.value.entry.None? && id in s.mem.value.sends && s.mem.value.sends[id] == send
  }

  lemma AnswerLost(s: System, id: string, send: Send)
    requires SendIs(s, id, send) && send.attempt == 0 && send.stage == Placing
    ensures var s' := Next(s, Place(id, Accepted(false)));
      SendIs(s', id, send.(attempt := 1, stage := ReadPositions)) && s'.broker == Accept(s.broker, id, send)
  {}

  lemma NoPosition(s: System, id: string, send: Send)
    requires SendIs(s, id, send) && send.stage == ReadPositions && id !in s.broker.positions
    ensures var s' := Next(s, LookForPosition(id, false));
      SendIs(s', id, send.(stage := ReadOrders)) && s'.broker == s.broker
  {}

  lemma NoOrder(s: System, id: string, send: Send)
    requires SendIs(s, id, send) && send.stage == ReadOrders && id !in s.broker.resting
    ensures var s' := Next(s, LookForOrder(id, false));
      SendIs(s', id, send.(stage := Placing)) && s'.broker == s.broker
  {}

  lemma PlacesAgain(s: System, id: string, send: Send)
    requires SendIs(s, id, send) && send.stage == Placing
    ensures Count(Next(s, Place(id, Accepted(true))).broker.placed, id) == Count(s.broker.placed, id) + 1
  {
    CountSnoc(s.broker.placed, Request(id, send.sequence));
  }

  /** Whenever a first attempt is about to place a market order: if its answer is lost and the position is
      stopped out before the second search, the second attempt places it again. */
  lemma ClosedBetweenAttempts(s: System, id: string, sequence: int)
    requires SendIs(s, id, Send(AtMarket, sequence, 0, Placing)) && id !in s.broker.positions && id !in s.broker.resting
    ensures var s1 := Next(s, Place(id, Accepted(false)));
      var s2 := Next(s1, CloseOut(id));
      var s3 := Next(s2, LookForPosition(id, false));
      var s4 := Next(s3, LookForOrder(id, false));
      var s5 := Next(s4, Place(id, Accepted(true)));
      Count(s5.broker.placed, id) == Count(s.broker.placed, id) + 2
  {
    var s1 := Next(s, Place(id, Accepted(false)));
    AnswerLost(s, id, Send(AtMarket, sequence, 0, Placing));
    CountSnoc(s.broker.placed, Request(id, sequence));
    var s2 := Next(s1, CloseOut(id));
    NoPosition(s2, id, Send(AtMarket, sequence, 1, ReadPositions));
    var s3 := Next(s2, LookForPosition(id, false));
    NoOrder(s3, id, Send(AtMarket, sequence, 1, ReadOrders));
    PlacesAgain(Next(s3, LookForOrder(id, false)), id, Send(AtMarket, sequence, 1, Placing));
  }

  /** The same without the position ever closing: a resting order that fills between the two calls of the
      search is in neither answer. */
  lemma FilledBetweenReads(s: System, id: string, sequence: int)
    requires SendIs(s, id, Send(Resting, sequence, 0, Placing)) && id !in s.broker.positions && id !in s.broker.resting
    ensures var s1 := Next(s, Place(id, Accepted(false)));
      var s2 := Next(s1, LookForPosition(id, false));
      var s3 := Next(s2, Fill(id));
      var s4 := Next(s3, LookForOrder(id, false));
      var s5 := Next(s4, Place(id, Accepted(true)));
      Count(s5.broker.placed, id) == Count(s.broker.placed, id) + 2
  {
    AnswerLost(s, id, Send(Resting, sequence, 0, Placing));
    CountSnoc(s.broker.placed, Request(id, sequence));
    var s1 := Next(s, Place(id, Accepted(false)));
    NoPosition(s1, id, Send(Resting, sequence, 1, ReadPositions));
    var s2 := Next(s1, LookForPosition(id, false));
    var s3 := Next(s2, Fill(id));
    NoOrder(s3, id, Send(Resting, sequence, 1, ReadOrders));
    PlacesAgain(Next(s3, LookForOrder(id, false)), id, Send(Resting, sequence, 1, Placing));
  }

  /** Exactly when a retry places again: with whatever the broker holds at each of the three calls, it does if
      and only if the order was neither among the positions at the first nor among the orders at the second. */
  lemma PlacesAgainIffUnseen(s: System, id: string, send: Send, b1: Broker, b2: Broker, b3: Broker)
    requires SendIs(s, id, send) && send.stage == ReadPositions
    ensures var s1 := Next(s.(broker := b1), LookForPosition(id, false));
      var s2 := Next(s1.(broker := b2), LookForOrder(id, false));
      var s3 := Next(s2.(broker := b3), Place(id, Accepted(true)));
      Count(s3.broker.placed, id) > Count(b3.placed, id) <==> id !in b1.positions && id !in b2.resting
  {
    var s1 := Next(s.(broker := b1), LookForPosition(id, false));
    var s2 := Next(s1.(broker := b2), LookForOrder(id, false));
    if id in b1.positions {
      NoSend(s1.(broker := b2), id);
      NoSend(s2.(broker := b3), id);
    } else if id in b2.resting {
      NoPosition(s.(broker := b1), id, send);
      NoSend(s2.(broker := b3), id);
    } else {
      NoPosition(s.(broker := b1), id, send);
      NoOrder(s1.(broker := b2), id, send.(stage := ReadOrders));
      PlacesAgain(s2.(broker := b3), id, send.(stage := Placing));
    }
  }

  lemma NoSend(s: System, id: string)
    requires s.mem.Some? && s.mem.value.entry.None? && id !in s.mem.value.sends
    ensures Next(s, LookForOrder(id, false)) == s && Next(s, Place(id, Accepted(true))) == s
  {}

  /** Such states are reached: from a fresh start, any approved decision leads to one. */
  lemma ReachesPlacing(d: Decision, kind: Kind, now: int) returns (steps: seq<Step>)
    requires |d.intentHex| >= 29 && Verified(d, d.intentHex, now, -1)
    ensures var id := ClientOrderId(d.intentHex);
      && SendIs(Run(steps), id, Send(kind, d.sequence, 0, Placing))
      && id !in Run(steps).broker.positions && id !in Run(steps).broker.resting
  {
    var id := ClientOrderId(d.intentHex);
    steps := [];
    steps := OneStep(steps, Restart);
    steps := OneStep(steps, Verify(d, d.intentHex, kind, now));
    steps := OneStep(steps, SaveSequence);
    steps := OneStep(steps, Register);
    steps := OneStep(steps, SaveOrder);
    NoPosition(Run(steps), id, Send(kind, d.sequence, 0, ReadPositions));
    steps := OneStep(steps, LookForPosition(id, false));
    NoOrder(Run(steps), id, Send(kind, d.sequence, 0, ReadOrders));
    steps := OneStep(steps, LookForOrder(id, false));
  }

  lemma OneStep(steps: seq<Step>, step: Step) returns (more: seq<Step>)
    ensures more == steps + [step] && Run(more) == Next(Run(steps), step)
  {
    more := steps + [step];
    assert more[..|steps|] == steps;
  }

  // ---------------------------------------------------------------- one entry at a time

  /** A decision is looked at only when no send is under way, as a single consumer of decisions does. */
  predicate OneAtATime(s: System, step: Step) { step.Verify? && s.mem.Some? ==> s.mem.value.sends == map[] }

  ghost predicate SerialRun(steps: seq<Step>) { forall i :: 0 <= i < |steps| ==> OneAtATime(Run(steps[..i]), steps[i]) }

  ghost predicate InOrder(s: System) {
    && (forall i, j :: 0 <= i < j < |s.broker.placed| ==> s.broker.placed[i].sequence <= s.broker.placed[j].sequence)
    && (s.mem.Some? ==> SendsInOrder(s.broker.placed, s.mem.value))
  }

  ghost predicate SendsInOrder(placed: seq<Request>, m: Memory) {
    && (m.entry.Some? ==> m.sends == map[])
    && (forall id, k :: id in m.sends && k in m.sends ==> id == k)
    && (forall id, r :: id in m.sends && r in placed ==> r.sequence <= m.sends[id].sequence)
  }

  lemma EntryInOrder(s: System, m: Memory, e: Entry, step: Step)
    requires InOrder(s) && Fits(s) && s.mem == Some(m) && m.entry == Some(e)
    ensures InOrder(EntryStep(s, m, e, step))
  {
    forall r | r in s.broker.placed && e.progress == Registered
      ensures r.sequence <= e.sequence
    {
      assert r in s.written;
    }
  }

  lemma RetryInOrder(placed: seq<Request>, m: Memory, id: string)
    requires SendsInOrder(placed, m) && id in m.sends
    ensures SendsInOrder(placed, Retry(m, id, m.sends[id]))
    ensures forall status :: SendsInOrder(placed, Finished(m, id, status))
  {}

  lemma AcceptInOrder(s: System, m: Memory, id: string)
    requires InOrder(s) && s.mem == Some(m) && id in m.sends
    ensures InOrder(s.(broker := Accept(s.broker, id, m.sends[id])))
  {
    var placed := s.broker.placed;
    forall i | 0 <= i < |placed|
      ensures placed[i].sequence <= m.sends[id].sequence
    {
      assert placed[i] in placed;
    }
  }

  lemma SendInOrder(s: System, m: Memory, step: Step)
    requires InOrder(s) && s.mem == Some(m)
    ensures InOrder(SendStep(s, m, step))
  {
    if step.Place? && step.id in m.sends {
      RetryInOrder(s.broker.placed, m, step.id);
      AcceptInOrder(s, m, step.id);
      RetryInOrder(Accept(s.broker, step.id, m.sends[step.id]).placed, m, step.id);
    } else if (step.LookForPosition? || step.LookForOrder?) && step.id in m.sends {
      LookInOrder(s, m, step.id, step.lost);
    }
  }

  lemma LookInOrder(s: System, m: Memory, id: string, lost: bool)
    requires InOrder(s) && s.mem == Some(m) && id in m.sends
    ensures InOrder(PositionStep(s, m, id, m.sends[id], lost)) && InOrder(OrderStep(s, m, id, m.sends[id], lost))
  {
    RetryInOrder(s.broker.placed, m, id);
  }

  lemma NextInOrder(s: System, step: Step)
    requires InOrder(s) && Fits(s) && OneAtATime(s, step)
    ensures InOrder(Next(s, step))
  {
    if !OfBroker(step) && !step.Crash? && s.mem.Some? {
      var m := s.mem.value;
      if m.entry.Some? {
        EntryInOrder(s, m, m.entry.value, step);
      } else {
        SendInOrder(s, m, step);
      }
    }
  }

  lemma {:induction false} RunInOrder(steps: seq<Step>)
    requires SerialRun(steps)
    ensures InOrder(Run(steps))
  {
    if steps != [] {
      var front := steps[..|steps| - 1];
      SerialPrefix(steps);
      RunInOrder(front);
      RunFits(front);
      NextInOrder(Run(front), steps[|steps| - 1]);
    }
  }

  lemma SerialPrefix(steps: seq<Step>)
    requires SerialRun(steps) && steps != []
    ensures SerialRun(steps[..|steps| - 1]) && OneAtATime(Run(steps[..|steps| - 1]), steps[|steps| - 1])
  {
    var front := steps[..|steps| - 1];
    forall i: nat | i < |front|
      ensures OneAtATime(Run(front[..i]), front[i])
    {
      SamePrefix(steps, i);
    }
  }

  lemma SamePrefix(steps: seq<Step>, i: nat)
    requires i < |steps| - 1
    ensures var front := steps[..|steps| - 1]; front[..i] == steps[..i] && front[i] == steps[i]
  {}

  lemma {:induction false} TwiceCounts(rs: seq<Request>, i: nat, j: nat)
    requires i < j < |rs| && rs[i].id == rs[j].id
    ensures Count(rs, rs[i].id) >= 2
  {
    var n := |rs| - 1;
    if j < n {
      TwiceCounts(rs[..n], i, j);
    } else {
      CountMembers(rs[..n], rs[i].id);
      assert rs[..n][i] in rs[..n];
    }
  }

  /** Decisions reach the broker in strictly increasing order of their sequence numbers, over any restarts. */
  lemma DecisionsReachInOrder(steps: seq<Step>)
    requires CalmRun(steps) && SerialRun(steps)
    ensures Increasing(Run(steps).broker.placed)
  {
    RunInOrder(steps);
    RunFits(steps);
    RunOnce(steps);
    OnceMeans(Run(steps));
    StrictlyInOrder(Run(steps).broker.placed, Run(steps).written);
  }

  lemma StrictlyInOrder(placed: seq<Request>, written: seq<Request>)
    requires Increasing(written) && forall r :: r in placed ==> r in written
    requires forall i, j :: 0 <= i < j < |placed| ==> placed[i].sequence <= placed[j].sequence
    requires forall id :: Count(placed, id) <= 1
    ensures Increasing(placed)
  {
    forall i, j | 0 <= i < j < |placed|
      ensures placed[i].sequence < placed[j].sequence
    {
      if placed[i].id == placed[j].id {
        TwiceCounts(placed, i, j);
      } else {
        assert placed[i] in placed && placed[j] in placed;
        if placed[i].sequence == placed[j].sequence {
          SameSequence(written, placed[i], placed[j]);
        }
      }
    }
  }

  lemma SameSequence(written: seq<Request>, a: Request, b: Request)
    requires Increasing(written) && a in written && b in written && a.sequence == b.sequence
    ensures a == b
  {}
}
