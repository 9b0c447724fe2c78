/** Broker deals and the expected balance: the order manager's book, in memory and in the journal, the
    broker's deal log, and the steps between them. The process may crash between any two steps. */
module Deals {
  import opened Types

  datatype Deal = Deal(id: string, time: int, cash: real)

  /** `applied` is the history of deals the book has taken in; the rest is what the journal holds. */
  datatype Book = Book(seen: map<string, int>, cursor: int, since: int, expected: real, applied: set<string>)

  /** One deal of a broker answer; deals seen before are passed over. */
  function Taken(b: Book, d: Deal): Book {
    if d.id in b.seen then b
    else
      b.(seen := b.seen[d.id := d.time],
         expected := if d.time >= b.since then b.expected + d.cash else b.expected,
         applied := b.applied + {d.id})
  }

  function Latest(cursor: int, d: Deal): int { if d.time > cursor then d.time else cursor }

  /** Every save forgets the deals of more than a week ago. */
  function Pruned(b: Book, now: int): Book {
    b.(seen := map id | id in b.seen && b.seen[id] >= now - WEEK :: b.seen[id])
  }

  // ---------------------------------------------------------------- the running system

  /** A sync on its way: the broker has been asked for the deals since `start` less the lookback, or its answer is
      being worked through. `cursor` is not in the book before the end; `upTo` is how many deals the broker had when
      it answered. */
  datatype Sync =
    | Asked(start: int)
    | Answered(start: int, rest: seq<Deal>, cursor: int, news: bool, upTo: nat)

  /** Several syncs may be on their way. `read` is how many deals the broker had when the owner's command read the
      account, until it sets the expected balance to what it read. */
  datatype Memory = Memory(book: Book, syncs: seq<Sync>, read: Option<nat>)

  /** The broker's balance is `opening` plus the cash of its deals. */
  datatype System = System(now: int, opening: real, log: seq<Deal>, disk: Book, mem: Option<Memory>)

  datatype Step =
    | Crash
    | Restart
    | Tick(now: int)
    | Trade(id: string, cash: real)
      // a sync
    | Ask
    | Answer(i: nat, deals: seq<Deal>)
    | TakeNext(i: nat)
    | Finish(i: nat)
      // any other job that writes the journal
    | Save
      // the owner's command
    | ReadBalance
    | Rebase

  function Cash(log: seq<Deal>): real {
    if log == [] then 0.0 else Cash(log[..|log| - 1]) + log[|log| - 1].cash
  }

  function Balance(s: System): real { s.opening + Cash(s.log) }

  /** Everything since then, in any order and any number of times. */
  ghost predicate Answers(log: seq<Deal>, since: int, answer: seq<Deal>) {
    && (forall d :: d in answer ==> d in log && d.time >= since)
    && (forall d :: d in log && d.time >= since ==> d in answer)
  }

  /** First start: the account is read when the broker has logged `atRead`, the clock a little later, when it has
      logged `log`. The balance read is the reference, the instant of the clock the start of counting. */
  function Initialized(now: int, opening: real, atRead: seq<Deal>, log: seq<Deal>): System {
    var book := Book(map[], now, now, opening + Cash(atRead), {});
    System(now, opening, log, book, Some(Memory(book, [], None)))
  }

  function Written(s: System, m: Memory): System {
    var book := Pruned(m.book, s.now);
    s.(disk := book, mem := Some(m.(book := book)))
  }

  function Without(ys: seq<Sync>, i: nat): seq<Sync>
    requires i < |ys|
  {
    ys[..i] + ys[i + 1..]
  }

  function TakeStep(m: Memory, i: nat): Memory
    requires i < |m.syncs| && m.syncs[i].Answered? && m.syncs[i].rest != []
  {
    var y, d := m.syncs[i], m.syncs[i].rest[0];
    if d.id in m.book.seen then m.(syncs := m.syncs[i := y.(rest := y.rest[1..])])
    else
      m.(book := Taken(m.book, d),
         syncs := m.syncs[i := y.(rest := y.rest[1..], cursor := Latest(y.cursor, d), news := true)])
  }

  predicate AtEnd(m: Memory, i: nat) { i < |m.syncs| && m.syncs[i].Answered? && m.syncs[i].rest == [] }

  function Finished(m: Memory, i: nat): Memory
    requires AtEnd(m, i)
  {
    m.(book := m.book.(cursor := m.syncs[i].cursor), syncs := Without(m.syncs, i))
  }

  /** A sync that has changed nothing does not write the journal. */
  predicate Writes(m: Memory, i: nat)
    requires AtEnd(m, i)
  {
    m.syncs[i].news || m.syncs[i].cursor != m.book.cursor
  }

  /** The owner's command adopts the balance it has read. */
  function Rebased(s: System, m: Memory): Memory
    requires m.read.Some? && m.read.value <= |s.log|
  {
    m.(book := m.book.(expected := s.opening + Cash(s.log[..m.read.value])), read := None)
  }

  ghost function MemoryStep(lookback: int, s: System, m: Memory, step: Step): System {
    match step
    case Ask => s.(mem := Some(m.(syncs := m.syncs + [Asked(m.book.cursor)])))
    case Answer(i, deals) =>
      if i < |m.syncs| && m.syncs[i].Asked? && Answers(s.log, m.syncs[i].start - lookback, deals) then
        var start := m.syncs[i].start;
        s.(mem := Some(m.(syncs := m.syncs[i := Answered(start, deals, start, false, |s.log|)])))
      else s
    case TakeNext(i) =>
      if i < |m.syncs| && m.syncs[i].Answered? && m.syncs[i].rest != [] then s.(mem := Some(TakeStep(m, i))) else s
    case Finish(i) =>
      if !AtEnd(m, i) then s
      else if Writes(m, i) then Written(s, Finished(m, i))
      else s.(mem := Some(Finished(m, i)))
    case Save => Written(s, m)
    case ReadBalance => s.(mem := Some(m.(read := Some(|s.log|))))
    case Rebase => if m.read.Some? && m.read.value <= |s.log| then Written(s, Rebased(s, m)) else s
    case _ => s
  }

  ghost function Next(lookback: int, s: System, step: Step): System {
    match step
    case Crash => s.(mem := None)
    case Restart => if s.mem.None? then s.(mem := Some(Memory(s.disk, [], None))) else s
    case Tick(now) => if now >= s.now then s.(now := now) else s
    case Trade(id, cash) =>
      if forall d :: d in s.log ==> d.id != id then s.(log := s.log + [Deal(id, s.now, cash)]) else s
    case _ => if s.mem.Some? then MemoryStep(lookback, s, s.mem.value, step) else s
  }

  ghost function Run(lookback: int, s: System, steps: seq<Step>): System {
    if steps == [] then s else Next(lookback, Run(lookback, s, steps[..|steps| - 1]), steps[|steps| - 1])
  }

  // ---------------------------------------------------------------- the book, updated in place

  function TakenAll(b: Book, ds: seq<Deal>): Book {
    if ds == [] then b else Taken(TakenAll(b, ds[..|ds| - 1]), ds[|ds| - 1])
  }

  function LatestNew(b: Book, cursor: int, ds: seq<Deal>): int {
    if ds == [] then cursor
    else
      var d, before := ds[|ds| - 1], ds[..|ds| - 1];
      if d.id in TakenAll(b, before).seen then LatestNew(b, cursor, before) else Latest(LatestNew(b, cursor, before), d)
  }

  /** The book after an uninterrupted sync of these deals. */
  function Synced(b: Book, ds: seq<Deal>, now: int): Book {
    var r := TakenAll(b, ds);
    var cursor := LatestNew(b, b.cursor, ds);
    if r != b || cursor != b.cursor then Pruned(r.(cursor := cursor), now) else r
  }

  lemma Snoc(ds: seq<Deal>, i: nat)
    requires i < |ds|
    ensures ds[..i + 1] == ds[..i] + [ds[i]] && ds[..i + 1][..i] == ds[..i] && ds[..i + 1][i] == ds[i]
  {}

  class DealBook {
    var seen: map<string, int>
    var cursor: int
    const since: int
    var expected: real
    ghost var applied: set<string>

    ghost function State(): Book
      reads this
    {
      Book(seen, cursor, since, expected, applied)
    }

    constructor (now: int, balance: real)
      ensures State() == Book(map[], now, now, balance, {})
    {
      seen, cursor, since, expected, applied := map[], now, now, balance, {};
    }

    /** Take in the deals of one answer, each once. */
    method SyncDeals(deals: seq<Deal>, now: int) returns (added: nat)
      modifies this
      ensures State() == Synced(old(State()), deals, now)
      ensures added > 0 <==> exists d :: d in deals && d.id !in old(seen)
    {
      added := 0;
      var latest := cursor;
      for i := 0 to |deals|
        invariant State() == TakenAll(old(State()), deals[..i])
        invariant latest == LatestNew(old(State()), old(cursor), deals[..i])
        invariant cursor == old(cursor)
        invariant added > 0 <==> exists d :: d in deals[..i] && d.id !in old(seen)
        invariant added == 0 ==> State() == old(State()) && latest == old(cursor)
        invariant added > 0 ==> State() != old(State())
        invariant forall id :: id in old(seen) ==> id in seen
        invariant forall id :: id in seen ==> id in old(seen) || added > 0
      {
        var d := deals[i];
        Snoc(deals, i);
        if d.id !in seen {
          seen := seen[d.id := d.time];
          added := added + 1;
          if d.time >= since {
            expected := expected + d.cash;
          }
          applied := applied + {d.id};
          if d.time > latest {
            latest := d.time;
          }
        }
      }
      assert deals[..|deals|] == deals;
      if added > 0 || latest != cursor {
        cursor := latest;
        ghost var before := State();
        Prune(now);
        assert seen == Pruned(before, now).seen;
      }
    }

    /** Forget the deals of more than a week ago, as every save does; nothing else changes. */
    method Prune(now: int)
      modifies this`seen
      ensures forall id :: id in seen <==> id in old(seen) && old(seen)[id] >= now - WEEK
      ensures forall id :: id in seen ==> seen[id] == old(seen)[id]
    {
      seen := map id | id in seen && seen[id] >= now - WEEK :: seen[id];
    }
  }
}
