/** Every deal counts once: after any run of syncs, saves and crashes the expected balance is the reference
    plus the cash of the distinct deals taken in, provided no save forgets a deal that an answer to come
    still holds and the owner's command adopts no balance that lacks, or already has, what is not taken in. */
module DealLaws {
  import opened Types
  import opened Deals

  /** Cash of the deals with these ids, at or after an instant; each deal of the log counts once. */
  function CashOf(log: seq<Deal>, ids: set<string>, since: int): real {
    if log == [] then 0.0
    else
      var d := log[|log| - 1];
      CashOf(log[..|log| - 1], ids, since) + if d.id in ids && d.time >= since then d.cash else 0.0
  }

  /** Cash of all deals at or after an instant. */
  function CashSince(log: seq<Deal>, since: int): real {
    if log == [] then 0.0
    else
      var d := log[|log| - 1];
      CashSince(log[..|log| - 1], since) + if d.time >= since then d.cash else 0.0
  }

  lemma {:induction false} CashOfMore(log: seq<Deal>, ids: set<string>, since: int, d: Deal)
    requires Distinct(log) && d in log && d.id !in ids
    ensures CashOf(log, ids + {d.id}, since) == CashOf(log, ids, since) + if d.time >= since then d.cash else 0.0
  {
    var n := |log| - 1;
    assert Distinct(log[..n]);
    if log[n] == d {
      CashOfOthers(log[..n], ids, since, d.id);
    } else {
      assert log == log[..n] + [log[n]];
      var i :| 0 <= i <= n && log[i] == d;
      assert log[n].id != d.id;
      CashOfMore(log[..n], ids, since, d);
    }
  }

  lemma {:induction false} CashOfOthers(log: seq<Deal>, ids: set<string>, since: int, id: string)
    requires forall d :: d in log ==> d.id != id
    ensures CashOf(log, ids + {id}, since) == CashOf(log, ids, since)
  {
    if log != [] {
      CashOfOthers(log[..|log| - 1], ids, since, id);
    }
  }

  lemma {:induction false} AllTaken(log: seq<Deal>, ids: set<string>, since: int)
    requires forall d :: d in log && d.time >= since ==> d.id in ids
    ensures CashOf(log, ids, since) == CashSince(log, since)
  {
    if log != [] {
      AllTaken(log[..|log| - 1], ids, since);
    }
  }

  lemma CashSnoc(log: seq<Deal>, d: Deal)
    ensures Cash(log + [d]) == Cash(log) + d.cash
    ensures forall since ::
      CashSince(log + [d], since) == CashSince(log, since) + if d.time >= since then d.cash else 0.0
    ensures forall ids, since ::
      CashOf(log + [d], ids, since) == CashOf(log, ids, since) + if d.id in ids && d.time >= since then d.cash else 0.0
  {
    assert (log + [d])[..|log|] == log;
  }

  // ---------------------------------------------------------------- the log and the book

  ghost predicate Distinct(log: seq<Deal>) { forall i, j :: 0 <= i < j < |log| ==> log[i].id != log[j].id }

  /** The broker's log: distinct tickets, in time order, none from the future. */
  ghost predicate GoodLog(log: seq<Deal>, now: int) {
    && Distinct(log)
    && (forall i, j :: 0 <= i < j < |log| ==> log[i].time <= log[j].time)
    && (forall i :: 0 <= i < |log| ==> log[i].time <= now)
  }

  /** Every deal taken in that an answer from there on can hold is remembered. */
  ghost predicate Recalls(b: Book, log: seq<Deal>, from: int) {
    forall d :: d in log && d.id in b.applied && d.time >= from ==> d.id in b.seen
  }

  /** Nothing that counts was left behind the cursor. */
  ghost predicate Complete(b: Book, log: seq<Deal>, cursor: int) {
    forall d :: d in log && b.since <= d.time < cursor ==> d.id in b.applied
  }

  /** The book apart from its balance. */
  ghost predicate BookSound(b: Book, log: seq<Deal>, now: int, lookback: int) {
    && (forall id :: id in b.seen ==> id in b.applied)
    && (forall id :: id in b.applied ==> exists d :: d in log && d.id == id)
    && (forall d :: d in log && d.id in b.seen ==> b.seen[d.id] == d.time)
    && b.since <= b.cursor <= now
    && Recalls(b, log, b.cursor - lookback)
    && Complete(b, log, b.cursor)
  }

  ghost predicate Balanced(b: Book, log: seq<Deal>, reference: real) {
    b.expected == reference + CashOf(log, b.applied, b.since)
  }

  ghost predicate SyncFits(y: Sync, b: Book, log: seq<Deal>, now: int, lookback: int) {
    && b.since <= y.start <= now
    && Recalls(b, log, y.start - lookback)
    && match y
       case Asked(start) => Complete(b, log, start)
       case Answered(start, rest, cursor, _, upTo) =>
         && start <= cursor <= now
         && upTo <= |log|
         && (forall d :: d in rest ==> d in log[..upTo] && d.time >= start - lookback)
         && (forall d :: d in log[..upTo] && d.time >= b.since ==> d.id in b.applied || d in rest)
         && (forall i :: upTo <= i < |log| ==> log[i].time >= cursor)
  }

  ghost predicate SyncsFit(ys: seq<Sync>, b: Book, log: seq<Deal>, now: int, lookback: int) {
    forall i :: 0 <= i < |ys| ==> SyncFits(ys[i], b, log, now, lookback)
  }

  ghost predicate MemoryFits(m: Memory, log: seq<Deal>, reference: real, now: int, lookback: int) {
    && BookSound(m.book, log, now, lookback)
    && Balanced(m.book, log, reference)
    && SyncsFit(m.syncs, m.book, log, now, lookback)
    && (m.read.Some? ==> m.read.value <= |log|)
  }

  ghost predicate Fits(lookback: int, reference: real, s: System) {
    && GoodLog(s.log, s.now)
    && Balance(s) == reference + CashSince(s.log, s.disk.since)
    && BookSound(s.disk, s.log, s.now, lookback)
    && Balanced(s.disk, s.log, reference)
    && (s.mem.Some? ==>
          s.mem.value.book.since == s.disk.since && MemoryFits(s.mem.value, s.log, reference, s.now, lookback))
  }

  // ---------------------------------------------------------------- forgetting

  /** No deal taken in that an answer from there on can hold is more than a week old. */
  ghost predicate NothingOld(b: Book, log: seq<Deal>, from: int, now: int) {
    forall d :: d in log && d.id in b.applied && d.time >= from ==> d.time >= now - WEEK
  }

  /** Exactly when a save keeps every deal it must: no deal taken in lies between the start of the answers to come
      and a week ago. */
  lemma SaveRemembersIff(b: Book, log: seq<Deal>, now: int, lookback: int, from: int)
    requires BookSound(b, log, now, lookback) && Recalls(b, log, from)
    ensures Recalls(Pruned(b, now), log, from) <==> NothingOld(b, log, from, now)
  {
    var r := Pruned(b, now);
    forall d | d in log && d.id in b.applied && d.time >= from
      ensures d.id in r.seen <==> d.time >= now - WEEK
    {
      assert d.id in b.seen;
    }
  }

  /** The memory that a step writes to disk, if it writes. */
  function ToWrite(s: System, step: Step): Option<Memory> {
    if s.mem.None? then None
    else
      var m := s.mem.value;
      match step
      case Save => Some(m)
      case Finish(i) => if AtEnd(m, i) && Writes(m, i) then Some(Finished(m, i)) else None
      case Rebase => if m.read.Some? && m.read.value <= |s.log| then Some(Rebased(s, m)) else None
      case _ => None
  }

  /** A write forgets nothing that a sync to come or one on its way can bring again. */
  ghost predicate Forgets(lookback: int, m: Memory, log: seq<Deal>, now: int) {
    || !NothingOld(m.book, log, m.book.cursor - lookback, now)
    || exists i :: 0 <= i < |m.syncs| && !NothingOld(m.book, log, m.syncs[i].start - lookback, now)
  }

  ghost predicate SafeWrite(lookback: int, s: System, step: Step) {
    ToWrite(s, step).Some? ==> !Forgets(lookback, ToWrite(s, step).value, s.log, s.now)
  }

  /** What the broker has logged since the account was read amounts to what has not been taken in. */
  ghost predicate RightBalance(s: System, m: Memory, n: nat)
    requires n <= |s.log|
  {
    Cash(s.log) - Cash(s.log[..n]) == CashSince(s.log, m.book.since) - CashOf(s.log, m.book.applied, m.book.since)
  }

  ghost predicate SafeRebase(s: System, step: Step) {
    step.Rebase? && s.mem.Some? && s.mem.value.read.Some? && s.mem.value.read.value <= |s.log| ==>
      RightBalance(s, s.mem.value, s.mem.value.read.value)
  }

  ghost predicate Safe(lookback: int, s: System, step: Step) { SafeWrite(lookback, s, step) && SafeRebase(s, step) }

  ghost predicate SafeRun(lookback: int, s: System, steps: seq<Step>) {
    forall i :: 0 <= i < |steps| ==> Safe(lookback, Run(lookback, s, steps[..i]), steps[i])
  }

  // ---------------------------------------------------------------- writing

  lemma PrunedSync(y: Sync, b: Book, log: seq<Deal>, now: int, lookback: int)
    requires BookSound(b, log, now, lookback) && SyncFits(y, b, log, now, lookback)
    requires NothingOld(b, log, y.start - lookback, now)
    ensures SyncFits(y, Pruned(b, now), log, now, lookback)
  {
    SaveRemembersIff(b, log, now, lookback, y.start - lookback);
  }

  lemma PrunedBook(b: Book, log: seq<Deal>, now: int, lookback: int)
    requires BookSound(b, log, now, lookback) && NothingOld(b, log, b.cursor - lookback, now)
    ensures BookSound(Pruned(b, now), log, now, lookback)
  {
    SaveRemembersIff(b, log, now, lookback, b.cursor - lookback);
  }

  lemma WrittenFits(lookback: int, reference: real, s: System, m: Memory)
    requires GoodLog(s.log, s.now) && Balance(s) == reference + CashSince(s.log, m.book.since)
    requires MemoryFits(m, s.log, reference, s.now, lookback) && !Forgets(lookback, m, s.log, s.now)
    ensures Fits(lookback, reference, Written(s, m))
  {
    PrunedBook(m.book, s.log, s.now, lookback);
    var b := Pruned(m.book, s.now);
    forall i | 0 <= i < |m.syncs|
      ensures SyncFits(m.syncs[i], b, s.log, s.now, lookback)
    {
      PrunedSync(m.syncs[i], m.book, s.log, s.now, lookback);
    }
  }

  // ---------------------------------------------------------------- one deal

  lemma TakenBook(b: Book, d: Deal, log: seq<Deal>, reference: real, now: int, lookback: int, from: int)
    requires BookSound(b, log, now, lookback) && Balanced(b, log, reference) && GoodLog(log, now)
    requires d in log && d.id !in b.seen && d.time >= from && Recalls(b, log, from)
    ensures BookSound(Taken(b, d), log, now, lookback) && Balanced(Taken(b, d), log, reference)
  {
    CashOfMore(log, b.applied, b.since, d);
    OneDealPerId(log, d);
  }

  lemma OneDealPerId(log: seq<Deal>, d: Deal)
    requires Distinct(log) && d in log
    ensures forall e :: e in log && e.id == d.id ==> e == d
  {}

  lemma TakenOther(y: Sync, b: Book, d: Deal, log: seq<Deal>, now: int, lookback: int)
    requires SyncFits(y, b, log, now, lookback) && Distinct(log) && d in log
    ensures SyncFits(y, Taken(b, d), log, now, lookback)
  {}

  lemma TakenOwn(y: Sync, b: Book, log: seq<Deal>, now: int, lookback: int)
    requires y.Answered? && y.rest != [] && SyncFits(y, b, log, now, lookback) && GoodLog(log, now)
    requires forall id :: id in b.seen ==> id in b.applied
    ensures var d := y.rest[0];
      SyncFits(if d.id in b.seen then y.(rest := y.rest[1..])
               else y.(rest := y.rest[1..], cursor := Latest(y.cursor, d), news := true),
               Taken(b, d), log, now, lookback)
  {
    var d := y.rest[0];
    assert y.rest == [d] + y.rest[1..];
    assert d in log[..y.upTo];
    var k :| 0 <= k < y.upTo && log[k] == d;
    forall i | y.upTo <= i < |log|
      ensures log[i].time >= Latest(y.cursor, d)
    {
      assert log[k].time <= log[i].time;
    }
  }

  lemma TakeFits(m: Memory, i: nat, log: seq<Deal>, reference: real, now: int, lookback: int)
    requires MemoryFits(m, log, reference, now, lookback) && GoodLog(log, now)
    requires i < |m.syncs| && m.syncs[i].Answered? && m.syncs[i].rest != []
    ensures MemoryFits(TakeStep(m, i), log, reference, now, lookback)
  {
    var y, r := m.syncs[i], TakeStep(m, i);
    var d := y.rest[0];
    assert d in y.rest;
    assert d in log[..y.upTo];
    if d.id !in m.book.seen {
      TakenBook(m.book, d, log, reference, now, lookback, y.start - lookback);
    }
    assert r.book == Taken(m.book, d);
    forall k | 0 <= k < |r.syncs|
      ensures SyncFits(r.syncs[k], r.book, log, now, lookback)
    {
      if k == i {
        TakenOwn(y, m.book, log, now, lookback);
      } else {
        TakenOther(m.syncs[k], m.book, d, log, now, lookback);
      }
    }
  }

  // ---------------------------------------------------------------- a sync begins and ends

  lemma AskFits(m: Memory, log: seq<Deal>, reference: real, now: int, lookback: int)
    requires MemoryFits(m, log, reference, now, lookback)
    ensures MemoryFits(m.(syncs := m.syncs + [Asked(m.book.cursor)]), log, reference, now, lookback)
  {
    assert SyncFits(Asked(m.book.cursor), m.book, log, now, lookback);
  }

  lemma AnswerFits(m: Memory, i: nat, deals: seq<Deal>, log: seq<Deal>, reference: real, now: int, lookback: int)
    requires MemoryFits(m, log, reference, now, lookback) && lookback >= 0 && i < |m.syncs| && m.syncs[i].Asked?
    requires Answers(log, m.syncs[i].start - lookback, deals)
    ensures var y := Answered(m.syncs[i].start, deals, m.syncs[i].start, false, |log|);
      MemoryFits(m.(syncs := m.syncs[i := y]), log, reference, now, lookback)
  {
    var start := m.syncs[i].start;
    assert SyncFits(m.syncs[i], m.book, log, now, lookback);
    AnsweredFits(m.book, start, deals, log, now, lookback);
  }

  lemma AnsweredFits(b: Book, start: int, deals: seq<Deal>, log: seq<Deal>, now: int, lookback: int)
    requires SyncFits(Asked(start), b, log, now, lookback) && lookback >= 0 && Answers(log, start - lookback, deals)
    ensures SyncFits(Answered(start, deals, start, false, |log|), b, log, now, lookback)
  {
    assert log[..|log|] == log;
    forall d | d in log && d.time >= b.since
      ensures d.id in b.applied || d in deals
    {
      assert d.time >= start || d.id in b.applied;
    }
  }

  /** The end of a sync sets the cursor, forward or back, to a place that is still remembered. */
  lemma FinishedBook(y: Sync, b: Book, log: seq<Deal>, now: int, lookback: int)
    requires y.Answered? && y.rest == [] && SyncFits(y, b, log, now, lookback) && BookSound(b, log, now, lookback)
    ensures BookSound(b.(cursor := y.cursor), log, now, lookback)
  {
    forall d | d in log && b.since <= d.time < y.cursor
      ensures d.id in b.applied
    {
      var i :| 0 <= i < |log| && log[i] == d;
      if i < y.upTo {
        assert log[..y.upTo][i] == d;
      }
    }
  }

  lemma FinishedFits(m: Memory, i: nat, log: seq<Deal>, reference: real, now: int, lookback: int)
    requires MemoryFits(m, log, reference, now, lookback) && AtEnd(m, i)
    ensures MemoryFits(Finished(m, i), log, reference, now, lookback)
  {
    FinishedBook(m.syncs[i], m.book, log, now, lookback);
    var r := Finished(m, i);
    forall k | 0 <= k < |r.syncs|
      ensures SyncFits(r.syncs[k], r.book, log, now, lookback)
    {
      assert r.syncs[k] == if k < i then m.syncs[k] else m.syncs[k + 1];
    }
  }

  // ---------------------------------------------------------------- the owner's command

  /** Exactly when the owner's command leaves the right balance, whatever was expected before: when the deals that
      the broker has logged since the account was read amount to those that have not been taken in. */
  lemma RebaseFitsIff(lookback: int, reference: real, s: System, m: Memory, n: nat, right: real)
    requires Fits(lookback, reference, s.(mem := Some(m.(book := m.book.(expected := right)))))
    requires m.read == Some(n) && n <= |s.log|
    ensures Balanced(Rebased(s, m).book, s.log, reference) <==> RightBalance(s, m, n)
  {}

  lemma RebasedFits(lookback: int, reference: real, s: System, m: Memory)
    requires Fits(lookback, reference, s) && s.mem == Some(m) && m.read.Some? && m.read.value <= |s.log|
    requires RightBalance(s, m, m.read.value)
    ensures MemoryFits(Rebased(s, m), s.log, reference, s.now, lookback)
  {
    RebaseFitsIff(lookback, reference, s, m, m.read.value, m.book.expected);
    SameBookSyncs(m.syncs, m.book, Rebased(s, m).book, s.log, s.now, lookback);
  }

  /** Syncs do not look at the balance. */
  lemma SameBookSyncs(ys: seq<Sync>, b: Book, r: Book, log: seq<Deal>, now: int, lookback: int)
    requires SyncsFit(ys, b, log, now, lookback) && r == b.(expected := r.expected)
    ensures SyncsFit(ys, r, log, now, lookback)
  {}

  // ---------------------------------------------------------------- trades and the clock

  lemma TradeBook(b: Book, d: Deal, log: seq<Deal>, reference: real, now: int, lookback: int)
    requires BookSound(b, log, now, lookback) && Balanced(b, log, reference) && d.time == now
    requires forall e :: e in log ==> e.id != d.id
    ensures BookSound(b, log + [d], now, lookback) && Balanced(b, log + [d], reference)
  {
    CashSnoc(log, d);
    assert d.id !in b.applied;
    forall id | id in b.applied
      ensures exists e :: e in log + [d] && e.id == id
    {
      var e :| e in log && e.id == id;
      assert e in log + [d];
    }
  }

  lemma TradeSync(y: Sync, b: Book, d: Deal, log: seq<Deal>, now: int, lookback: int)
    requires SyncFits(y, b, log, now, lookback) && d.time == now && d.id !in b.applied
    ensures SyncFits(y, b, log + [d], now, lookback)
  {
    if y.Answered? {
      assert (log + [d])[..y.upTo] == log[..y.upTo];
    }
  }

  lemma TradeMemory(m: Memory, d: Deal, log: seq<Deal>, reference: real, now: int, lookback: int)
    requires MemoryFits(m, log, reference, now, lookback) && d.time == now && forall e :: e in log ==> e.id != d.id
    ensures MemoryFits(m, log + [d], reference, now, lookback)
  {
    TradeBook(m.book, d, log, reference, now, lookback);
    assert d.id !in m.book.applied;
    forall i | 0 <= i < |m.syncs|
      ensures SyncFits(m.syncs[i], m.book, log + [d], now, lookback)
    {
      TradeSync(m.syncs[i], m.book, d, log, now, lookback);
    }
  }

  lemma TradeGoodLog(log: seq<Deal>, d: Deal, now: int, since: int)
    requires GoodLog(log, now) && d.time == now >= since && forall e :: e in log ==> e.id != d.id
    ensures GoodLog(log + [d], now) && Cash(log + [d]) == Cash(log) + d.cash
    ensures CashSince(log + [d], since) == CashSince(log, since) + d.cash
  {
    CashSnoc(log, d);
  }

  lemma TradeFits(lookback: int, reference: real, s: System, d: Deal)
    requires Fits(lookback, reference, s) && d.time == s.now && forall e :: e in s.log ==> e.id != d.id
    ensures Fits(lookback, reference, s.(log := s.log + [d]))
  {
    TradeGoodLog(s.log, d, s.now, s.disk.since);
    TradeBook(s.disk, d, s.log, reference, s.now, lookback);
    if s.mem.Some? {
      TradeMemory(s.mem.value, d, s.log, reference, s.now, lookback);
    }
  }

  lemma LaterMemory(m: Memory, log: seq<Deal>, reference: real, now: int, later: int, lookback: int)
    requires MemoryFits(m, log, reference, now, lookback) && now <= later
    ensures MemoryFits(m, log, reference, later, lookback)
  {
    forall i | 0 <= i < |m.syncs|
      ensures SyncFits(m.syncs[i], m.book, log, later, lookback)
    {
      assert SyncFits(m.syncs[i], m.book, log, now, lookback);
    }
  }

  lemma TickFits(lookback: int, reference: real, s: System, now: int)
    requires Fits(lookback, reference, s) && s.now <= now
    ensures Fits(lookback, reference, s.(now := now))
  {
    if s.mem.Some? {
      LaterMemory(s.mem.value, s.log, reference, s.now, now, lookback);
    }
  }

  // ---------------------------------------------------------------- every step

  lemma KeptFits(lookback: int, reference: real, s: System, m: Memory)
    requires Fits(lookback, reference, s) && m.book.since == s.disk.since
    requires MemoryFits(m, s.log, reference, s.now, lookback)
    ensures Fits(lookback, reference, s.(mem := Some(m)))
  {}

  lemma FinishFits(lookback: int, reference: real, s: System, m: Memory, i: nat)
    requires Fits(lookback, reference, s) && s.mem == Some(m) && AtEnd(m, i) && SafeWrite(lookback, s, Finish(i))
    ensures Fits(lookback, reference, MemoryStep(lookback, s, m, Finish(i)))
  {
    FinishedFits(m, i, s.log, reference, s.now, lookback);
    if Writes(m, i) {
      WrittenFits(lookback, reference, s, Finished(m, i));
    } else {
      KeptFits(lookback, reference, s, Finished(m, i));
    }
  }

  lemma RebaseFits(lookback: int, reference: real, s: System, m: Memory)
    requires Fits(lookback, reference, s) && s.mem == Some(m) && Safe(lookback, s, Rebase)
    ensures Fits(lookback, reference, MemoryStep(lookback, s, m, Rebase))
  {
    if m.read.Some? && m.read.value <= |s.log| {
      RebasedFits(lookback, reference, s, m);
      WrittenFits(lookback, reference, s, Rebased(s, m));
    }
  }

  lemma SyncStepFits(lookback: int, reference: real, s: System, m: Memory, step: Step)
    requires Fits(lookback, reference, s) && s.mem == Some(m) && lookback >= 0 && Safe(lookback, s, step)
    requires step.Ask? || step.Answer? || step.TakeNext?
    ensures Fits(lookback, reference, MemoryStep(lookback, s, m, step))
  {
    match step {
      case Ask =>
        AskFits(m, s.log, reference, s.now, lookback);
      case Answer(i, deals) =>
        AnswerStepFits(lookback, reference, s, m, i, deals);
      case TakeNext(i) =>
        TakeStepFits(lookback, reference, s, m, i);
    }
  }

  lemma AnswerStepFits(lookback: int, reference: real, s: System, m: Memory, i: nat, deals: seq<Deal>)
    requires Fits(lookback, reference, s) && s.mem == Some(m) && lookback >= 0
    ensures Fits(lookback, reference, MemoryStep(lookback, s, m, Answer(i, deals)))
  {
    if i < |m.syncs| && m.syncs[i].Asked? && Answers(s.log, m.syncs[i].start - lookback, deals) {
      AnswerFits(m, i, deals, s.log, reference, s.now, lookback);
    }
  }

  lemma TakeStepFits(lookback: int, reference: real, s: System, m: Memory, i: nat)
    requires Fits(lookback, reference, s) && s.mem == Some(m) && lookback >= 0
    ensures Fits(lookback, reference, MemoryStep(lookback, s, m, TakeNext(i)))
  {
    if i < |m.syncs| && m.syncs[i].Answered? && m.syncs[i].rest != [] {
      TakeFits(m, i, s.log, reference, s.now, lookback);
    }
  }

  predicate OfSync(step: Step) { step.Ask? || step.Answer? || step.TakeNext? }

  lemma MemoryStepFits(lookback: int, reference: real, s: System, m: Memory, step: Step)
    requires Fits(lookback, reference, s) && s.mem == Some(m) && lookback >= 0 && Safe(lookback, s, step)
    ensures Fits(lookback, reference, MemoryStep(lookback, s, m, step))
  {
    if OfSync(step) {
      SyncStepFits(lookback, reference, s, m, step);
    } else if step.Finish? {
      if AtEnd(m, step.i) {
        FinishFits(lookback, reference, s, m, step.i);
      }
    } else if step.Rebase? {
      RebaseFits(lookback, reference, s, m);
    } else if step.Save? {
      WrittenFits(lookback, reference, s, m);
    }
  }

  lemma NextFits(lookback: int, reference: real, s: System, step: Step)
    requires Fits(lookback, reference, s) && lookback >= 0 && Safe(lookback, s, step)
    ensures Fits(lookback, reference, Next(lookback, s, step))
  {
    if step.Tick? {
      if step.now >= s.now {
        TickFits(lookback, reference, s, step.now);
      }
    } else if step.Trade? {
      if forall d :: d in s.log ==> d.id != step.id {
        TradeFits(lookback, reference, s, Deal(step.id, s.now, step.cash));
      }
    } else if !step.Crash? && !step.Restart? && s.mem.Some? {
      MemoryStepFits(lookback, reference, s, s.mem.value, step);
    }
  }

  // ---------------------------------------------------------------- whole runs

  /** Exactly when a first start fits: when the deals between the two reads amount to the deals of the very instant
      of the clock, since the others are in the balance or after the start of counting, and not both. */
  lemma FirstStartFitsIff(now: int, opening: real, atRead: seq<Deal>, log: seq<Deal>, lookback: int)
    requires GoodLog(log, now) && atRead <= log
    ensures Fits(lookback, opening + Cash(atRead), Initialized(now, opening, atRead, log))
      <==> Cash(log) - Cash(atRead) == CashSince(log, now)
  {
    NoneTaken(log, now);
  }

  lemma {:induction false} NoneTaken(log: seq<Deal>, since: int)
    ensures CashOf(log, {}, since) == 0.0
  {
    if log != [] {
      NoneTaken(log[..|log| - 1], since);
    }
  }

  lemma {:induction false} RunFits(lookback: int, reference: real, s: System, steps: seq<Step>)
    requires Fits(lookback, reference, s) && lookback >= 0 && SafeRun(lookback, s, steps)
    ensures Fits(lookback, reference, Run(lookback, s, steps))
    decreases |steps|
  {
    if steps != [] {
      var front := steps[..|steps| - 1];
      SafePrefix(lookback, s, steps);
      RunFits(lookback, reference, s, front);
      NextFits(lookback, reference, Run(lookback, s, front), steps[|steps| - 1]);
    }
  }

  lemma SafePrefix(lookback: int, s: System, steps: seq<Step>)
    requires SafeRun(lookback, s, steps) && steps != []
    ensures var front := steps[..|steps| - 1];
      SafeRun(lookback, s, front) && Safe(lookback, Run(lookback, s, front), steps[|steps| - 1])
  {
    var front := steps[..|steps| - 1];
    forall i: nat | i < |front|
      ensures Safe(lookback, Run(lookback, s, front[..i]), front[i])
    {
      SamePrefix(steps, i);
    }
  }

  lemma SamePrefix(steps: seq<Step>, i: nat)
    requires i < |steps| - 1
    ensures var front := steps[..|steps| - 1]; front[..i] == steps[..i] && front[i] == steps[i]
  {}

  /** From a first start, over any run of trades, overlapping syncs with repeated deals, saves, rebases by the owner
      and crashes, in which no write forgets too much and every rebase leaves the right balance: the journal's
      expected balance is the balance of the first start plus the cash of the distinct deals taken in since. */
  lemma EachDealOnce(lookback: int, now: int, opening: real, atRead: seq<Deal>, log: seq<Deal>, steps: seq<Step>)
    requires GoodLog(log, now) && atRead <= log && Cash(log) - Cash(atRead) == CashSince(log, now) && lookback >= 0
    requires SafeRun(lookback, Initialized(now, opening, atRead, log), steps)
    ensures var s := Run(lookback, Initialized(now, opening, atRead, log), steps);
      s.disk.expected == opening + Cash(atRead) + CashOf(s.log, s.disk.applied, s.disk.since)
  {
    FirstStartFitsIff(now, opening, atRead, log, lookback);
    RunFits(lookback, opening + Cash(atRead), Initialized(now, opening, atRead, log), steps);
  }

  /** At every write a week before now is no later than the start, less the lookback, of any sync to come or on its
      way. */
  ghost predicate FreshWrite(lookback: int, s: System, step: Step) {
    ToWrite(s, step).Some? ==>
      var m := ToWrite(s, step).value;
      && s.now - WEEK <= m.book.cursor - lookback
      && forall i :: 0 <= i < |m.syncs| ==> s.now - WEEK <= m.syncs[i].start - lookback
  }

  /** What a caller can check without knowing the deals is enough for the first hypothesis. */
  lemma FreshWriteIsSafe(lookback: int, s: System, step: Step)
    requires FreshWrite(lookback, s, step)
    ensures SafeWrite(lookback, s, step)
  {}

  /** When a sync finishes and the broker has logged nothing since its answer, the expected balance is the
      broker's balance. */
  lemma SyncedBalance(lookback: int, reference: real, s: System, i: nat)
    requires Fits(lookback, reference, s) && s.mem.Some? && AtEnd(s.mem.value, i)
    requires s.mem.value.syncs[i].upTo == |s.log|
    ensures var s' := Next(lookback, s, Finish(i));
      s'.mem.Some? && s'.mem.value.book.expected == Balance(s')
  {
    var b, y := s.mem.value.book, s.mem.value.syncs[i];
    assert s.log[..y.upTo] == s.log;
    assert SyncFits(y, b, s.log, s.now, lookback);
    AllTaken(s.log, b.applied, b.since);
  }

  // ---------------------------------------------------------------- outside the hypotheses

  /** One deal of an answer that is not remembered, at the start of a sync. */
  lemma FirstTaken(lookback: int, s: System, m: Memory, d: Deal, deals: seq<Deal>)
    requires s.mem == Some(m) && m.syncs == [] && deals != [] && deals[0] == d && d.id !in m.book.seen
    requires Answers(s.log, m.book.cursor - lookback, deals)
    ensures var r := Next(lookback, Next(lookback, Next(lookback, s, Ask), Answer(0, deals)), TakeNext(0));
      && r.mem.Some? && r.mem.value.book == Taken(m.book, d)
      && r.log == s.log && r.disk == s.disk && r.opening == s.opening
  {}

  /** After a quiet week a save forgets the deal at the cursor, the next answer still holds it, and it counts a second
      time. */
  lemma ForgottenDealCountsTwice(lookback: int, reference: real, s: System, d: Deal, deals: seq<Deal>)
    requires Fits(lookback, reference, s) && s.mem.Some? && s.mem.value.syncs == []
    requires var b := s.mem.value.book;
      d in s.log && d.id in b.applied && d.time >= b.since && d.time >= b.cursor - lookback
    requires d.time < s.now - WEEK
    requires deals != [] && deals[0] == d && Answers(s.log, s.mem.value.book.cursor - lookback, deals)
    ensures var saved := Next(lookback, s, Save);
      var r := Next(lookback, Next(lookback, Next(lookback, saved, Ask), Answer(0, deals)), TakeNext(0));
      && r.mem.Some? && r.mem.value.book.applied == s.mem.value.book.applied
      && r.mem.value.book.expected == reference + CashOf(r.log, r.mem.value.book.applied, r.disk.since) + d.cash
  {
    var s1 := Next(lookback, s, Save);
    var b1 := s1.mem.value.book;
    assert d.id !in b1.seen;
    FirstTaken(lookback, s1, s1.mem.value, d, deals);
    assert b1.applied + {d.id} == b1.applied;
  }

  /** The owner's command reads the account when all deals but one are taken in and adopts that balance: the last one
      is in it already, and the next sync counts it again. */
  lemma RebasedDealCountsTwice(lookback: int, reference: real, s: System, d: Deal, deals: seq<Deal>)
    requires Fits(lookback, reference, s) && s.mem.Some? && s.mem.value.syncs == []
    requires var b := s.mem.value.book;
      && d in s.log && d.id !in b.applied && d.time >= b.since
      && forall e :: e in s.log && e.time >= b.since ==> e.id in b.applied + {d.id}
    requires deals != [] && deals[0] == d && Answers(s.log, s.mem.value.book.cursor - lookback, deals)
    ensures var rebased := Next(lookback, Next(lookback, s, ReadBalance), Rebase);
      var r := Next(lookback, Next(lookback, Next(lookback, rebased, Ask), Answer(0, deals)), TakeNext(0));
      && r.mem.Some? && (forall e :: e in r.log && e.time >= r.disk.since ==> e.id in r.mem.value.book.applied)
      && r.mem.value.book.expected == Balance(r) + d.cash
  {
    var rebased := Next(lookback, Next(lookback, s, ReadBalance), Rebase);
    assert s.log[..|s.log|] == s.log;
    FirstTaken(lookback, rebased, rebased.mem.value, d, deals);
  }

  // ---------------------------------------------------------------- steps and the whole answer

  ghost function TakeAll(lookback: int, s: System, n: nat): System {
    if n == 0 then s else Next(lookback, TakeAll(lookback, s, n - 1), TakeNext(0))
  }

  /** The only sync on its way, with the first n deals of its answer taken. */
  function Midway(b: Book, answer: seq<Deal>, n: nat, upTo: nat): Memory
    requires n <= |answer|
  {
    var taken := TakenAll(b, answer[..n]);
    Memory(taken, [Answered(b.cursor, answer[n..], LatestNew(b, b.cursor, answer[..n]), taken != b, upTo)], None)
  }

  lemma {:induction false} TakingAll(lookback: int, s: System, b: Book, answer: seq<Deal>, n: nat)
    requires n <= |answer| && s.mem == Some(Midway(b, answer, 0, |s.log|))
    ensures TakeAll(lookback, s, n) == s.(mem := Some(Midway(b, answer, n, |s.log|)))
    ensures forall id :: id in b.seen ==> id in TakenAll(b, answer[..n]).seen
    ensures TakenAll(b, answer[..n]) == b ==> LatestNew(b, b.cursor, answer[..n]) == b.cursor
  {
    if n > 0 {
      TakingAll(lookback, s, b, answer, n - 1);
      TakeOneMore(lookback, s, b, answer, n - 1);
    }
  }

  lemma TakeOneMore(lookback: int, s: System, b: Book, answer: seq<Deal>, n: nat)
    requires n < |answer| && s.mem.Some?
    requires forall id :: id in b.seen ==> id in TakenAll(b, answer[..n]).seen
    requires TakenAll(b, answer[..n]) == b ==> LatestNew(b, b.cursor, answer[..n]) == b.cursor
    ensures Next(lookback, s.(mem := Some(Midway(b, answer, n, |s.log|))), TakeNext(0))
      == s.(mem := Some(Midway(b, answer, n + 1, |s.log|)))
    ensures forall id :: id in b.seen ==> id in TakenAll(b, answer[..n + 1]).seen
    ensures TakenAll(b, answer[..n + 1]) == b ==> LatestNew(b, b.cursor, answer[..n + 1]) == b.cursor
  {
    Snoc(answer, n);
    var m, d, before := Midway(b, answer, n, |s.log|), answer[n], TakenAll(b, answer[..n]);
    assert m.syncs[0].rest[0] == d && m.syncs[0].rest[1..] == answer[n + 1..];
    assert d.id !in before.seen ==> d.id in Taken(before, d).seen && Taken(before, d) != b;
    assert TakeStep(m, 0).syncs == Midway(b, answer, n + 1, |s.log|).syncs;
  }

  lemma MidwayEnds(b: Book, answer: seq<Deal>, upTo: nat)
    ensures Midway(b, answer, 0, upTo) == Memory(b, [Answered(b.cursor, answer, b.cursor, false, upTo)], None)
    ensures Midway(b, answer, |answer|, upTo) == Memory(TakenAll(b, answer),
      [Answered(b.cursor, [], LatestNew(b, b.cursor, answer), TakenAll(b, answer) != b, upTo)], None)
  {
    assert answer[..0] == [] && answer[0..] == answer;
    assert answer[..|answer|] == answer && answer[|answer|..] == [];
  }

  lemma SyncBegins(lookback: int, s: System, b: Book, answer: seq<Deal>)
    requires s.mem == Some(Memory(b, [], None)) && Answers(s.log, b.cursor - lookback, answer)
    ensures Next(lookback, Next(lookback, s, Ask), Answer(0, answer)).mem
      == Some(Memory(b, [Answered(b.cursor, answer, b.cursor, false, |s.log|)], None))
    ensures var r := Next(lookback, Next(lookback, s, Ask), Answer(0, answer));
      r == s.(mem := r.mem)
  {
    var asked := Next(lookback, s, Ask);
    assert asked.mem.value.syncs == [Asked(b.cursor)];
    assert asked.mem.value.syncs[0 := Answered(b.cursor, answer, b.cursor, false, |s.log|)]
      == [Answered(b.cursor, answer, b.cursor, false, |s.log|)];
  }

  lemma SyncEnds(lookback: int, s: System, taken: Book, y: Sync)
    requires s.mem == Some(Memory(taken, [y], None)) && y.Answered? && y.rest == []
    ensures Next(lookback, s, Finish(0)).mem == Some(Memory(
      if y.news || y.cursor != taken.cursor then Pruned(taken.(cursor := y.cursor), s.now) else taken, [], None))
  {
    assert Finished(s.mem.value, 0).syncs == [];
  }

  lemma TakenKeepsCursor(b: Book, ds: seq<Deal>)
    ensures TakenAll(b, ds).cursor == b.cursor
  {}

  /** Without a crash and without another sync, the steps of a sync write exactly the book of the whole answer. */
  lemma SyncInOneGo(lookback: int, s: System, b: Book, answer: seq<Deal>)
    requires s.mem == Some(Memory(b, [], None)) && Answers(s.log, b.cursor - lookback, answer)
    ensures var s1 := Next(lookback, Next(lookback, s, Ask), Answer(0, answer));
      Next(lookback, TakeAll(lookback, s1, |answer|), Finish(0)).mem == Some(Memory(Synced(b, answer, s.now), [], None))
  {
    SyncBegins(lookback, s, b, answer);
    MidwayEnds(b, answer, |s.log|);
    TakingAll(lookback, s.(mem := Some(Midway(b, answer, 0, |s.log|))), b, answer, |answer|);
    assert answer[..|answer|] == answer;
    TakenKeepsCursor(b, answer);
    var m := Midway(b, answer, |answer|, |s.log|);
    SyncEnds(lookback, s.(mem := Some(m)), m.book, m.syncs[0]);
  }
}
