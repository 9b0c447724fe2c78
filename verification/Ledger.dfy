/** The append-only ledger: each record carries the hash of the one before it, and several writers append
    under a lock, each with its own, possibly stale, memory of the last hash. */
module Ledger {
  import opened Types

  /** The hash of a text; all hashes have the length of the genesis value. */
  type Hash = string -> string

  const WIDTH: nat := 64

  const GENESIS: string := "0000000000000000000000000000000000000000000000000000000000000000"

  datatype Record = Record(body: string, prev: string, hash: string)

  function HashedText(r: Record): string { r.prev + r.body }

  function LastHash(rs: seq<Record>): string { if rs == [] then GENESIS else rs[|rs| - 1].hash }

  /** Every record names the hash before it and carries the hash of that and its own body. */
  ghost predicate Chain(h: Hash, rs: seq<Record>) {
    forall i :: 0 <= i < |rs| ==> rs[i].prev == LastHash(rs[..i]) && rs[i].hash == h(HashedText(rs[i]))
  }

  function NewRecord(h: Hash, rs: seq<Record>, body: string): Record {
    Record(body, LastHash(rs), h(LastHash(rs) + body))
  }

  /** The size of the file; no line is empty. */
  function Size(rs: seq<Record>): nat { if rs == [] then 0 else Size(rs[..|rs| - 1]) + LineSize(rs[|rs| - 1]) }

  function LineSize(r: Record): nat { |r.body| + |r.prev| + |r.hash| + 1 }

  lemma {:induction false} SizeGrows(rs: seq<Record>, k: nat)
    requires k <= |rs|
    ensures Size(rs[..k]) <= Size(rs) && (k < |rs| ==> Size(rs[..k]) < Size(rs))
  {
    if k < |rs| {
      SizeGrows(rs[..|rs| - 1], k);
      assert rs[..|rs| - 1][..k] == rs[..k];
    } else {
      assert rs[..k] == rs;
    }
  }

  // ---------------------------------------------------------------- what a chain fixes

  lemma {:induction false} HashesAreWide(h: Hash, rs: seq<Record>)
    requires (forall x :: |h(x)| == WIDTH) && Chain(h, rs)
    ensures |LastHash(rs)| == WIDTH
  {}

  lemma SplitText(p: string, a: string, q: string, b: string)
    requires |p| == |q| && p + a == q + b
    ensures p == q && a == b
  {
    assert p == (p + a)[..|p|] && q == (q + b)[..|q|];
    assert a == (p + a)[|p|..] && b == (q + b)[|q|..];
  }

  /** Two ledgers that verify, are equally long and end in the same hash hold the same records; or they show,
      at some place, two different texts with the same hash. */
  lemma {:induction false} SameEndSameLedger(h: Hash, a: seq<Record>, b: seq<Record>)
    requires (forall x :: |h(x)| == WIDTH) && Chain(h, a) && Chain(h, b)
    requires |a| == |b| && LastHash(a) == LastHash(b)
    ensures a == b || exists k :: 0 <= k < |a| && Collides(h, a[k], b[k])
  {
    if a != [] {
      var n := |a| - 1;
      ChainPrefix(h, a, n);
      ChainPrefix(h, b, n);
      if HashedText(a[n]) == HashedText(b[n]) {
        SameRecord(h, a, b, n);
        SameEndSameLedger(h, a[..n], b[..n]);
        OneMoreRecord(h, a, b, n);
      } else {
        assert Collides(h, a[n], b[n]);
      }
    }
  }

  lemma OneMoreRecord(h: Hash, a: seq<Record>, b: seq<Record>, n: nat)
    requires |a| == |b| == n + 1 && a[n] == b[n]
    requires a[..n] == b[..n] || exists k :: 0 <= k < n && Collides(h, a[..n][k], b[..n][k])
    ensures a == b || exists k :: 0 <= k < |a| && Collides(h, a[k], b[k])
  {
    if a[..n] == b[..n] {
      assert a == a[..n] + [a[n]] && b == b[..n] + [b[n]];
    } else {
      var k :| 0 <= k < n && Collides(h, a[..n][k], b[..n][k]);
      assert Collides(h, a[k], b[k]);
    }
  }

  /** Two records over different texts with the same hash. */
  predicate Collides(h: Hash, x: Record, y: Record) {
    HashedText(x) != HashedText(y) && h(HashedText(x)) == h(HashedText(y))
  }

  lemma SameRecord(h: Hash, a: seq<Record>, b: seq<Record>, n: nat)
    requires (forall x :: |h(x)| == WIDTH) && Chain(h, a) && Chain(h, b) && n < |a| == |b|
    requires HashedText(a[n]) == HashedText(b[n])
    ensures a[n] == b[n] && LastHash(a[..n]) == LastHash(b[..n])
  {
    ChainPrefix(h, a, n);
    ChainPrefix(h, b, n);
    HashesAreWide(h, a[..n]);
    HashesAreWide(h, b[..n]);
    SplitText(a[n].prev, a[n].body, b[n].prev, b[n].body);
  }

  lemma ChainPrefix(h: Hash, rs: seq<Record>, n: nat)
    requires Chain(h, rs) && n <= |rs|
    ensures Chain(h, rs[..n])
  {
    assert forall i :: 0 <= i < n ==> rs[..n][..i] == rs[..i];
  }

  lemma ChainGrows(h: Hash, rs: seq<Record>, body: string)
    requires Chain(h, rs)
    ensures Chain(h, rs + [NewRecord(h, rs, body)])
  {
    var more := rs + [NewRecord(h, rs, body)];
    assert forall i :: 0 <= i <= |rs| ==> more[..i] == rs[..i];
    assert rs[..|rs|] == rs;
  }

  /** Changing any part of a record that is not the last breaks the chain, or the changed record has a different text
      with the same hash. */
  lemma TamperBreaks(h: Hash, rs: seq<Record>, i: nat, r: Record)
    requires Chain(h, rs) && i + 1 < |rs| && r != rs[i]
    ensures !Chain(h, rs[i := r]) || Collides(h, r, rs[i])
  {
    var ts := rs[i := r];
    if Chain(h, ts) {
      assert ts[..i] == rs[..i];
      assert r.prev == rs[i].prev;
      assert ts[i + 1].prev == LastHash(ts[..i + 1]) == r.hash;
      assert rs[i + 1].prev == LastHash(rs[..i + 1]) == rs[i].hash;
      if HashedText(r) == HashedText(rs[i]) {
        SplitText(r.prev, r.body, rs[i].prev, rs[i].body);
      }
    }
  }

  /** Leaving out a record that is not the last goes unnoticed if and only if its hash repeats the one before it. */
  lemma OmissionBreaksIff(h: Hash, rs: seq<Record>, i: nat)
    requires Chain(h, rs) && i + 1 < |rs|
    ensures Chain(h, rs[..i] + rs[i + 1..]) <==> rs[i].hash == rs[i].prev
  {
    var ts := rs[..i] + rs[i + 1..];
    assert ts[..i] == rs[..i] && ts[i] == rs[i + 1];
    assert rs[i + 1].prev == LastHash(rs[..i + 1]) == rs[i].hash;
    assert rs[i].prev == LastHash(rs[..i]);
    if rs[i].hash == rs[i].prev {
      forall j | 0 <= j < |ts|
        ensures ts[j].prev == LastHash(ts[..j]) && ts[j].hash == h(HashedText(ts[j]))
      {
        if j < i {
          assert ts[..j] == rs[..j] && ts[j] == rs[j];
        } else {
          assert ts[j] == rs[j + 1];
          if j > i {
            assert ts[..j][j - 1] == rs[..j + 1][j] == rs[j];
          }
        }
      }
    }
  }

  // ---------------------------------------------------------------- the file and its writers

  datatype Tail = Tail(size: nat, hash: string)

  /** A remembered tail was true at some earlier length of the file. */
  ghost predicate WasTrue(rs: seq<Record>, t: Tail) {
    exists k :: 0 <= k <= |rs| && t.size == Size(rs[..k]) && t.hash == LastHash(rs[..k])
  }

  /** If the size still matches, it is true now. */
  lemma TrueNow(rs: seq<Record>, t: Tail)
    requires WasTrue(rs, t) && t.size == Size(rs)
    ensures t.hash == LastHash(rs)
  {
    var k :| 0 <= k <= |rs| && t.size == Size(rs[..k]) && t.hash == LastHash(rs[..k]);
    SizeGrows(rs, k);
    assert rs[..|rs|] == rs;
  }

  /** Appends by others do not change what was true. */
  lemma StillWasTrue(rs: seq<Record>, more: seq<Record>, t: Tail)
    requires WasTrue(rs, t)
    ensures WasTrue(rs + more, t)
  {
    var k :| 0 <= k <= |rs| && t.size == Size(rs[..k]) && t.hash == LastHash(rs[..k]);
    assert (rs + more)[..k] == rs[..k];
  }

  class LedgerFile {
    var records: seq<Record>

    constructor ()
      ensures records == []
    {
      records := [];
    }
  }

  datatype VerifyResult = Intact(count: nat) | BrokenAt(place: nat)

  class JsonlLedger {
    const h: Hash
    const file: LedgerFile
    var tail: Option<Tail>

    ghost predicate Valid()
      reads this, file
    {
      tail.Some? ==> WasTrue(file.records, tail.value)
    }

    constructor (h: Hash, file: LedgerFile)
      ensures Valid() && this.h == h && this.file == file && tail.None?
    {
      this.h, this.file := h, file;
      tail := None;
    }

    /** The last hash: remembered if the size has not changed, read from the file otherwise. */
    method Last() returns (last: string)
      requires Valid()
      ensures last == LastHash(file.records)
    {
      if tail.Some? && tail.value.size == Size(file.records) {
        TrueNow(file.records, tail.value);
        return tail.value.hash;
      }
      last := GENESIS;
      for i := 0 to |file.records|
        invariant last == LastHash(file.records[..i])
      {
        last := file.records[i].hash;
      }
      assert file.records[..|file.records|] == file.records;
    }

    /** One locked append. */
    method Append(body: string) returns (hash: string)
      requires Valid()
      modifies this`tail, file
      ensures Valid() && file.records == old(file.records) + [NewRecord(h, old(file.records), body)]
      ensures hash == LastHash(file.records)
    {
      var prev := Last();
      hash := h(prev + body);
      file.records := file.records + [Record(body, prev, hash)];
      tail := Some(Tail(Size(file.records), hash));
      assert file.records[..|file.records|] == file.records;
    }

    /** Walk the chain; the first break, or the number of records. */
    method Verify() returns (r: VerifyResult)
      ensures r.Intact? <==> Chain(h, file.records)
      ensures r.Intact? ==> r.count == |file.records|
      ensures r.BrokenAt? ==>
        r.place < |file.records| && Chain(h, file.records[..r.place]) && !Chain(h, file.records[..r.place + 1])
    {
      r := Walk(h, file.records);
    }
  }

  method Walk(h: Hash, rs: seq<Record>) returns (r: VerifyResult)
    ensures r.Intact? <==> Chain(h, rs)
    ensures r.Intact? ==> r.count == |rs|
    ensures r.BrokenAt? ==> r.place < |rs| && Chain(h, rs[..r.place]) && !Chain(h, rs[..r.place + 1])
  {
    var prev, n := GENESIS, 0;
    while n < |rs|
      invariant 0 <= n <= |rs| && prev == LastHash(rs[..n]) && Chain(h, rs[..n])
    {
      var rec := rs[n];
      ChainStep(h, rs, n);
      if rec.prev != prev || rec.hash != h(prev + rec.body) {
        BrokenPrefix(h, rs, n + 1);
        return BrokenAt(n);
      }
      prev, n := rec.hash, n + 1;
    }
    assert rs[..|rs|] == rs;
    return Intact(n);
  }

  lemma ChainStep(h: Hash, rs: seq<Record>, n: nat)
    requires n < |rs| && Chain(h, rs[..n])
    ensures Chain(h, rs[..n + 1]) <==> rs[n].prev == LastHash(rs[..n]) && rs[n].hash == h(rs[n].prev + rs[n].body)
  {
    var more := rs[..n + 1];
    assert forall i :: 0 <= i <= n ==> more[..i] == rs[..n][..i];
    assert rs[..n][..n] == rs[..n];
    assert more[n] == rs[n];
    assert forall i :: 0 <= i < n ==> more[i] == rs[..n][i];
  }

  lemma BrokenPrefix(h: Hash, rs: seq<Record>, n: nat)
    requires n <= |rs| && !Chain(h, rs[..n])
    ensures !Chain(h, rs)
  {
    if Chain(h, rs) {
      ChainPrefix(h, rs, n);
    }
  }

  // ---------------------------------------------------------------- any interleaving of writers

  /** The file and the remembered tails of all writers. */
  datatype World = World(records: seq<Record>, tails: seq<Option<Tail>>)

  datatype Write = Write(writer: nat, body: string)

  /** What a writer takes for the last hash. */
  function Believed(w: World, i: nat): string
    requires i < |w.tails|
  {
    if w.tails[i].Some? && w.tails[i].value.size == Size(w.records) then w.tails[i].value.hash else LastHash(w.records)
  }

  function Written(h: Hash, w: World, x: Write): World {
    if x.writer >= |w.tails| then w
    else
      var prev := Believed(w, x.writer);
      var rs := w.records + [Record(x.body, prev, h(prev + x.body))];
      World(rs, w.tails[x.writer := Some(Tail(Size(rs), h(prev + x.body)))])
  }

  function Run(h: Hash, writers: nat, xs: seq<Write>): World {
    if xs == [] then World([], seq(writers, (_: int) => None))
    else Written(h, Run(h, writers, xs[..|xs| - 1]), xs[|xs| - 1])
  }

  ghost predicate Sane(h: Hash, w: World) {
    Chain(h, w.records) && forall i :: 0 <= i < |w.tails| && w.tails[i].Some? ==> WasTrue(w.records, w.tails[i].value)
  }

  lemma WriteIsSane(h: Hash, w: World, x: Write)
    requires Sane(h, w) && x.writer < |w.tails|
    ensures Sane(h, Written(h, w, x))
  {
    BelievedIsTrue(h, w, x.writer);
    ChainGrows(h, w.records, x.body);
    var r := Written(h, w, x);
    forall i | 0 <= i < |r.tails| && r.tails[i].Some?
      ensures WasTrue(r.records, r.tails[i].value)
    {
      if i == x.writer {
        assert r.records[..|r.records|] == r.records;
      } else {
        StillWasTrue(w.records, [NewRecord(h, w.records, x.body)], w.tails[i].value);
      }
    }
  }

  lemma BelievedIsTrue(h: Hash, w: World, i: nat)
    requires Sane(h, w) && i < |w.tails|
    ensures Believed(w, i) == LastHash(w.records)
  {
    if w.tails[i].Some? && w.tails[i].value.size == Size(w.records) {
      TrueNow(w.records, w.tails[i].value);
    }
  }

  lemma {:induction false} RunIsSane(h: Hash, writers: nat, xs: seq<Write>)
    ensures Sane(h, Run(h, writers, xs))
  {
    if xs != [] {
      var w, x := Run(h, writers, xs[..|xs| - 1]), xs[|xs| - 1];
      RunIsSane(h, writers, xs[..|xs| - 1]);
      if x.writer < |w.tails| {
        WriteIsSane(h, w, x);
      }
    }
  }

  /** However the writers take turns, the chain verifies, and every writer's idea of the last hash is right. */
  lemma WritersAgree(h: Hash, writers: nat, xs: seq<Write>, i: nat)
    requires i < |Run(h, writers, xs).tails|
    ensures var w := Run(h, writers, xs); Chain(h, w.records) && Believed(w, i) == LastHash(w.records)
  {
    RunIsSane(h, writers, xs);
    BelievedIsTrue(h, Run(h, writers, xs), i);
  }
}
