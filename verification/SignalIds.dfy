/** Signal numbering: a counter that starts again at every instant. */
module SignalIds {

  /** The instant of the last id, and its number. */
  datatype Counter = Counter(ns: int, seqNo: nat)

  /** What an id is made from; the strategy and its version are the same for all. */
  datatype Id = Id(ns: int, seqNo: nat)

  class SignalNumbering {
    var ns: int
    var seqNo: nat

    function State(): Counter
      reads this
    {
      Counter(ns, seqNo)
    }

    constructor ()
      ensures State() == Counter(-1, 0)
    {
      ns, seqNo := -1, 0;
    }

    method NextId(now: int) returns (id: Id)
      modifies this
      ensures (State(), id) == Numbered(old(State()), now)
    {
      if now != ns {
        ns, seqNo := now, 0;
      }
      seqNo := seqNo + 1;
      id := Id(now, seqNo);
    }
  }

  /** The counter after an id, and the id. */
  function Numbered(c: Counter, now: int): (Counter, Id) {
    var n := 1 + if now == c.ns then c.seqNo else 0;
    (Counter(now, n), Id(now, n))
  }

  function After(nows: seq<int>): Counter {
    if nows == [] then Counter(-1, 0) else Numbered(After(nows[..|nows| - 1]), nows[|nows| - 1]).0
  }

  function Ids(nows: seq<int>): (r: seq<Id>)
    ensures |r| == |nows|
  {
    if nows == [] then []
    else Ids(nows[..|nows| - 1]) + [Numbered(After(nows[..|nows| - 1]), nows[|nows| - 1]).1]
  }

  predicate Before(a: Id, b: Id) { a.ns < b.ns || (a.ns == b.ns && a.seqNo < b.seqNo) }

  /** With a clock that does not go back no id is given twice: they strictly ascend. */
  lemma {:induction false} IdsAscend(nows: seq<int>)
    requires forall i, j :: 0 <= i < j < |nows| ==> nows[i] <= nows[j]
    requires forall i :: 0 <= i < |nows| ==> nows[i] >= 0
    ensures forall i, j :: 0 <= i < j < |nows| ==> Before(Ids(nows)[i], Ids(nows)[j])
    ensures nows != [] ==> After(nows) == Counter(Ids(nows)[|nows| - 1].ns, Ids(nows)[|nows| - 1].seqNo)
    ensures forall i :: 0 <= i < |nows| ==> Ids(nows)[i].ns == nows[i]
  {
    if nows != [] {
      var n := |nows| - 1;
      IdsAscend(nows[..n]);
      var front := Ids(nows[..n]);
      assert Ids(nows)[n] == Numbered(After(nows[..n]), nows[n]).1;
      forall i | 0 <= i < n
        ensures Before(front[i], Ids(nows)[n])
      {
        assert front[i].ns == nows[i] <= nows[n];
        assert i < n - 1 ==> Before(front[i], front[n - 1]);
      }
    }
  }
}
