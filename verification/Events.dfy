/** Closed-bar events and their order: by close time, then by place in the subscription. */
module Events {
  import opened Types

  /** `sub` is the place of the series in the subscription order. */
  datatype Event = Event(sub: nat, candle: Candle)
  {
    function At(): int { candle.closeTime }
  }

  predicate Before(a: Event, b: Event) { a.At() < b.At() || (a.At() == b.At() && a.sub < b.sub) }

  ghost predicate Ordered(es: seq<Event>) { forall i, j :: 0 <= i < j < |es| ==> Before(es[i], es[j]) }

  /** Ties keep their places, as in a stable sort. */
  ghost predicate WeaklyOrdered(es: seq<Event>) { forall i, j :: 0 <= i < j < |es| ==> !Before(es[j], es[i]) }

  function InsertEvent(e: Event, es: seq<Event>): (r: seq<Event>)
    ensures multiset(r) == multiset{e} + multiset(es)
  {
    if es == [] then [e]
    else if Before(es[0], e) then
      assert es == [es[0]] + es[1..];
      [es[0]] + InsertEvent(e, es[1..])
    else [e] + es
  }

  function Sort(es: seq<Event>): (r: seq<Event>)
    ensures multiset(r) == multiset(es)
  {
    if es == [] then []
    else
      assert es == [es[0]] + es[1..];
      InsertEvent(es[0], Sort(es[1..]))
  }

  lemma MultisetMembers(a: seq<Event>, b: seq<Event>)
    requires multiset(a) == multiset(b)
    ensures |a| == |b|
    ensures forall e :: e in a <==> e in b
  {
    assert |a| == |multiset(a)| && |b| == |multiset(b)|;
    forall e
      ensures e in a <==> e in b
    {
      assert e in a <==> e in multiset(a);
      assert e in b <==> e in multiset(b);
    }
  }

  lemma {:induction false} InsertOrders(e: Event, es: seq<Event>)
    requires WeaklyOrdered(es)
    ensures WeaklyOrdered(InsertEvent(e, es))
  {
    if es != [] && Before(es[0], e) {
      InsertOrders(e, es[1..]);
      var r := InsertEvent(e, es[1..]);
      MultisetMembers(r, [e] + es[1..]);
      forall j | 0 <= j < |r|
        ensures !Before(r[j], es[0])
      {
        assert r[j] in [e] + es[1..];
      }
    }
  }

  lemma {:induction false} SortOrders(es: seq<Event>)
    ensures WeaklyOrdered(Sort(es))
  {
    if es != [] {
      SortOrders(es[1..]);
      InsertOrders(es[0], Sort(es[1..]));
    }
  }

  /** A list in strict order is the only arrangement of its events in order: sorting any shuffle returns it. */
  lemma SortShuffle(es: seq<Event>, ordered: seq<Event>)
    requires multiset(es) == multiset(ordered) && Ordered(ordered)
    ensures Sort(es) == ordered
  {
    SortOrders(es);
    SameOrder(Sort(es), ordered);
  }

  lemma {:induction false} SameOrder(a: seq<Event>, b: seq<Event>)
    requires multiset(a) == multiset(b) && WeaklyOrdered(a) && Ordered(b)
    ensures a == b
  {
    MultisetMembers(a, b);
    if a != [] {
      assert a[0] in b && b[0] in a;
      assert a[0] == b[0];
      assert a == [a[0]] + a[1..] && b == [b[0]] + b[1..];
      assert multiset(a[1..]) == multiset(a) - multiset{a[0]};
      assert multiset(b[1..]) == multiset(b) - multiset{b[0]};
      SameOrder(a[1..], b[1..]);
    }
  }

  // ---------------------------------------------------------------- one series of an event list

  function Project(es: seq<Event>, j: nat): seq<Candle> {
    if es == [] then [] else Project(es[..|es| - 1], j) + if es[|es| - 1].sub == j then [es[|es| - 1].candle] else []
  }

  lemma {:induction false} ProjectJoin(a: seq<Event>, b: seq<Event>, j: nat)
    ensures Project(a + b, j) == Project(a, j) + Project(b, j)
  {
    if b == [] {
      assert a + b == a;
    } else {
      var n := |b| - 1;
      assert (a + b)[..|a + b| - 1] == a + b[..n];
      ProjectJoin(a, b[..n], j);
    }
  }

  lemma ProjectOne(e: Event, j: nat)
    ensures Project([e], j) == if e.sub == j then [e.candle] else []
  {
    assert [e][..0] == [];
  }

  ghost predicate Rising(cs: seq<Candle>) { forall i, k :: 0 <= i < k < |cs| ==> cs[i].closeTime < cs[k].closeTime }

  lemma {:induction false} ProjectMembers(es: seq<Event>, j: nat)
    ensures forall c :: c in Project(es, j) <==> Event(j, c) in es
  {
    if es != [] {
      var n := |es| - 1;
      ProjectMembers(es[..n], j);
      assert es == es[..n] + [es[n]];
    }
  }

  /** Two bars of one series at the head of a rising list are in order. */
  lemma HeadsRise(e: Event, es: seq<Event>, j: nat)
    requires es != [] && Rising(Project([e] + es, j))
    ensures e.sub == j && es[0].sub == j ==> e.At() < es[0].At()
    ensures Project([e] + es, j)
      == Project([e], j) + Project([es[0]], j) + Project(es[1..], j)
  {
    assert es == [es[0]] + es[1..];
    ProjectJoin([e], es, j);
    ProjectJoin([es[0]], es[1..], j);
    ProjectOne(e, j);
    ProjectOne(es[0], j);
    if e.sub == j && es[0].sub == j {
      var p := Project([e] + es, j);
      assert p == [e.candle] + ([es[0].candle] + Project(es[1..], j));
      assert p[0].closeTime < p[1].closeTime;
    }
  }

  /** Events of different series pass each other without changing any series. */
  lemma Passes(e: Event, x: Event, rest: seq<Event>, j: nat)
    requires e.sub != j || x.sub != j
    requires Project(InsertEvent(e, rest), j) == Project([e] + rest, j)
    ensures Project([x] + InsertEvent(e, rest), j) == Project([e], j) + Project([x], j) + Project(rest, j)
  {
    ProjectJoin([x], InsertEvent(e, rest), j);
    ProjectJoin([e], rest, j);
    ProjectOne(e, j);
    ProjectOne(x, j);
  }

  lemma {:induction false} InsertProjects(e: Event, es: seq<Event>, j: nat)
    requires Rising(Project([e] + es, j))
    ensures Project(InsertEvent(e, es), j) == Project([e] + es, j)
  {
    if es == [] {
      assert [e] + es == [e];
    } else {
      HeadsRise(e, es, j);
      if Before(es[0], e) {
        assert [e] + [es[0]] + es[1..] == [e] + es;
        RisingDrop(es[0], [e], es[1..], j);
        InsertProjects(e, es[1..], j);
        Passes(e, es[0], es[1..], j);
      }
    }
  }

  lemma RisingDrop(x: Event, a: seq<Event>, b: seq<Event>, j: nat)
    requires Rising(Project(a + [x] + b, j))
    ensures Rising(Project(a + b, j))
  {
    ProjectJoin(a + [x], b, j);
    ProjectJoin(a, [x], j);
    ProjectJoin(a, b, j);
    ProjectOne(x, j);
    var p, q := Project(a, j), Project(b, j);
    if x.sub == j {
      RisingWithout(p, x.candle, q);
    } else {
      assert p + [] + q == p + q;
    }
  }

  lemma RisingWithout(p: seq<Candle>, c: Candle, q: seq<Candle>)
    requires Rising(p + [c] + q)
    ensures Rising(p + q)
  {
    var whole := p + [c] + q;
    forall i, k | 0 <= i < k < |p + q|
      ensures (p + q)[i].closeTime < (p + q)[k].closeTime
    {
      var i', k' := if i < |p| then i else i + 1, if k < |p| then k else k + 1;
      assert (p + q)[i] == whole[i'] && (p + q)[k] == whole[k'];
    }
  }

  /** Sorting does not touch a series whose bars are already in order. */
  lemma {:induction false} SortProjects(es: seq<Event>, j: nat)
    requires Rising(Project(es, j))
    ensures Project(Sort(es), j) == Project(es, j)
  {
    if es != [] {
      assert es == [es[0]] + es[1..];
      assert es == [] + [es[0]] + es[1..] && [] + es[1..] == es[1..];
      RisingDrop(es[0], [], es[1..], j);
      SortProjects(es[1..], j);
      ProjectJoin([es[0]], es[1..], j);
      ProjectJoin([es[0]], Sort(es[1..]), j);
      InsertProjects(es[0], Sort(es[1..]), j);
    }
  }

  /** Sorted, with every series rising: then no two events tie. */
  lemma {:induction false} RisingOrders(es: seq<Event>)
    requires WeaklyOrdered(es) && forall j: nat :: Rising(Project(es, j))
    ensures Ordered(es)
  {
    if es != [] {
      var n := |es| - 1;
      var last := es[n];
      assert es == es[..n] + [last];
      forall j: nat
        ensures Rising(Project(es[..n], j))
      {
        assert es[..n] + [last] + [] == es && es[..n] + [] == es[..n];
        RisingDrop(last, es[..n], [], j);
      }
      RisingOrders(es[..n]);
      ProjectMembers(es[..n], last.sub);
      forall i | 0 <= i < n
        ensures Before(es[i], last)
      {
        if es[i].sub == last.sub {
          assert es[..n][i] in es[..n];
          assert es[i] == Event(last.sub, es[i].candle);
          var p := Project(es, last.sub);
          assert p == Project(es[..n], last.sub) + [last.candle];
          var k :| 0 <= k < |Project(es[..n], last.sub)| && Project(es[..n], last.sub)[k] == es[i].candle;
          assert p[k].closeTime < p[|p| - 1].closeTime;
        }
      }
    }
  }

  // ---------------------------------------------------------------- sorting, series by series

  function InsertBar(c: Candle, cs: seq<Candle>): seq<Candle> {
    if cs == [] then [c] else if cs[0].closeTime < c.closeTime then [cs[0]] + InsertBar(c, cs[1..]) else [c] + cs
  }

  function SortBars(cs: seq<Candle>): seq<Candle> {
    if cs == [] then [] else InsertBar(cs[0], SortBars(cs[1..]))
  }

  lemma ProjectHead(es: seq<Event>, j: nat)
    requires es != []
    ensures Project(es, j) == if es[0].sub == j then [es[0].candle] + Project(es[1..], j) else Project(es[1..], j)
  {
    assert es == [es[0]] + es[1..];
    ProjectJoin([es[0]], es[1..], j);
    ProjectOne(es[0], j);
  }

  lemma {:induction false} NoEarlier(e: Event, es: seq<Event>, j: nat)
    requires forall i :: 0 <= i < |es| ==> !(es[i].sub == e.sub && es[i].At() < e.At())
    ensures e.sub == j ==> InsertBar(e.candle, Project(es, j)) == [e.candle] + Project(es, j)
  {
    ProjectMembers(es, j);
    var p := Project(es, j);
    if e.sub == j && p != [] {
      assert Event(j, p[0]) in es;
    }
  }

  /** Inserting an event inserts its bar into its series. */
  lemma {:induction false} InsertInSeries(e: Event, es: seq<Event>, j: nat)
    requires WeaklyOrdered(es)
    ensures Project(InsertEvent(e, es), j) == if e.sub == j then InsertBar(e.candle, Project(es, j)) else Project(es, j)
  {
    if es == [] {
      ProjectOne(e, j);
    } else if Before(es[0], e) {
      InsertInSeries(e, es[1..], j);
      ProjectHead(es, j);
      PastHead(es[0], InsertEvent(e, es[1..]), j);
    } else {
      forall i | 0 <= i < |es|
        ensures !(es[i].sub == e.sub && es[i].At() < e.At())
      {
        assert i > 0 ==> !Before(es[i], es[0]);
      }
      NoEarlier(e, es, j);
      PastHead(e, es, j);
    }
  }

  lemma PastHead(x: Event, es: seq<Event>, j: nat)
    ensures Project([x] + es, j) == if x.sub == j then [x.candle] + Project(es, j) else Project(es, j)
  {
    ProjectHead([x] + es, j);
    assert ([x] + es)[1..] == es;
  }

  lemma {:induction false} SortInSeries(es: seq<Event>, j: nat)
    ensures Project(Sort(es), j) == SortBars(Project(es, j))
  {
    if es != [] {
      SortOrders(es[1..]);
      InsertInSeries(es[0], Sort(es[1..]), j);
      SortInSeries(es[1..], j);
      ProjectHead(es, j);
    }
  }

  lemma HasSeries(es: seq<Event>)
    requires forall j: nat :: Project(es, j) == []
    ensures es == []
  {
    if es != [] {
      ProjectHead(es, es[0].sub);
    }
  }

  lemma {:induction false} SameSeries(a: seq<Event>, b: seq<Event>)
    requires WeaklyOrdered(a) && WeaklyOrdered(b) && forall j: nat :: Project(a, j) == Project(b, j)
    ensures a == b
  {
    if a == [] {
      assert forall j: nat :: Project(b, j) == Project(a, j) == [];
      HasSeries(b);
    } else if b == [] {
      assert forall j: nat :: Project(a, j) == Project(b, j) == [];
      HasSeries(a);
    } else {
      ProjectHead(a, a[0].sub);
      ProjectMembers(b, a[0].sub);
      ProjectMembers(a, b[0].sub);
      ProjectHead(b, b[0].sub);
      assert a[0].candle in Project(b, a[0].sub);
      assert a[0] == Event(a[0].sub, a[0].candle) && a[0] in b;
      assert b[0].candle in Project(a, b[0].sub);
      assert b[0] == Event(b[0].sub, b[0].candle) && b[0] in a;
      assert a[0].sub == b[0].sub;
      assert a[0] == b[0];
      forall j: nat
        ensures Project(a[1..], j) == Project(b[1..], j)
      {
        ProjectHead(a, j);
        ProjectHead(b, j);
        if a[0].sub == j {
          assert Project(a[1..], j) == Project(a, j)[1..];
          assert Project(b[1..], j) == Project(b, j)[1..];
        }
      }
      SameSeries(a[1..], b[1..]);
    }
  }

  /** The sorted list depends only on the order within each series. */
  lemma SortBySeries(a: seq<Event>, b: seq<Event>)
    requires forall j: nat :: Project(a, j) == Project(b, j)
    ensures Sort(a) == Sort(b)
  {
    SortOrders(a);
    SortOrders(b);
    forall j: nat
      ensures Project(Sort(a), j) == Project(Sort(b), j)
    {
      SortInSeries(a, j);
      SortInSeries(b, j);
    }
    SameSeries(Sort(a), Sort(b));
  }
}
