/** Clusters of correlated versions: union-find with path halving over the pairs above the threshold. Versions
    are numbered in the order of their keys. */
module Clusters {

  /** `linked(i, j)`, asked for i < j only: the two correlate above the threshold. */
  type Links = (nat, nat) -> bool

  // ---------------------------------------------------------------- connected components

  datatype Edge = Edge(a: nat, b: nat)

  ghost predicate Adjacent(edges: set<Edge>, x: nat, y: nat) { Edge(x, y) in edges || Edge(y, x) in edges }

  ghost predicate Path(edges: set<Edge>, p: seq<nat>) {
    p != [] && forall i :: 0 <= i < |p| - 1 ==> Adjacent(edges, p[i], p[i + 1])
  }

  ghost predicate PathFromTo(edges: set<Edge>, p: seq<nat>, x: nat, y: nat) {
    Path(edges, p) && p[0] == x && p[|p| - 1] == y
  }

  ghost predicate Joined(edges: set<Edge>, x: nat, y: nat) { exists p :: PathFromTo(edges, p, x, y) }

  lemma JoinedSelf(edges: set<Edge>, x: nat)
    ensures Joined(edges, x, x)
  {
    assert PathFromTo(edges, [x], x, x);
  }

  lemma JoinedBack(edges: set<Edge>, x: nat, y: nat)
    requires Joined(edges, x, y)
    ensures Joined(edges, y, x)
  {
    var p :| PathFromTo(edges, p, x, y);
    var q := seq(|p|, i requires 0 <= i < |p| => p[|p| - 1 - i]);
    forall i | 0 <= i < |q| - 1
      ensures Adjacent(edges, q[i], q[i + 1])
    {
      var k := |p| - 2 - i;
      assert Adjacent(edges, p[k], p[k + 1]);
    }
    assert PathFromTo(edges, q, y, x);
  }

  lemma JoinedOn(edges: set<Edge>, x: nat, y: nat, z: nat)
    requires Joined(edges, x, y) && Joined(edges, y, z)
    ensures Joined(edges, x, z)
  {
    var p :| PathFromTo(edges, p, x, y);
    var q :| PathFromTo(edges, q, y, z);
    var r := p + q[1..];
    forall i | 0 <= i < |r| - 1
      ensures Adjacent(edges, r[i], r[i + 1])
    {
      if i < |p| - 1 {
        assert Adjacent(edges, p[i], p[i + 1]);
      } else {
        var k := i - (|p| - 1);
        assert r[i] == q[k] && r[i + 1] == q[k + 1];
        assert Adjacent(edges, q[k], q[k + 1]);
      }
    }
    assert PathFromTo(edges, r, x, z);
  }

  lemma JoinedMore(edges: set<Edge>, more: set<Edge>, x: nat, y: nat)
    requires edges <= more && Joined(edges, x, y)
    ensures Joined(more, x, y)
  {
    var p :| PathFromTo(edges, p, x, y);
    forall i | 0 <= i < |p| - 1
      ensures Adjacent(more, p[i], p[i + 1])
    {
      assert Adjacent(edges, p[i], p[i + 1]);
    }
    assert PathFromTo(more, p, x, y);
  }

  lemma JoinedEdge(edges: set<Edge>, a: nat, b: nat)
    requires Edge(a, b) in edges
    ensures Joined(edges, a, b)
  {
    assert PathFromTo(edges, [a, b], a, b);
  }

  /** A labelling that agrees on every edge agrees along every path. */
  lemma {:induction false} SameLabel(edges: set<Edge>, mark: seq<nat>, p: seq<nat>)
    requires Path(edges, p) && forall e :: e in edges ==> e.a < |mark| && e.b < |mark| && mark[e.a] == mark[e.b]
    requires p[0] < |mark|
    ensures p[|p| - 1] < |mark| && mark[p[0]] == mark[p[|p| - 1]]
  {
    if |p| > 1 {
      assert Adjacent(edges, p[0], p[1]);
      forall i | 0 <= i < |p[1..]| - 1
        ensures Adjacent(edges, p[1..][i], p[1..][i + 1])
      {
        assert Adjacent(edges, p[i + 1], p[i + 1 + 1]);
      }
      SameLabel(edges, mark, p[1..]);
    }
  }

  // ---------------------------------------------------------------- the forest

  /** `root` gives the root of every node, and `rank` falls on the way to it. */
  ghost predicate Forest(parent: seq<nat>, root: seq<nat>, rank: seq<nat>) {
    && |parent| == |root| == |rank|
    && (forall k :: 0 <= k < |parent| ==> parent[k] < |parent| && root[k] < |parent|)
    && (forall k {:trigger parent[k]} :: 0 <= k < |parent| ==> root[parent[k]] == root[k])
    && (forall k {:trigger parent[k]} :: 0 <= k < |parent| ==> parent[k] != k ==> rank[parent[k]] < rank[k])
    && (forall k {:trigger parent[k]} {:trigger root[k]} :: 0 <= k < |parent| ==> (parent[k] == k <==> root[k] == k))
    && (forall k :: 0 <= k < |parent| ==> root[root[k]] == root[k])
  }

  /** The root of k; on the way every visited node is linked to its grandparent. Every root stays. */
  method Find(parent: array<nat>, k: nat, ghost root: seq<nat>, ghost rank: seq<nat>) returns (r: nat)
    requires Forest(parent[..], root, rank) && k < parent.Length
    modifies parent
    ensures Forest(parent[..], root, rank) && r == root[k]
  {
    r := k;
    while parent[r] != r
      invariant Forest(parent[..], root, rank)
      invariant r < parent.Length && root[r] == root[k]
      decreases rank[r]
    {
      ghost var before := parent[..];
      assert parent[r] == before[r] && parent[parent[r]] == before[before[r]];
      Halve(before, root, rank, r);
      parent[r] := parent[parent[r]];
      assert parent[..] == before[r := before[before[r]]];
      r := parent[r];
    }
    assert parent[..][r] == r;
  }

  lemma Halve(parent: seq<nat>, root: seq<nat>, rank: seq<nat>, k: nat)
    requires Forest(parent, root, rank) && k < |parent| && parent[k] != k
    ensures Forest(parent[k := parent[parent[k]]], root, rank)
  {
    var p := parent[k];
    assert parent[p] != p ==> rank[parent[p]] < rank[p];
  }

  /** After linking root a below root b. */
  ghost function Relabelled(root: seq<nat>, a: nat, b: nat): (r: seq<nat>)
    ensures |r| == |root| && forall k :: 0 <= k < |root| ==> r[k] == if root[k] == a then b else root[k]
  {
    seq(|root|, k requires 0 <= k < |root| => if root[k] == a then b else root[k])
  }

  ghost function Reranked(root: seq<nat>, rank: seq<nat>, a: nat, b: nat): (r: seq<nat>)
    requires |rank| == |root| && b < |rank|
    ensures |r| == |root| && forall k :: 0 <= k < |root| ==>
      r[k] == if root[k] == a then rank[k] + rank[b] + 1 else rank[k]
  {
    seq(|root|, k requires 0 <= k < |root| => if root[k] == a then rank[k] + rank[b] + 1 else rank[k])
  }

  lemma Link(parent: seq<nat>, root: seq<nat>, rank: seq<nat>, a: nat, b: nat)
    requires Forest(parent, root, rank) && a < |parent| && b < |parent| && root[a] == a && root[b] == b && a != b
    ensures Forest(parent[a := b], Relabelled(root, a, b), Reranked(root, rank, a, b))
  {}

  /** The roots separate exactly the components of the edges taken so far. */
  ghost predicate Separates(root: seq<nat>, edges: set<Edge>) {
    && (forall e :: e in edges ==> e.a < |root| && e.b < |root| && root[e.a] == root[e.b])
    && (forall k: nat :: k < |root| ==> Joined(edges, k, root[k]))
  }

  lemma SameRootIffJoined(root: seq<nat>, edges: set<Edge>, x: nat, y: nat)
    requires Separates(root, edges) && x < |root| && y < |root|
    ensures root[x] == root[y] <==> Joined(edges, x, y)
  {
    if root[x] == root[y] {
      JoinedBack(edges, y, root[y]);
      JoinedOn(edges, x, root[x], y);
    }
    if Joined(edges, x, y) {
      var p :| PathFromTo(edges, p, x, y);
      SameLabel(edges, root, p);
    }
  }

  lemma UnionSeparates(root: seq<nat>, edges: set<Edge>, i: nat, j: nat)
    requires Separates(root, edges) && i < |root| && j < |root|
    ensures Separates(Relabelled(root, root[i], root[j]), edges + {Edge(i, j)})
  {
    var more, r := edges + {Edge(i, j)}, Relabelled(root, root[i], root[j]);
    forall k: nat | k < |root|
      ensures Joined(more, k, r[k])
    {
      JoinedMore(edges, more, k, root[k]);
      if root[k] == root[i] {
        JoinedMore(edges, more, i, root[i]);
        JoinedBack(more, i, root[i]);
        JoinedOn(more, k, root[i], i);
        JoinedEdge(more, i, j);
        JoinedOn(more, k, i, j);
        JoinedMore(edges, more, j, root[j]);
        JoinedOn(more, k, j, root[j]);
      }
    }
  }

  lemma NoUnionSeparates(root: seq<nat>, edges: set<Edge>, i: nat, j: nat)
    requires Separates(root, edges) && i < |root| && j < |root| && root[i] == root[j]
    ensures Separates(root, edges + {Edge(i, j)})
  {
    forall k: nat | k < |root|
      ensures Joined(edges + {Edge(i, j)}, k, root[k])
    {
      JoinedMore(edges, edges + {Edge(i, j)}, k, root[k]);
    }
  }

  // ---------------------------------------------------------------- the clusters

  /** The pairs above the threshold whose first is below i, or is i and whose second is below j. */
  ghost function Pairs(linked: Links, n: nat, i: nat, j: nat): set<Edge> {
    set a: nat, b: nat | a < b < n && linked(a, b) && (a < i || (a == i && b < j)) :: Edge(a, b)
  }

  ghost function AllPairs(linked: Links, n: nat): set<Edge> {
    set a: nat, b: nat | a < b < n && linked(a, b) :: Edge(a, b)
  }

  ghost predicate Increasing(s: seq<nat>) { forall a, b :: 0 <= a < b < |s| ==> s[a] < s[b] }

  ghost predicate Covered(groups: seq<seq<nat>>, k: nat) { exists a :: 0 <= a < |groups| && k in groups[a] }

  /** The numbers below `to` with this mark, in order. */
  function Members(mark: seq<nat>, r: nat, to: nat): (s: seq<nat>)
    requires to <= |mark|
    ensures forall k: nat :: k in s <==> k < to && mark[k] == r
    ensures Increasing(s)
  {
    if to == 0 then []
    else
      var front := Members(mark, r, to - 1);
      assert forall k: nat :: k in front ==> k < to - 1;
      assert forall a :: 0 <= a < |front| ==> front[a] in front;
      if mark[to - 1] == r then front + [to - 1] else front
  }

  /** The groups, each in order, and in the order of their first members. */
  ghost predicate Components(groups: seq<seq<nat>>, edges: set<Edge>, n: nat) {
    && (forall a :: 0 <= a < |groups| ==> groups[a] != [])
    && (forall a :: 0 <= a < |groups| ==> Increasing(groups[a]))
    && (forall a, b :: 0 <= a < b < |groups| ==> groups[a][0] < groups[b][0])
    && (forall a, k :: 0 <= a < |groups| && k in groups[a] ==> k < n)
    && (forall k: nat :: k < n ==> Covered(groups, k))
    && (forall a, b, x, y :: 0 <= a < |groups| && 0 <= b < |groups| && x in groups[a] && y in groups[b] ==>
          (a == b <==> Joined(edges, x, y)))
  }

  /** Single linkage: the connected components of "correlates above the threshold", as a partition. */
  method FindClusters(n: nat, linked: Links) returns (groups: seq<seq<nat>>)
    ensures Components(groups, AllPairs(linked, n), n)
  {
    var parent := new nat[n](k => k);
    ghost var root, rank := Join(n, linked, parent);
    var mark := Roots(parent, root, rank);
    groups := Collect(mark);
    Grouped(groups, mark, AllPairs(linked, n));
  }

  method Roots(parent: array<nat>, ghost root: seq<nat>, ghost rank: seq<nat>) returns (mark: seq<nat>)
    requires Forest(parent[..], root, rank)
    modifies parent
    ensures mark == root
  {
    mark := [];
    for p := 0 to parent.Length
      invariant Forest(parent[..], root, rank)
      invariant mark == root[..p]
    {
      var r := Find(parent, p, root, rank);
      mark := mark + [r];
      TakeOne(root, p);
    }
    assert root[..|root|] == root;
  }

  lemma TakeOne(s: seq<nat>, p: nat)
    requires p < |s|
    ensures s[..p + 1] == s[..p] + [s[p]]
  {}

  method Join(n: nat, linked: Links, parent: array<nat>) returns (ghost root: seq<nat>, ghost rank: seq<nat>)
    requires parent.Length == n && forall k :: 0 <= k < n ==> parent[k] == k
    modifies parent
    ensures Forest(parent[..], root, rank) && |root| == n && Separates(root, AllPairs(linked, n))
  {
    root, rank := seq(n, k requires 0 <= k < n => k), seq(n, (_: int) => 0);
    NoEdges(root);
    PairsEnds(linked, n);
    for i := 0 to n
      invariant Forest(parent[..], root, rank) && |root| == n
      invariant Separates(root, Pairs(linked, n, i, 0))
    {
      root, rank := JoinRow(n, linked, parent, i, root, rank);
    }
  }

  method JoinRow(n: nat, linked: Links, parent: array<nat>, i: nat, ghost root: seq<nat>, ghost rank: seq<nat>)
    returns (ghost newRoot: seq<nat>, ghost newRank: seq<nat>)
    requires Forest(parent[..], root, rank) && |root| == n && i < n && Separates(root, Pairs(linked, n, i, 0))
    modifies parent
    ensures Forest(parent[..], newRoot, newRank) && |newRoot| == n && Separates(newRoot, Pairs(linked, n, i + 1, 0))
  {
    newRoot, newRank := root, rank;
    ghost var edges := Pairs(linked, n, i, 0);
    RowEnds(linked, n, i);
    for j := i + 1 to n
      invariant Forest(parent[..], newRoot, newRank) && |newRoot| == n
      invariant edges == Pairs(linked, n, i, j) && Separates(newRoot, edges)
    {
      OneMorePair(linked, n, i, j);
      if linked(i, j) {
        newRoot, newRank := Union(parent, i, j, newRoot, newRank, edges);
        edges := edges + {Edge(i, j)};
      }
    }
  }

  lemma PairsEnds(linked: Links, n: nat)
    ensures Pairs(linked, n, 0, 0) == {} && Pairs(linked, n, n, 0) == AllPairs(linked, n)
  {}

  lemma RowEnds(linked: Links, n: nat, i: nat)
    requires i < n
    ensures Pairs(linked, n, i, i + 1) == Pairs(linked, n, i, 0) && Pairs(linked, n, i, n) == Pairs(linked, n, i + 1, 0)
  {}

  lemma NoEdges(root: seq<nat>)
    requires forall k: nat :: k < |root| ==> root[k] == k
    ensures Separates(root, {})
  {
    forall k: nat | k < |root|
      ensures Joined({}, k, root[k])
    {
      JoinedSelf({}, k);
    }
  }

  /** Put the root of i below the root of j. */
  method Union(parent: array<nat>, i: nat, j: nat, ghost root: seq<nat>, ghost rank: seq<nat>, ghost edges: set<Edge>)
    returns (ghost newRoot: seq<nat>, ghost newRank: seq<nat>)
    requires Forest(parent[..], root, rank) && i < parent.Length && j < parent.Length && Separates(root, edges)
    modifies parent
    ensures Forest(parent[..], newRoot, newRank) && |newRoot| == |root| && Separates(newRoot, edges + {Edge(i, j)})
  {
    var b := Find(parent, j, root, rank);
    var a := Find(parent, i, root, rank);
    ghost var before := parent[..];
    newRoot, newRank := LinkRoots(before, root, rank, edges, i, j);
    parent[a] := b;
    assert parent[..] == before[a := b];
  }

  lemma LinkRoots(parent: seq<nat>, root: seq<nat>, rank: seq<nat>, edges: set<Edge>, i: nat, j: nat)
    returns (newRoot: seq<nat>, newRank: seq<nat>)
    requires Forest(parent, root, rank) && i < |parent| && j < |parent| && Separates(root, edges)
    ensures |newRoot| == |root| && Separates(newRoot, edges + {Edge(i, j)})
    ensures Forest(parent[root[i] := root[j]], newRoot, newRank)
  {
    var a, b := root[i], root[j];
    newRoot, newRank := root, rank;
    if a == b {
      NoUnionSeparates(root, edges, i, j);
      assert parent[a := b] == parent;
    } else {
      Link(parent, root, rank, a, b);
      UnionSeparates(root, edges, i, j);
      newRoot, newRank := Relabelled(root, a, b), Reranked(root, rank, a, b);
    }
  }

  lemma OneMorePair(linked: Links, n: nat, i: nat, j: nat)
    requires i < j < n
    ensures Pairs(linked, n, i, j + 1) ==
      if linked(i, j) then Pairs(linked, n, i, j) + {Edge(i, j)} else Pairs(linked, n, i, j)
  {}

  /** Group the numbers by mark; a group stands where its first member does. */
  method Collect(mark: seq<nat>) returns (groups: seq<seq<nat>>)
    ensures groups == Grouping(mark, |mark|)
  {
    var byRoot: map<nat, seq<nat>> := map[];
    for p := 0 to |mark|
      invariant forall r :: r in byRoot <==> Members(mark, r, p) != []
      invariant forall r :: r in byRoot ==> byRoot[r] == Members(mark, r, p)
    {
      var r := mark[p];
      byRoot := byRoot[r := (if r in byRoot then byRoot[r] else []) + [p]];
    }
    groups := [];
    for k := 0 to |mark|
      invariant groups == Grouping(mark, k)
    {
      assert k in Members(mark, mark[k], |mark|);
      if byRoot[mark[k]][0] == k {
        groups := groups + [byRoot[mark[k]]];
      }
    }
  }

  /** The groups whose first member is below k. */
  function Grouping(mark: seq<nat>, k: nat): seq<seq<nat>>
    requires k <= |mark|
  {
    if k == 0 then []
    else
      var g := Members(mark, mark[k - 1], |mark|);
      assert k - 1 in g;
      Grouping(mark, k - 1) + if g[0] == k - 1 then [g] else []
  }

  /** The groups with their first members in order, each the members of its mark. */
  ghost predicate Groups(gs: seq<seq<nat>>, mark: seq<nat>, k: nat) {
    && (forall a :: 0 <= a < |gs| ==>
      gs[a] != [] && gs[a][0] < k && k <= |mark| && gs[a] == Members(mark, mark[gs[a][0]], |mark|))
    && (forall a, b :: 0 <= a < b < |gs| ==> gs[a][0] < gs[b][0])
  }

  lemma OneMoreGroup(gs: seq<seq<nat>>, mark: seq<nat>, k: nat, g: seq<nat>)
    requires Groups(gs, mark, k) && k < |mark| && g != [] && g[0] == k && g == Members(mark, mark[k], |mark|)
    ensures Groups(gs + [g], mark, k + 1)
  {}

  lemma {:induction false} GroupingIs(mark: seq<nat>, k: nat)
    requires k <= |mark|
    ensures Groups(Grouping(mark, k), mark, k)
  {
    if k > 0 {
      GroupingIs(mark, k - 1);
      var g, gs := Members(mark, mark[k - 1], |mark|), Grouping(mark, k - 1);
      assert k - 1 in g;
      if g[0] == k - 1 {
        OneMoreGroup(gs, mark, k - 1, g);
      }
    }
  }

  lemma {:induction false} GroupingHas(mark: seq<nat>, k: nat, p: nat)
    requires p < k <= |mark|
    ensures Members(mark, mark[p], |mark|) in Grouping(mark, k)
    decreases k
  {
    FirstIsLeast(mark, p);
    var first := Members(mark, mark[p], |mark|)[0];
    if first < k - 1 {
      GroupingHas(mark, k - 1, first);
    } else {
      LastGroup(mark, k);
    }
  }

  lemma LastGroup(mark: seq<nat>, k: nat)
    requires 0 < k <= |mark| && var g := Members(mark, mark[k - 1], |mark|); g != [] && g[0] == k - 1
    ensures Members(mark, mark[k - 1], |mark|) in Grouping(mark, k)
  {
    var g := Members(mark, mark[k - 1], |mark|);
    assert Grouping(mark, k)[|Grouping(mark, k - 1)|] == g;
  }

  lemma FirstIsLeast(mark: seq<nat>, p: nat)
    requires p < |mark|
    ensures var g := Members(mark, mark[p], |mark|); g != [] && g[0] <= p && mark[g[0]] == mark[p]
  {
    var g := Members(mark, mark[p], |mark|);
    assert p in g && g[0] in g;
    var i :| 0 <= i < |g| && g[i] == p;
  }

  /** Groups by mark are components if equal marks mean joined. */
  lemma Grouped(groups: seq<seq<nat>>, mark: seq<nat>, edges: set<Edge>)
    requires groups == Grouping(mark, |mark|) && Separates(mark, edges)
    ensures Components(groups, edges, |mark|)
  {
    GroupingIs(mark, |mark|);
    GroupsCover(mark);
    GroupsShape(groups, mark);
    forall a, b, x, y | 0 <= a < |groups| && 0 <= b < |groups| && x in groups[a] && y in groups[b]
      ensures a == b <==> Joined(edges, x, y)
    {
      SameGroup(groups, mark, a, b, x, y);
      SameRootIffJoined(mark, edges, x, y);
    }
  }

  lemma GroupsCover(mark: seq<nat>)
    ensures forall k: nat :: k < |mark| ==> Covered(Grouping(mark, |mark|), k)
  {
    forall k: nat | k < |mark|
      ensures Covered(Grouping(mark, |mark|), k)
    {
      GroupingHas(mark, |mark|, k);
      assert k in Members(mark, mark[k], |mark|);
    }
  }

  lemma GroupsShape(groups: seq<seq<nat>>, mark: seq<nat>)
    requires Groups(groups, mark, |mark|)
    ensures forall a :: 0 <= a < |groups| ==> groups[a] != [] && Increasing(groups[a])
    ensures forall a, k :: 0 <= a < |groups| && k in groups[a] ==> k < |mark|
  {}

  lemma SameGroup(groups: seq<seq<nat>>, mark: seq<nat>, a: nat, b: nat, x: nat, y: nat)
    requires Groups(groups, mark, |mark|)
    requires a < |groups| && b < |groups| && x in groups[a] && y in groups[b]
    ensures x < |mark| && y < |mark| && (a == b <==> mark[x] == mark[y])
  {
    assert mark[x] == mark[groups[a][0]] && mark[y] == mark[groups[b][0]];
  }
}
