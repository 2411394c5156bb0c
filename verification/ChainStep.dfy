/** The effect of merging one operation into its parent, node by node, and the proof that a merge
    keeps the plan well formed. */
module ChainStep {
  import opened Common
  import opened PlanGraph

  function Subst<R(==)>(x: Option<R>, c: R, p: R): Option<R> {
    if x == Some(c) then Some(p) else x
  }

  // ---------------------------------------------------------------------------------------------
  // The five loops of a merge, in closed form
  // ---------------------------------------------------------------------------------------------

  /** What `k` visits of the grandchild loop make of the edges of a node. */
  function Adopted<R(==)>(d: Node<R>, k: nat, p: R, c: R): Node<R> {
    if k == 0 then d
    else if !DualInput(d.identifier) then d.(parent := Some(p))
    else if d.parent != Some(c) then d.(other := Some(p))
    else if k == 1 then d.(parent := Some(p))
    else d.(parent := Some(p), other := Some(p))
  }

  /** The id test of the grandchild loop singles out `c`. */
  ghost predicate IdTestExact<R>(g: Graph<R>, c: R, m: R)
    requires c in g
  {
    m in g && (DualInput(g[m].identifier) ==>
      g[m].parent.Some? && g[m].parent.value in g &&
      (g[g[m].parent.value].id == g[c].id <==> g[m].parent.value == c))
  }

  /** One more visit of a grandchild. */
  lemma AdoptOnce<R>(h: Graph<R>, p: R, c: R, m: R, d: Node<R>, k: nat)
    requires p in h && c in h && m in h && m != p && h[p].id != h[c].id
    requires h[m] == Adopted(d, k, p, c)
    requires DualInput(d.identifier) ==>
      d.parent.Some? && d.parent.value in h && (h[d.parent.value].id == h[c].id <==> d.parent.value == c)
    ensures var r := Adopt(h, p, c, m);
            && r[m] == Adopted(d, k + 1, p, c)
            && r[p] == h[p].(children := h[p].children + [m])
            && (forall n :: n in h && n != p && n != m ==> r[n] == h[n])
  {
  }

  lemma {:induction false} AdoptAllKeepsIds<R>(g: Graph<R>, p: R, c: R, ms: seq<R>)
    requires p in g && c in g
    ensures forall n :: n in g ==> AdoptAll(g, p, c, ms)[n].id == g[n].id
  {
    if ms != [] {
      AdoptAllKeepsIds(g, p, c, ms[..|ms| - 1]);
    }
  }

  lemma {:induction false} AdoptAllParent<R>(g: Graph<R>, p: R, c: R, ms: seq<R>)
    requires p in g && c in g && p !in ms
    ensures AdoptAll(g, p, c, ms)[p] == g[p].(children := g[p].children + ms)
  {
    if ms == [] {
      assert g[p].children + ms == g[p].children;
    } else {
      var front, m := ms[..|ms| - 1], ms[|ms| - 1];
      assert ms == front + [m];
      AdoptAllParent(g, p, c, front);
      assert g[p].children + ms == (g[p].children + front) + [m];
    }
  }

  /** The grandchild loop seen from one node. */
  lemma {:induction false} AdoptAllAt<R>(g: Graph<R>, p: R, c: R, ms: seq<R>, n: R)
    requires p in g && c in g && n in g && g[p].id != g[c].id && n != p
    requires n in ms ==> IdTestExact(g, c, n)
    ensures AdoptAll(g, p, c, ms)[n] == Adopted(g[n], multiset(ms)[n], p, c)
  {
    if ms != [] {
      var front, m := ms[..|ms| - 1], ms[|ms| - 1];
      assert ms == front + [m];
      AdoptAllAt(g, p, c, front, n);
      if m == n {
        assert IdTestExact(g, c, n);
        AdoptAllKeepsIds(g, p, c, front);
        AdoptOnce(AdoptAll(g, p, c, front), p, c, m, g[m], multiset(front)[m]);
      }
    }
  }

  lemma {:induction false} ReplaceBcvarsIdle<R>(g: Graph<R>, sets: seq<R>, p: R, c: R)
    requires forall s :: s in sets && s in g ==> c !in g[s].bcvars
    ensures ReplaceBcvars(g, sets, p, c) == g
  {
    if sets != [] {
      var front, s := sets[..|sets| - 1], sets[|sets| - 1];
      assert forall x :: x in front ==> x in sets;
      ReplaceBcvarsIdle(g, front, p, c);
      assert s in sets;
      assert s in g ==> g[s := g[s].(bcvars := Replaced(g[s].bcvars, c, p))] == g;
    }
  }

  lemma {:induction false} RedirectKeepsIds<R>(g: Graph<R>, bs: seq<R>, p: R, c: R)
    requires c in g
    ensures forall n :: n in g ==> Redirect(g, bs, p, c)[n].id == g[n].id
  {
    if bs != [] {
      RedirectKeepsIds(g, bs[..|bs| - 1], p, c);
    }
  }

  lemma {:induction false} RedirectAt<R>(g: Graph<R>, bs: seq<R>, p: R, c: R, n: R)
    requires c in g && n in g && p in g && g[p].id != g[c].id
    requires n in bs ==> g[n].other.Some? && g[n].other.value in g
    requires n in bs ==> (g[g[n].other.value].id == g[c].id <==> g[n].other.value == c)
    ensures Redirect(g, bs, p, c)[n] == if n in bs then g[n].(other := Subst(g[n].other, c, p)) else g[n]
  {
    if bs != [] {
      var front, b := bs[..|bs| - 1], bs[|bs| - 1];
      assert bs == front + [b];
      RedirectKeepsIds(g, front, p, c);
      RedirectAt(g, front, p, c, n);
    }
  }

  lemma {:induction false} MoveSinksAt<R>(g: Graph<R>, p: R, ss: seq<R>, n: R)
    requires p in g && n in g && p !in ss
    ensures MoveSinks(g, p, ss)[n] ==
      if n == p then g[p].(sinks := g[p].sinks + ss)
      else if n in ss then g[n].(parent := Some(p)) else g[n]
  {
    if ss == [] {
      assert g[p].sinks + ss == g[p].sinks;
    } else {
      var front, s := ss[..|ss| - 1], ss[|ss| - 1];
      assert ss == front + [s];
      MoveSinksAt(g, p, front, n);
      assert g[p].sinks + ss == (g[p].sinks + front) + [s];
    }
  }

  lemma {:induction false} MoveBcvarsAt<R>(g: Graph<R>, p: R, bs: seq<R>, n: R)
    requires p in g && n in g && p !in bs
    ensures MoveBcvars(g, p, bs)[n] ==
      if n == p then g[p].(bcvars := g[p].bcvars + bs)
      else if n in bs then g[n].(parent := Some(p)) else g[n]
  {
    if bs == [] {
      assert g[p].bcvars + bs == g[p].bcvars;
    } else {
      var front, b := bs[..|bs| - 1], bs[|bs| - 1];
      assert bs == front + [b];
      MoveBcvarsAt(g, p, front, n);
      assert g[p].bcvars + bs == (g[p].bcvars + front) + [b];
    }
  }

  // ---------------------------------------------------------------------------------------------
  // A whole merge
  // ---------------------------------------------------------------------------------------------

  /** `c` may be merged into `p`: the guard of the pass held and `p` is its parent. */
  ghost predicate Mergeable<R>(P: Plan<R>, p: R, c: R) {
    c in P.sets && Guard(P, c) && P.graph[c].parent == Some(p)
  }

  lemma WellFormedIsRunnable<R>(P: Plan<R>)
    requires WellFormed(P)
    ensures Runnable(P)
  {
    forall n, m | n in Ops(P) && m in P.sets ensures ChildListed(P, n, m) {
      assert EdgeOk(P, n, m);
    }
  }

  lemma MergeableFacts<R>(P: Plan<R>, p: R, c: R)
    requires Runnable(P) && Mergeable(P, p, c)
    ensures p in P.sets && p != c && P.graph[p].id != P.graph[c].id && P.graph[c].other.None?
    ensures P.graph[p].children == [c] && P.graph[p].sinks == []
    ensures Rank(P.sets, p) < Rank(P.sets, c)
  {
    assert SetOk(P, c);
    assert p in P.sources ==> SourceOk(P, p);
    assert ChildListed(P, p, c) && DistinctIds(P, p, c);
    assert c in P.graph[p].children;
  }

  lemma FusedFacts<R>(P: Plan<R>, p: R, c: R)
    requires WellFormed(P) && Mergeable(P, p, c)
    ensures p in P.sets && p != c && P.graph[p].id != P.graph[c].id && P.graph[c].other.None?
    ensures P.graph[p].children == [c] && P.graph[p].sinks == []
    ensures Rank(P.sets, p) < Rank(P.sets, c)
  {
    WellFormedIsRunnable(P);
    MergeableFacts(P, p, c);
  }

  /** Each node after `c` was merged into `p`, as the loops leave it. */
  function MergedNode<R(==)>(P: Plan<R>, p: R, c: R, n: R): Node<R>
    requires p in P.graph && c in P.graph && n in P.graph
  {
    var d, e := P.graph[n], P.graph[c];
    if n == p then
      d.(chained := Some(c), name := d.name + " -> " + e.name, types := e.types,
         children := e.children, sinks := e.sinks, bcvars := d.bcvars + e.bcvars)
    else if n in P.broadcast then
      d.(parent := if n in e.bcvars then Some(p) else d.parent, other := Subst(d.other, c, p))
    else if n in e.sinks then d.(parent := Some(p))
    else Adopted(d, multiset(e.children)[n], p, c)
  }

  /** The grandchild loop seen from a node other than `p`. */
  lemma AdoptEffect<R>(P: Plan<R>, p: R, c: R, n: R)
    requires Runnable(P) && Mergeable(P, p, c) && n in P.graph && n != p
    ensures p in P.graph
    ensures AdoptAll(Link(P.graph, p, c), p, c, P.graph[c].children)[n]
            == Adopted(P.graph[n], multiset(P.graph[c].children)[n], p, c)
  {
    MergeableFacts(P, p, c);
    var ms := P.graph[c].children;
    assert OutEdgesOk(P, c);
    if n in ms {
      assert n in P.sets && SetOk(P, n) && DistinctIds(P, P.graph[n].parent.value, c);
    }
    AdoptAllAt(Link(P.graph, p, c), p, c, ms, n);
  }

  lemma AdoptEffectOnParent<R>(P: Plan<R>, p: R, c: R)
    requires Runnable(P) && Mergeable(P, p, c)
    ensures p in P.graph
    ensures var g1 := Link(P.graph, p, c);
            AdoptAll(g1, p, c, P.graph[c].children)[p] == g1[p].(children := [c] + P.graph[c].children)
  {
    MergeableFacts(P, p, c);
    assert OutEdgesOk(P, c);
    AdoptAllParent(Link(P.graph, p, c), p, c, P.graph[c].children);
  }

  /** No node lists `c` as a broadcast variable, so that loop changes nothing. */
  lemma NoBcvarIsReplaced<R>(P: Plan<R>, p: R, c: R)
    requires Runnable(P) && Mergeable(P, p, c) && p in P.graph
    ensures var g2 := AdoptAll(Link(P.graph, p, c), p, c, P.graph[c].children);
            ReplaceBcvars(g2, P.sets, p, c) == g2
  {
    var g2 := AdoptAll(Link(P.graph, p, c), p, c, P.graph[c].children);
    AdoptEffectOnParent(P, p, c);
    forall s | s in P.sets
      ensures c !in g2[s].bcvars
    {
      assert OutEdgesOk(P, s);
      if s != p {
        AdoptEffect(P, p, c, s);
      }
    }
    ReplaceBcvarsIdle(g2, P.sets, p, c);
  }

  /** The graph after the first four loops. */
  function UpToRedirect<R(==)>(P: Plan<R>, p: R, c: R): Graph<R>
    requires p in P.graph && c in P.graph
  {
    var g1 := Link(P.graph, p, c);
    Redirect(ReplaceBcvars(AdoptAll(g1, p, c, g1[c].children), P.sets, p, c), P.broadcast, p, c)
  }

  /** The id test on a broadcast variable singles out `c`. */
  lemma BroadcastReads<R>(P: Plan<R>, c: R, b: R)
    requires Closed(P) && c in P.sets && b in P.broadcast
    ensures b in P.graph && b !in Ops(P) && b !in P.graph[c].children
    ensures P.graph[b].other.Some? && P.graph[b].other.value in P.graph
    ensures c in P.graph && (P.graph[P.graph[b].other.value].id == P.graph[c].id <==> P.graph[b].other.value == c)
  {
    assert DistinctIds(P, P.graph[b].other.value, c);
    assert OutEdgesOk(P, c);
  }

  lemma UpToRedirectAt<R>(P: Plan<R>, p: R, c: R, n: R)
    requires Runnable(P) && Mergeable(P, p, c) && n in P.graph && n != p
    ensures p in P.graph
    ensures var d := P.graph[n];
            UpToRedirect(P, p, c)[n] ==
              if n in P.broadcast then d.(other := Subst(d.other, c, p))
              else Adopted(d, multiset(P.graph[c].children)[n], p, c)
  {
    MergeableFacts(P, p, c);
    var g1 := Link(P.graph, p, c);
    NoBcvarIsReplaced(P, p, c);
    AdoptAllKeepsIds(g1, p, c, g1[c].children);
    AdoptEffect(P, p, c, n);
    if n in P.broadcast {
      BroadcastReads(P, c, n);
    }
    RedirectAt(AdoptAll(g1, p, c, g1[c].children), P.broadcast, p, c, n);
  }

  lemma UpToRedirectAtParent<R>(P: Plan<R>, p: R, c: R)
    requires Runnable(P) && Mergeable(P, p, c)
    ensures p in P.graph
    ensures UpToRedirect(P, p, c)[p] == Link(P.graph, p, c)[p].(children := [c] + P.graph[c].children)
  {
    MergeableFacts(P, p, c);
    var g1 := Link(P.graph, p, c);
    NoBcvarIsReplaced(P, p, c);
    AdoptEffectOnParent(P, p, c);
    AdoptAllKeepsIds(g1, p, c, g1[c].children);
    RedirectAt(AdoptAll(g1, p, c, g1[c].children), P.broadcast, p, c, p);
  }

  lemma LastTwoLoops<R>(P: Plan<R>, p: R, c: R, n: R, g4: Graph<R>)
    requires p in P.graph && c in P.graph && n in P.graph && g4.Keys == P.graph.Keys && p != c
    requires P.graph[p].sinks == [] && p !in P.graph[c].sinks && p !in P.graph[c].bcvars
    requires c !in P.graph[c].sinks && c !in P.graph[c].bcvars
    requires g4[c] == P.graph[c]
    requires g4[p] == Link(P.graph, p, c)[p].(children := [c] + P.graph[c].children)
    requires n != p && n in P.broadcast ==> g4[n] == P.graph[n].(other := Subst(P.graph[n].other, c, p))
    requires n != p && n !in P.broadcast ==> g4[n] == Adopted(P.graph[n], multiset(P.graph[c].children)[n], p, c)
    requires n in P.graph[c].sinks ==> n !in P.broadcast && n !in P.graph[c].children
    requires n in P.graph[c].bcvars ==> n in P.broadcast
    ensures var g5 := MoveSinks(g4, p, g4[c].sinks);
            var g6 := MoveBcvars(g5, p, g5[c].bcvars);
            g6[p := g6[p].(children := RemoveFirst(g6[p].children, c))][n] == MergedNode(P, p, c, n)
  {
    var e := P.graph[c];
    MoveSinksAt(g4, p, e.sinks, c);
    MoveSinksAt(g4, p, e.sinks, n);
    MoveBcvarsAt(MoveSinks(g4, p, e.sinks), p, e.bcvars, n);
    assert RemoveFirst([c] + e.children, c) == e.children;
    assert P.graph[p].sinks + e.sinks == e.sinks;
  }

  lemma MergeEffectAt<R>(P: Plan<R>, p: R, c: R, n: R)
    requires Runnable(P) && Mergeable(P, p, c) && n in P.graph
    ensures p in P.graph
    ensures MergedGraph(P, p, c)[n] == MergedNode(P, p, c, n)
  {
    MergeableFacts(P, p, c);
    UpToRedirectAt(P, p, c, c);
    UpToRedirectAtParent(P, p, c);
    if n != p {
      UpToRedirectAt(P, p, c, n);
    }
    assert OutEdgesOk(P, c);
    LastTwoLoops(P, p, c, n, UpToRedirect(P, p, c));
  }

  function MergedNodes<R(==)>(P: Plan<R>, p: R, c: R): (g: Graph<R>)
    requires p in P.graph && c in P.graph
    ensures g.Keys == P.graph.Keys
  {
    map n | n in P.graph :: MergedNode(P, p, c, n)
  }

  /** What the loops of a merge do to the whole graph. */
  lemma MergeEffect<R>(P: Plan<R>, p: R, c: R)
    requires Runnable(P) && Mergeable(P, p, c)
    ensures p in P.graph
    ensures MergedGraph(P, p, c) == MergedNodes(P, p, c)
  {
    MergeableFacts(P, p, c);
    forall n | n in P.graph
      ensures MergedGraph(P, p, c)[n] == MergedNodes(P, p, c)[n]
    {
      MergeEffectAt(P, p, c, n);
    }
    SameGraph(MergedGraph(P, p, c), MergedNodes(P, p, c));
  }

  lemma SameGraph<R>(g: Graph<R>, h: Graph<R>)
    requires g.Keys == h.Keys && forall n :: n in g ==> g[n] == h[n]
    ensures g == h
  {
  }

  /** With one visit per edge, a merge redirects exactly the edges that pointed at `c`. */
  function RedirectedNode<R(==)>(P: Plan<R>, p: R, c: R, n: R): Node<R>
    requires p in P.graph && c in P.graph && n in P.graph
  {
    var d, e := P.graph[n], P.graph[c];
    if n == p then
      d.(chained := Some(c), name := d.name + " -> " + e.name, types := e.types,
         children := e.children, sinks := e.sinks, bcvars := d.bcvars + e.bcvars)
    else if n == c then d
    else if n in P.sets || n in P.broadcast then d.(parent := Subst(d.parent, c, p), other := Subst(d.other, c, p))
    else if n in P.sinks then d.(parent := Subst(d.parent, c, p))
    else d
  }

  lemma VisitsMatchEdges<R>(P: Plan<R>, p: R, c: R, n: R)
    requires c in P.graph && n in P.graph && SetOk(P, n) && ChildEdge(P, c, n)
    ensures Adopted(P.graph[n], multiset(P.graph[c].children)[n], p, c) ==
            P.graph[n].(parent := Subst(P.graph[n].parent, c, p), other := Subst(P.graph[n].other, c, p))
  {
  }

  lemma MergedIsRedirected<R>(P: Plan<R>, p: R, c: R, n: R)
    requires WellFormed(P) && Mergeable(P, p, c) && n in P.graph
    ensures p in P.graph && MergedNode(P, p, c, n) == RedirectedNode(P, p, c, n)
  {
    WellFormedIsRunnable(P);
    MergeableFacts(P, p, c);
    assert OutEdgesOk(P, c);
    if n in P.sets && n != p && n != c {
      assert SetOk(P, n) && EdgeOk(P, c, n);
      VisitsMatchEdges(P, p, c, n);
    } else if n in P.sinks {
      assert n in P.graph[c].sinks <==> P.graph[n].parent == Some(c);
    } else if n in P.broadcast {
      assert n in P.graph[c].bcvars <==> P.graph[n].parent == Some(c);
    } else {
      assert multiset(P.graph[c].children)[n] == 0;
    }
  }

  function RedirectedNodes<R(==)>(P: Plan<R>, p: R, c: R): (g: Graph<R>)
    requires p in P.graph && c in P.graph
    ensures g.Keys == P.graph.Keys
  {
    map n | n in P.graph :: RedirectedNode(P, p, c, n)
  }

  /** The effect of a merge on a well formed plan. */
  lemma MergeRedirects<R>(P: Plan<R>, p: R, c: R)
    requires WellFormed(P) && Mergeable(P, p, c)
    ensures p in P.graph
    ensures MergedGraph(P, p, c) == RedirectedNodes(P, p, c)
  {
    WellFormedIsRunnable(P);
    MergeEffect(P, p, c);
    forall n | n in P.graph
      ensures MergedNodes(P, p, c)[n] == RedirectedNodes(P, p, c)[n]
    {
      MergedIsRedirected(P, p, c, n);
    }
    SameGraph(MergedNodes(P, p, c), RedirectedNodes(P, p, c));
  }

  lemma MergeIs<R>(Q: Plan<R>, p: R, c: R, g: Graph<R>, sets: seq<R>)
    requires p in Q.graph && c in Q.graph && MergedGraph(Q, p, c) == g
    requires RemoveId(g, Q.sets, g[c].id) == sets
    ensures Merge(Q, p, c) == Plan(g, Q.sources, sets, Q.sinks, Q.broadcast)
  {
  }

  // ---------------------------------------------------------------------------------------------
  // A merge keeps the plan runnable
  // ---------------------------------------------------------------------------------------------

  lemma {:induction false} RemoveIdMembers<R>(g: Graph<R>, sets: seq<R>, c: R, a: R)
    requires c in g && forall n :: n in sets ==> n in g && (g[n].id == g[c].id <==> n == c)
    ensures a in RemoveId(g, sets, g[c].id) <==> a in sets && a != c
  {
    if sets != [] {
      var front, z := sets[..|sets| - 1], sets[|sets| - 1];
      assert sets == front + [z];
      RemoveIdMembers(g, front, c, a);
    }
  }

  lemma {:induction false} RemoveIdDistinct<R>(g: Graph<R>, sets: seq<R>, c: R)
    requires c in g && forall n :: n in sets ==> n in g && (g[n].id == g[c].id <==> n == c)
    requires NoDuplicates(sets)
    ensures NoDuplicates(RemoveId(g, sets, g[c].id))
  {
    if sets != [] {
      var front, z := sets[..|sets| - 1], sets[|sets| - 1];
      assert sets == front + [z];
      RemoveIdDistinct(g, front, c);
      RemoveIdMembers(g, front, c, z);
      assert z !in RemoveId(g, front, g[c].id);
    }
  }

  lemma {:induction false} RemoveIdKeepsOrder<R>(g: Graph<R>, sets: seq<R>, c: R, a: R, b: R)
    requires c in g && forall n :: n in sets ==> n in g && (g[n].id == g[c].id <==> n == c)
    requires a != c && b != c && Rank(sets, a) < Rank(sets, b)
    ensures Rank(RemoveId(g, sets, g[c].id), a) < Rank(RemoveId(g, sets, g[c].id), b)
  {
    var front, z := sets[..|sets| - 1], sets[|sets| - 1];
    assert sets == front + [z];
    var r := RemoveId(g, front, g[c].id);
    if z != c {
      assert (r + [z])[..|r|] == r;
    }
    if b != z {
      RemoveIdKeepsOrder(g, front, c, a, b);
    }
  }

  /** `sets` is the sets of `P` without `c`, in the same order. */
  ghost predicate SetsWithout<R>(P: Plan<R>, sets: seq<R>, c: R) {
    && (forall n :: n in sets ==> n in P.sets && n != c)
    && (forall n :: n in P.sets && n != c ==> n in sets)
    && (forall a, b :: a in Ops(P) && b in Ops(P) && a != c && b != c && Rank(P.sets, a) < Rank(P.sets, b) ==>
          Rank(sets, a) < Rank(sets, b))
  }

  lemma MergedNodeId<R>(P: Plan<R>, p: R, c: R, n: R)
    requires p in P.graph && c in P.graph && n in P.graph
    ensures MergedNode(P, p, c, n).id == P.graph[n].id
  {
  }

  lemma MergedIds<R>(P: Plan<R>, p: R, c: R, n: R)
    requires Runnable(P) && Mergeable(P, p, c) && p in P.graph && n in P.graph
    ensures MergedGraph(P, p, c)[n].id == P.graph[n].id
  {
    MergeEffectAt(P, p, c, n);
    MergedNodeId(P, p, c, n);
  }

  /** The sets after a merge: `c` is gone and the others keep their order. */
  lemma MergedSets<R>(P: Plan<R>, p: R, c: R)
    requires Runnable(P) && Mergeable(P, p, c) && p in P.graph
    ensures NoDuplicates(Merge(P, p, c).sets)
    ensures SetsWithout(P, Merge(P, p, c).sets, c)
  {
    var g := MergedGraph(P, p, c);
    forall n | n in P.sets
      ensures n in g && (g[n].id == g[c].id <==> n == c)
    {
      MergedIds(P, p, c, n);
      MergedIds(P, p, c, c);
      assert DistinctIds(P, n, c);
    }
    RemoveIdDistinct(g, P.sets, c);
    SetsWithoutFrom(P, g, c);
  }

  lemma SetsWithoutFrom<R>(P: Plan<R>, g: Graph<R>, c: R)
    requires c in g && forall n :: n in P.sets ==> n in g && (g[n].id == g[c].id <==> n == c)
    ensures SetsWithout(P, RemoveId(g, P.sets, g[c].id), c)
  {
    var r := RemoveId(g, P.sets, g[c].id);
    forall n | n in r ensures n in P.sets && n != c {
      RemoveIdMembers(g, P.sets, c, n);
    }
    forall n | n in P.sets && n != c ensures n in r {
      RemoveIdMembers(g, P.sets, c, n);
    }
    forall a, b | a != c && b != c && Rank(P.sets, a) < Rank(P.sets, b)
      ensures Rank(r, a) < Rank(r, b)
    {
      RemoveIdKeepsOrder(g, P.sets, c, a, b);
    }
  }

  /** `Q` is `P` after `c` was merged into `p`, described node by node. */
  ghost predicate IsMerged<R>(P: Plan<R>, Q: Plan<R>, p: R, c: R) {
    && p in P.sets && c in P.sets && p != c && p in P.graph && c in P.graph
    && P.graph[p].children == [c] && P.graph[p].sinks == []
    && P.graph[c].parent == Some(p) && P.graph[c].other.None?
    && Q.sources == P.sources && Q.sinks == P.sinks && Q.broadcast == P.broadcast
    && NoDuplicates(Q.sets) && SetsWithout(P, Q.sets, c)
    && Q.graph == MergedNodes(P, p, c)
  }

  lemma MergeIsMerged<R>(P: Plan<R>, p: R, c: R)
    requires Runnable(P) && Mergeable(P, p, c)
    ensures p in P.graph && IsMerged(P, Merge(P, p, c), p, c)
  {
    MergeableFacts(P, p, c);
    MergeEffect(P, p, c);
    MergedSets(P, p, c);
  }

  lemma MergeKeepsLists<R>(P: Plan<R>, Q: Plan<R>, p: R, c: R)
    requires ListsOk(P) && UniqueIds(P) && IsMerged(P, Q, p, c)
    ensures ListsOk(Q) && UniqueIds(Q)
    ensures forall n :: n in Ops(Q) ==> n in Ops(P) && n != c
  {
    assert c in P.sets;
    assert forall n :: n in Q.sources ==> n in Ops(P) && n != c;
    assert forall n :: n in Q.sets ==> n in Ops(P) && n != c;
    forall a, b | a in Ops(Q) && b in Ops(Q) ensures DistinctIds(Q, a, b) {
      assert DistinctIds(P, a, b);
      assert Q.graph[a] == MergedNode(P, p, c, a) && Q.graph[b] == MergedNode(P, p, c, b);
    }
  }

  lemma PrecedesKept<R>(P: Plan<R>, Q: Plan<R>, p: R, c: R, q: Option<R>, n: R)
    requires IsMerged(P, Q, p, c) && n in Q.sets && Precedes(P, q, n) && q != Some(c)
    ensures Precedes(Q, q, n)
  {
    assert n in Ops(P) && q.value in Ops(P);
  }

  /** The inputs of a set after a merge: unchanged, or `p` for a child of `c`. */
  lemma MergedInputs<R>(P: Plan<R>, Q: Plan<R>, p: R, c: R, n: R)
    requires Runnable(P) && IsMerged(P, Q, p, c) && n in P.sets && n != c && n in P.graph
    ensures n in Q.graph && Q.graph[n].identifier == P.graph[n].identifier
    ensures var d, d' := P.graph[n], Q.graph[n];
            && d'.parent != Some(c) && d'.other != Some(c)
            && (d'.other.Some? <==> d.other.Some?)
            && (d'.parent == d.parent || (d'.parent == Some(p) && n in P.graph[c].children))
            && (d'.other == d.other || (d'.other == Some(p) && n in P.graph[c].children))
  {
    assert SetOk(P, n) && ChildListed(P, c, n) && OutEdgesOk(P, c);
    assert Q.graph[n] == MergedNode(P, p, c, n);
    assert n !in P.graph[c].sinks && n !in P.broadcast;
    if n == p {
      assert SetOk(P, c) && c in Ops(P);
    }
  }

  lemma MergeKeepsSetOk<R>(P: Plan<R>, Q: Plan<R>, p: R, c: R, n: R)
    requires Runnable(P) && IsMerged(P, Q, p, c) && n in Q.sets
    ensures n in Q.graph && SetOk(Q, n)
  {
    assert n in P.sets && SetOk(P, n) && SetOk(P, c);
    MergedInputs(P, Q, p, c, n);
    var d := Q.graph[n];
    assert Precedes(P, d.parent, n) && (d.other.Some? ==> Precedes(P, d.other, n)) by {
      assert OutEdgesOk(P, c);
    }
    PrecedesKept(P, Q, p, c, d.parent, n);
    if d.other.Some? {
      PrecedesKept(P, Q, p, c, d.other, n);
    }
  }

  lemma MergeKeepsOutEdges<R>(P: Plan<R>, Q: Plan<R>, p: R, c: R, n: R)
    requires Runnable(P) && IsMerged(P, Q, p, c) && n in Ops(P) && n != c
    ensures n in Q.graph && OutEdgesOk(Q, n)
  {
    assert OutEdgesOk(P, n) && OutEdgesOk(P, c) && SetOk(P, c) && ChildListed(P, n, c);
    assert n != p ==> c !in P.graph[n].children;
    forall m | m in Q.graph[n].children
      ensures m in Q.sets && Rank(Q.sets, n) < Rank(Q.sets, m)
    {
      assert m in Ops(P);
    }
  }

  /** The edges of a set towards its new parent are no more than its visits. */
  lemma AdoptedEdges<R>(d: Node<R>, k: nat, p: R, c: R)
    requires d.parent != Some(p) && d.other != Some(p)
    requires !DualInput(d.identifier) ==> d.other.None? && k == One(d.parent == Some(c))
    ensures var edges := One(Adopted(d, k, p, c).parent == Some(p)) + One(Adopted(d, k, p, c).other == Some(p));
            if DualInput(d.identifier) then edges <= k else edges == k
  {
  }

  lemma MergeKeepsListedParent<R>(P: Plan<R>, Q: Plan<R>, p: R, c: R, m: R)
    requires Runnable(P) && IsMerged(P, Q, p, c) && m in P.sets && m != c
    ensures p in Q.graph && m in Q.graph && ChildListed(Q, p, m)
  {
    assert SetOk(P, m) && p in Ops(P) && c in Ops(P) && OutEdgesOk(P, c);
    assert ChildListed(P, p, m) && ChildListed(P, c, m);
    if m == p {
      assert SetOk(P, c) && OutEdgesOk(P, p);
      MergedInputs(P, Q, p, c, m);
    } else {
      assert multiset([c])[m] == 0;
      assert Q.graph[m] == MergedNode(P, p, c, m) && m !in P.graph[c].sinks && m !in P.broadcast;
      AdoptedEdges(P.graph[m], multiset(P.graph[c].children)[m], p, c);
    }
  }

  lemma MergeKeepsChildListed<R>(P: Plan<R>, Q: Plan<R>, p: R, c: R, n: R, m: R)
    requires Runnable(P) && IsMerged(P, Q, p, c)
    requires n in Ops(P) && n != c && m in P.sets && m != c
    ensures n in Q.graph && m in Q.graph && ChildListed(Q, n, m)
  {
    if n == p {
      MergeKeepsListedParent(P, Q, p, c, m);
    } else {
      assert SetOk(P, m) && p in Ops(P) && c in Ops(P) && OutEdgesOk(P, c);
      assert ChildListed(P, n, m) && ChildListed(P, c, m);
      MergedInputs(P, Q, p, c, m);
    }
  }

  lemma IsMergedClosed<R>(P: Plan<R>, Q: Plan<R>, p: R, c: R)
    requires Runnable(P) && IsMerged(P, Q, p, c)
    ensures Closed(Q)
  {
    MergeKeepsLists(P, Q, p, c);
    forall n | n in Q.sources ensures SourceOk(Q, n) {
      assert SourceOk(P, n);
      SourceUntouched(P, Q, p, c, n);
    }
    forall n | n in Q.sets ensures SetOk(Q, n) {
      MergeKeepsSetOk(P, Q, p, c, n);
    }
    forall n | n in Ops(Q) ensures OutEdgesOk(Q, n) {
      MergeKeepsOutEdges(P, Q, p, c, n);
    }
    forall b | b in Q.broadcast ensures Q.graph[b].other.Some? && Q.graph[b].other.value in Ops(Q) {
      assert P.graph[b].other.Some? && P.graph[b].other.value in Ops(P);
      assert b != p && Q.graph[b] == MergedNode(P, p, c, b);
    }
  }

  lemma SourceUntouched<R>(P: Plan<R>, Q: Plan<R>, p: R, c: R, n: R)
    requires Closed(P) && IsMerged(P, Q, p, c) && n in P.sources && n in P.graph
    ensures n in Q.graph && Q.graph[n] == P.graph[n]
  {
    assert OutEdgesOk(P, c) && n !in P.graph[c].children && n !in P.graph[c].sinks && n !in P.broadcast;
    assert Q.graph[n] == MergedNode(P, p, c, n);
  }

  lemma IsMergedRunnable<R>(P: Plan<R>, Q: Plan<R>, p: R, c: R)
    requires Runnable(P) && IsMerged(P, Q, p, c)
    ensures Runnable(Q)
  {
    IsMergedClosed(P, Q, p, c);
    MergeKeepsLists(P, Q, p, c);
    forall n, m | n in Ops(Q) && m in Q.sets ensures ChildListed(Q, n, m) {
      MergeKeepsChildListed(P, Q, p, c, n, m);
    }
  }

  /** The pass can go on after a merge. */
  lemma MergeKeepsRunnable<R>(P: Plan<R>, p: R, c: R)
    requires Runnable(P) && Mergeable(P, p, c)
    ensures p in P.graph && Runnable(Merge(P, p, c))
  {
    MergeIsMerged(P, p, c);
    IsMergedRunnable(P, Merge(P, p, c), p, c);
  }

  // ---------------------------------------------------------------------------------------------
  // A merge keeps the plan well formed
  // ---------------------------------------------------------------------------------------------

  /** Children that are exact stay exact, and those of `c`, which are exact, go to `p`. */
  lemma MergeKeepsChildEdge<R>(P: Plan<R>, Q: Plan<R>, p: R, c: R, n: R, m: R)
    requires WellFormed(P) && Mergeable(P, p, c) && IsMerged(P, Q, p, c) && Q.graph == RedirectedNodes(P, p, c)
    requires n in Ops(P) && n != c && m in P.sets && m != c
    requires n in P.graph && m in P.graph && (n == p || ChildEdge(P, n, m))
    ensures n in Q.graph && m in Q.graph && ChildEdge(Q, n, m)
  {
    assert SetOk(P, m) && SetOk(P, c) && p in Ops(P) && c in Ops(P);
    assert EdgeOk(P, c, m) && EdgeOk(P, p, m);
    if n == p {
      assert multiset(P.graph[p].children)[m] == 0;
    }
  }

  /** A set that passes the guard after the merge passed it before. */
  lemma GuardBefore<R>(P: Plan<R>, Q: Plan<R>, p: R, c: R, n: R)
    requires WellFormed(P) && Mergeable(P, p, c) && IsMerged(P, Q, p, c) && Q.graph == RedirectedNodes(P, p, c)
    requires n in P.sets && n != c && n != p && Guard(Q, n)
    ensures Guard(P, n)
  {
    assert SetOk(P, n) && c in Ops(P) && p in Ops(P) && n in Ops(P);
    var q := P.graph[n].parent.value;
    assert EdgeOk(P, p, n);
    assert multiset([c])[n] == 0;
    assert q != p;
    assert Q.graph[n] == RedirectedNode(P, p, c, n);
    if q == c {
      assert Q.graph[p] == RedirectedNode(P, p, c, p);
    } else {
      assert q in Ops(P);
      assert Q.graph[q] == RedirectedNode(P, p, c, q);
    }
  }

  lemma MergeKeepsEdgeOk<R>(P: Plan<R>, Q: Plan<R>, p: R, c: R, n: R, m: R)
    requires WellFormed(P) && Mergeable(P, p, c) && IsMerged(P, Q, p, c) && Q.graph == RedirectedNodes(P, p, c)
    requires n in Ops(P) && n != c && m in P.sets && m != c
    ensures n in Q.graph && m in Q.graph && EdgeOk(Q, n, m)
  {
    WellFormedIsRunnable(P);
    MergeKeepsChildListed(P, Q, p, c, n, m);
    assert n in P.graph && m in P.graph;
    if n == p {
      MergeKeepsChildEdge(P, Q, p, c, n, m);
    } else if Guard(Q, n) {
      assert n in P.sources ==> SourceOk(P, n);
      GuardBefore(P, Q, p, c, n);
      assert EdgeOk(P, n, m);
      MergeKeepsChildEdge(P, Q, p, c, n, m);
    }
  }

  lemma MergeKeepsSinkEdges<R>(P: Plan<R>, Q: Plan<R>, p: R, c: R)
    requires ListsOk(P) && SinkEdges(P) && IsMerged(P, Q, p, c) && ListsOk(Q) && Q.graph == RedirectedNodes(P, p, c)
    requires forall n :: n in Ops(Q) ==> n in Ops(P) && n != c
    requires OutEdgesOk(P, c)
    ensures SinkEdges(Q)
  {
    forall s | s in Q.sinks
      ensures var q := Q.graph[s].parent; q.Some? && q.value in Ops(Q) && s in Q.graph[q.value].sinks
    {
      assert s !in P.sets;
    }
    forall n, s | n in Ops(Q) && s in Q.graph[n].sinks && s in Q.graph
      ensures Q.graph[s].parent == Some(n)
    {
      if n == p {
        assert s in P.graph[c].sinks && s in P.sinks;
      } else {
        assert s in P.graph[n].sinks && P.graph[s].parent == Some(n);
      }
    }
  }

  lemma MergeKeepsBroadcastEdges<R>(P: Plan<R>, Q: Plan<R>, p: R, c: R)
    requires ListsOk(P) && BroadcastEdges(P) && IsMerged(P, Q, p, c) && ListsOk(Q) &&
             Q.graph == RedirectedNodes(P, p, c)
    requires forall n :: n in Ops(Q) ==> n in Ops(P) && n != c
    requires forall n :: n in Ops(P) ==> OutEdgesOk(P, n)
    ensures BroadcastEdges(Q)
  {
    forall b | b in Q.broadcast
      ensures var q := Q.graph[b].parent; q.Some? && q.value in Q.sets && b in Q.graph[q.value].bcvars
    {
      assert b !in P.sets;
    }
    forall n, b | n in Q.sets && b in Q.graph[n].bcvars && b in Q.graph
      ensures Q.graph[b].parent == Some(n)
    {
      assert OutEdgesOk(P, n) && OutEdgesOk(P, c);
      if n == p {
        assert b in P.graph[p].bcvars || b in P.graph[c].bcvars;
      } else {
        assert b in P.graph[n].bcvars && P.graph[b].parent == Some(n);
      }
    }
  }

  lemma IsMergedWellFormed<R>(P: Plan<R>, Q: Plan<R>, p: R, c: R)
    requires WellFormed(P) && Mergeable(P, p, c) && IsMerged(P, Q, p, c) && Q.graph == RedirectedNodes(P, p, c)
    ensures WellFormed(Q)
  {
    WellFormedIsRunnable(P);
    IsMergedClosed(P, Q, p, c);
    MergeKeepsLists(P, Q, p, c);
    forall n, m | n in Ops(Q) && m in Q.sets ensures EdgeOk(Q, n, m) {
      MergeKeepsEdgeOk(P, Q, p, c, n, m);
    }
    MergeKeepsSinkEdges(P, Q, p, c);
    forall n | n in Ops(P) ensures OutEdgesOk(P, n) {
    }
    MergeKeepsBroadcastEdges(P, Q, p, c);
    forall n | n in Q.sets && Chainable(Q.graph[n].identifier) ensures Q.graph[n].operator.Some? {
      assert Q.graph[n] == RedirectedNode(P, p, c, n);
    }
  }

  /** Merging keeps every property of a well formed plan: unique ids, inputs before consumers, and
      forward and backward edges that agree with multiplicity. */
  lemma MergeKeepsWellFormed<R>(P: Plan<R>, p: R, c: R)
    requires WellFormed(P) && Mergeable(P, p, c)
    ensures p in P.graph && WellFormed(Merge(P, p, c))
  {
    WellFormedIsRunnable(P);
    MergeIsMerged(P, p, c);
    MergeRedirects(P, p, c);
    IsMergedWellFormed(P, Merge(P, p, c), p, c);
  }

  /** A plan in which every node lists its consumers exactly, with multiplicity, stays such a plan; this
      includes a union or cross of a set with itself, whose two edges are visited one after the other. */
  lemma MergeKeepsExactEdges<R>(P: Plan<R>, p: R, c: R)
    requires WellFormed(P) && ExactEdges(P) && Mergeable(P, p, c)
    ensures p in P.graph && WellFormed(Merge(P, p, c)) && ExactEdges(Merge(P, p, c))
  {
    MergeKeepsWellFormed(P, p, c);
    WellFormedIsRunnable(P);
    MergeIsMerged(P, p, c);
    MergeRedirects(P, p, c);
    var Q := Merge(P, p, c);
    MergeKeepsLists(P, Q, p, c);
    forall n, m | n in Ops(Q) && m in Q.sets ensures ChildEdge(Q, n, m) {
      assert m in Ops(Q) && ChildEdge(P, n, m);
      MergeKeepsChildEdge(P, Q, p, c, n, m);
    }
  }

  lemma PassFromStep<R>(P: Plan<R>, x: nat, Q: Plan<R>)
    requires 0 < x <= |P.sets| && TryMerge(P, P.sets[x - 1]) == Q
    ensures PassFrom(P, x) == PassFrom(Q, x - 1)
  {
  }

  // ---------------------------------------------------------------------------------------------
  // The plans that the pass goes through
  // ---------------------------------------------------------------------------------------------

  predicate Tried(i: int) {
    true  // names the step at position `i`, so that proofs choose which step they look into
  }

  /** `tr[i]` is the plan when the first `i` sets are still to be tried. */
  ghost predicate Trace<R>(tr: seq<Plan<R>>) {
    TraceOk(tr) == true  // one fact
  }

  ghost predicate TraceOk<R>(tr: seq<Plan<R>>) {
    && tr != []
    && (forall i {:trigger Tried(i)} :: 0 <= i < |tr| - 1 && Tried(i) ==>
          i < |tr[i + 1].sets| && tr[i] == TryMerge(tr[i + 1], tr[i + 1].sets[i]))
  }

  lemma StepOfTrace<R>(tr: seq<Plan<R>>, i: nat)
    requires Trace(tr) && i + 1 < |tr|
    ensures i < |tr[i + 1].sets| && tr[i] == TryMerge(tr[i + 1], tr[i + 1].sets[i])
  {
    assert Tried(i);
  }

  lemma TraceStep<R>(tr: seq<Plan<R>>, i: nat)
    requires Trace(tr) && i + 1 < |tr|
    ensures PassFrom(tr[i + 1], i + 1) == PassFrom(tr[i], i)
  {
    StepOfTrace(tr, i);
    PassFromStep(tr[i + 1], i + 1, tr[i]);
  }

  lemma {:induction false} TraceEndsInPass<R>(tr: seq<Plan<R>>, x: nat)
    requires Trace(tr) && x < |tr|
    ensures PassFrom(tr[x], x) == tr[0]
    decreases x
  {
    if x > 0 {
      TraceStep(tr, x - 1);
      TraceEndsInPass(tr, x - 1);
    }
  }

  lemma {:induction false} RemoveIdIdle<R>(g: Graph<R>, sets: seq<R>, c: R)
    requires c in g && c !in sets
    requires forall m :: m in sets ==> m in g && (g[m].id == g[c].id <==> m == c)
    ensures RemoveId(g, sets, g[c].id) == sets
  {
    if sets != [] {
      assert sets == sets[..|sets| - 1] + [sets[|sets| - 1]];
      RemoveIdIdle(g, sets[..|sets| - 1], c);
    }
  }

  lemma {:induction false} RemoveIdPrefix<R>(g: Graph<R>, sets: seq<R>, c: R, x: nat)
    requires c in g && x < |sets| && sets[x] == c && NoDuplicates(sets)
    requires forall m :: m in sets ==> m in g && (g[m].id == g[c].id <==> m == c)
    ensures x <= |RemoveId(g, sets, g[c].id)| && RemoveId(g, sets, g[c].id)[..x] == sets[..x]
    decreases |sets|
  {
    var front, z := sets[..|sets| - 1], sets[|sets| - 1];
    assert sets == front + [z] && front[..x] == sets[..x];
    var r := RemoveId(g, front, g[c].id);
    if x == |sets| - 1 {
      RemoveIdIdle(g, front, c);
    } else {
      RemoveIdPrefix(g, front, c, x);
      assert (r + [z])[..x] == r[..x];
    }
  }

  lemma MergeKeepsPrefix<R>(P: Plan<R>, p: R, c: R, x: nat)
    requires Runnable(P) && Mergeable(P, p, c) && p in P.graph && x < |P.sets| && P.sets[x] == c
    ensures x <= |Merge(P, p, c).sets| && Merge(P, p, c).sets[..x] == P.sets[..x]
  {
    var g := MergedGraph(P, p, c);
    forall m | m in P.sets ensures m in g && (g[m].id == g[c].id <==> m == c) {
      MergedIds(P, p, c, m);
      MergedIds(P, p, c, c);
      assert DistinctIds(P, m, c);
    }
    RemoveIdPrefix(g, P.sets, c, x);
  }

  lemma TraceCons<R>(front: seq<Plan<R>>, P: Plan<R>)
    requires Trace(front) && |front| <= |P.sets| && front[|front| - 1] == TryMerge(P, P.sets[|front| - 1])
    ensures Trace(front + [P])
  {
    var tr := front + [P];
    forall i | 0 <= i < |tr| - 1 && Tried(i)
      ensures i < |tr[i + 1].sets| && tr[i] == TryMerge(tr[i + 1], tr[i + 1].sets[i])
    {
      if i < |front| - 1 {
        StepOfTrace(front, i);
      }
    }
  }

  lemma RunnableStep<R>(P: Plan<R>, x: nat)
    requires Runnable(P) && 0 < x <= |P.sets|
    ensures Runnable(TryMerge(P, P.sets[x - 1])) && x - 1 <= |TryMerge(P, P.sets[x - 1]).sets|
  {
    var c := P.sets[x - 1];
    if Guard(P, c) {
      var p := P.graph[c].parent.value;
      MergeKeepsRunnable(P, p, c);
      MergeKeepsPrefix(P, p, c, x - 1);
    }
  }

  /** A pass over a runnable plan can be followed step by step. */
  lemma {:induction false} PassTrace<R>(P: Plan<R>, x: nat) returns (tr: seq<Plan<R>>)
    requires Runnable(P) && x <= |P.sets|
    ensures Trace(tr) && |tr| == x + 1 && tr[x] == P
    decreases x
  {
    if x == 0 {
      tr := [P];
    } else {
      RunnableStep(P, x);
      var front := PassTrace(TryMerge(P, P.sets[x - 1]), x - 1);
      TraceCons(front, P);
      tr := front + [P];
    }
  }
}
