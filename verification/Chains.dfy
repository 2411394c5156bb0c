/** What the chaining pass does to a whole plan, stated on the original plan: which sets are merged,
    which set heads the chain of each node, and what every node looks like afterwards. */
module Chains {
  import opened Common
  import opened PlanGraph
  import opened ChainStep

  /** The sets that pass the guard in the plan as it was built. */
  function Fused<R(==)>(P: Plan<R>): set<R> {
    set n | n in P.sets && Guard(P, n)
  }

  /** Nothing is chained yet, as in every plan that was just built. */
  ghost predicate Fresh<R>(P: Plan<R>) {
    forall n :: n in P.graph ==> P.graph[n].chained.None?
  }

  /** `M` is a set of merges that the guard allows. */
  ghost predicate Merges<R>(P: Plan<R>, M: set<R>) {
    WellFormed(P) && AllFused(P, M)
  }

  ghost predicate AllFused<R>(P: Plan<R>, M: set<R>) {
    (M <= Fused(P)) == true
  }

  /** The node that runs `n` once the sets in `M` are merged into their parents. */
  ghost function Head<R>(P: Plan<R>, M: set<R>, n: R): (h: R)
    requires Merges(P, M)
    ensures h !in M
    ensures n in Ops(P) ==> h in Ops(P)
    ensures Rank(P.sets, h) <= Rank(P.sets, n)
    ensures n !in M ==> h == n
    decreases Rank(P.sets, n)
  {
    if n in M then
      assert n in Fused(P) && SetOk(P, n);
      Head(P, M, P.graph[n].parent.value)
    else n
  }

  ghost function HeadOf<R>(P: Plan<R>, M: set<R>, x: Option<R>): Option<R>
    requires Merges(P, M)
  {
    if x.Some? then Some(Head(P, M, x.value)) else None
  }

  /** The set that runs directly after `n` in the same chain. */
  ghost function Next<R>(P: Plan<R>, M: set<R>, n: R): (r: Option<R>)
    requires Merges(P, M) && n in Ops(P)
    ensures r.Some? ==> r.value in M && r.value in P.graph && P.graph[r.value].parent == Some(n)
    ensures r.Some? ==> P.graph[n].children == [r.value] && P.graph[n].sinks == []
    ensures r.Some? ==> Rank(P.sets, n) < Rank(P.sets, r.value)
  {
    var cs := P.graph[n].children;
    if |cs| == 1 && cs[0] in M then
      assert cs[0] in Fused(P) && SetOk(P, cs[0]) && EdgeOk(P, n, cs[0]);
      Some(cs[0])
    else None
  }

  lemma NextOfParent<R>(P: Plan<R>, M: set<R>, c: R)
    requires Merges(P, M) && c in M
    ensures c in P.graph && P.graph[c].parent.Some? && P.graph[c].parent.value in Ops(P)
    ensures Next(P, M, P.graph[c].parent.value) == Some(c)
  {
    assert c in Fused(P) && SetOk(P, c);
    FusedFacts(P, P.graph[c].parent.value, c);
  }

  /** The chain that starts at `n`. */
  ghost function Links<R>(P: Plan<R>, M: set<R>, n: R): (r: seq<R>)
    requires Merges(P, M) && n in Ops(P)
    ensures r != [] && r[0] == n
    ensures forall i :: 0 <= i < |r| ==> r[i] in Ops(P) && r[i] in P.graph
    ensures forall i :: 0 < i < |r| ==> r[i] in M
    decreases |P.sets| - Rank(P.sets, n)
  {
    var next := Next(P, M, n);
    if next.Some? then
      assert next.value in Fused(P);
      [n] + Links(P, M, next.value)
    else [n]
  }

  ghost function Last<R>(P: Plan<R>, M: set<R>, n: R): R
    requires Merges(P, M) && n in Ops(P)
  {
    var r := Links(P, M, n);
    r[|r| - 1]
  }

  function ChainName<R>(g: Graph<R>, links: seq<R>): string
    requires links != [] && forall i :: 0 <= i < |links| ==> links[i] in g
  {
    if |links| == 1 then g[links[0]].name
    else g[links[0]].name + " -> " + ChainName(g, links[1..])
  }

  function ChainBcvars<R>(g: Graph<R>, links: seq<R>): seq<R>
    requires forall i :: 0 <= i < |links| ==> links[i] in g
  {
    if links == [] then [] else g[links[0]].bcvars + ChainBcvars(g, links[1..])
  }

  /** A node once the sets in `M` are merged. */
  ghost function RewrittenNode<R>(P: Plan<R>, M: set<R>, n: R): Node<R>
    requires Merges(P, M) && n in P.graph
  {
    var d := P.graph[n];
    if n in Ops(P) then
      var links := Links(P, M, n);
      var last := P.graph[Last(P, M, n)];
      d.(parent := if n in M then d.parent else HeadOf(P, M, d.parent),
         other := if n in M then d.other else HeadOf(P, M, d.other),
         children := last.children,
         sinks := last.sinks,
         bcvars := ChainBcvars(P.graph, links),
         chained := Next(P, M, n),
         name := ChainName(P.graph, links),
         types := last.types)
    else if n in P.sinks then d.(parent := HeadOf(P, M, d.parent))
    else if n in P.broadcast then d.(parent := HeadOf(P, M, d.parent), other := HeadOf(P, M, d.other))
    else d
  }

  ghost function Survivors<R>(sets: seq<R>, M: set<R>): seq<R> {
    if sets == [] then [] else
    var rest := Survivors(sets[..|sets| - 1], M);
    if sets[|sets| - 1] in M then rest else rest + [sets[|sets| - 1]]
  }

  ghost function RewrittenGraph<R>(P: Plan<R>, M: set<R>): (g: Graph<R>)
    requires Merges(P, M)
    ensures g.Keys == P.graph.Keys
  {
    map n | n in P.graph :: RewrittenNode(P, M, n)
  }

  /** The whole plan once the sets in `M` are merged. */
  ghost function Rewritten<R>(P: Plan<R>, M: set<R>): Plan<R>
    requires Merges(P, M)
  {
    Plan(RewrittenGraph(P, M), P.sources, Survivors(P.sets, M), P.sinks, P.broadcast)
  }

  // ---------------------------------------------------------------------------------------------
  // One more merge
  // ---------------------------------------------------------------------------------------------

  /** `c` can be merged after `M`: the pass reaches parents after their children. */
  ghost predicate Addable<R>(P: Plan<R>, M: set<R>, c: R) {
    && Merges(P, M) && Merges(P, M + {c}) && c in Fused(P) && c !in M
    && P.graph[c].parent.Some? && P.graph[c].parent.value !in M
  }

  lemma {:induction false} HeadAdd<R>(P: Plan<R>, M: set<R>, c: R, n: R)
    requires Addable(P, M, c)
    ensures Head(P, M + {c}, n) == if Head(P, M, n) == c then P.graph[c].parent.value else Head(P, M, n)
    decreases Rank(P.sets, n)
  {
    if n in M {
      assert n in Fused(P) && SetOk(P, n);
      HeadAdd(P, M, c, P.graph[n].parent.value);
    } else if n == c {
      assert SetOk(P, c);
    }
  }

  lemma HeadOfAdd<R>(P: Plan<R>, M: set<R>, c: R, x: Option<R>)
    requires Addable(P, M, c)
    ensures HeadOf(P, M + {c}, x) == Subst(HeadOf(P, M, x), c, P.graph[c].parent.value)
  {
    if x.Some? {
      HeadAdd(P, M, c, x.value);
    }
  }

  lemma {:induction false} LinksAddElsewhere<R>(P: Plan<R>, M: set<R>, c: R, n: R)
    requires Addable(P, M, c) && n in Ops(P) && n != P.graph[c].parent.value
    ensures Links(P, M + {c}, n) == Links(P, M, n)
    ensures Next(P, M + {c}, n) == Next(P, M, n)
    decreases |P.sets| - Rank(P.sets, n)
  {
    var next := Next(P, M, n);
    assert Next(P, M + {c}, n) == next;
    if next.Some? {
      LinksAddElsewhere(P, M, c, next.value);
    }
  }

  lemma LinksAddParent<R>(P: Plan<R>, M: set<R>, c: R)
    requires Addable(P, M, c)
    ensures c in Ops(P) && P.graph[c].parent.value in Ops(P)
    ensures var p := P.graph[c].parent.value;
            && Next(P, M, p) == None && Next(P, M + {c}, p) == Some(c)
            && Links(P, M, p) == [p]
            && Links(P, M + {c}, p) == [p] + Links(P, M, c)
  {
    var p := P.graph[c].parent.value;
    assert SetOk(P, c);
    FusedFacts(P, p, c);
    NextOfParent(P, M + {c}, c);
    LinksAddElsewhere(P, M, c, c);
  }

  lemma {:induction false} SurvivorsMembers<R>(sets: seq<R>, M: set<R>, n: R)
    ensures n in Survivors(sets, M) <==> n in sets && n !in M
  {
    if sets != [] {
      assert sets == sets[..|sets| - 1] + [sets[|sets| - 1]];
      SurvivorsMembers(sets[..|sets| - 1], M, n);
    }
  }

  lemma {:induction false} SurvivorsPrefix<R>(sets: seq<R>, M: set<R>, x: nat)
    requires x <= |sets| && forall i :: 0 <= i < x ==> sets[i] !in M
    ensures x <= |Survivors(sets, M)| && Survivors(sets, M)[..x] == sets[..x]
  {
    if x == |sets| {
      if x > 0 {
        SurvivorsPrefix(sets[..x - 1], M, x - 1);
        assert sets[..x - 1][..x - 1] == sets[..x - 1];
        assert sets[..x] == sets[..x - 1] + [sets[x - 1]];
        var r := Survivors(sets[..x - 1], M);
        SurvivorsAll(sets[..x - 1], M);
      }
    } else {
      SurvivorsPrefix(sets[..|sets| - 1], M, x);
      assert sets[..|sets| - 1][..x] == sets[..x];
    }
  }

  lemma {:induction false} SurvivorsAll<R>(sets: seq<R>, M: set<R>)
    requires forall i :: 0 <= i < |sets| ==> sets[i] !in M
    ensures Survivors(sets, M) == sets
  {
    if sets != [] {
      SurvivorsAll(sets[..|sets| - 1], M);
    }
  }

  lemma {:induction false} SurvivorsAdd<R>(g: Graph<R>, sets: seq<R>, M: set<R>, c: R)
    requires c in g && forall n :: n in sets ==> n in g && (g[n].id == g[c].id <==> n == c)
    ensures RemoveId(g, Survivors(sets, M), g[c].id) == Survivors(sets, M + {c})
  {
    if sets != [] {
      var front, z := sets[..|sets| - 1], sets[|sets| - 1];
      assert sets == front + [z];
      SurvivorsAdd(g, front, M, c);
      if z !in M {
        var s := Survivors(front, M);
        assert (s + [z])[..|s|] == s;
      }
    }
  }

  /** The chain of the parent, with and without `c`. */
  lemma ChainsAddParent<R>(P: Plan<R>, M: set<R>, c: R, p: R)
    requires Addable(P, M, c) && P.graph[c].parent == Some(p) && p in P.graph && p in Ops(P) && c in Ops(P)
    requires Links(P, M, p) == [p] && Links(P, M + {c}, p) == [p] + Links(P, M, c)
    ensures Last(P, M, p) == p && Last(P, M + {c}, p) == Last(P, M, c)
    ensures ChainName(P.graph, Links(P, M + {c}, p)) == P.graph[p].name + " -> " + ChainName(P.graph, Links(P, M, c))
    ensures ChainBcvars(P.graph, Links(P, M, p)) == P.graph[p].bcvars
    ensures ChainBcvars(P.graph, Links(P, M + {c}, p)) == P.graph[p].bcvars + ChainBcvars(P.graph, Links(P, M, c))
  {
    var rest := Links(P, M, c);
    assert ([p] + rest)[1..] == rest;
    assert ChainBcvars(P.graph, [p]) == P.graph[p].bcvars;
  }

  /** The inputs of the parent do not run in the chain of `c`. */
  lemma InputsOfParent<R>(P: Plan<R>, M: set<R>, c: R, p: R)
    requires Addable(P, M, c) && P.graph[c].parent == Some(p) && p in P.sets && p in P.graph
    requires Rank(P.sets, p) < Rank(P.sets, c)
    ensures HeadOf(P, M + {c}, P.graph[p].parent) == HeadOf(P, M, P.graph[p].parent)
    ensures HeadOf(P, M + {c}, P.graph[p].other) == HeadOf(P, M, P.graph[p].other)
  {
    assert SetOk(P, p);
    HeadOfAdd(P, M, c, P.graph[p].parent);
    HeadOfAdd(P, M, c, P.graph[p].other);
  }

  lemma RewrittenParent<R>(P: Plan<R>, M: set<R>, c: R)
    requires Addable(P, M, c) && Fresh(P)
    ensures var p := P.graph[c].parent.value;
            p in P.graph && p in P.sets &&
            var d, e := RewrittenNode(P, M, p), RewrittenNode(P, M, c);
            RewrittenNode(P, M + {c}, p) ==
              d.(chained := Some(c), name := d.name + " -> " + e.name, types := e.types,
                 children := e.children, sinks := e.sinks, bcvars := d.bcvars + e.bcvars)
  {
    var p := P.graph[c].parent.value;
    assert SetOk(P, c);
    FusedFacts(P, p, c);
    LinksAddParent(P, M, c);
    ChainsAddParent(P, M, c, p);
    InputsOfParent(P, M, c, p);
  }

  lemma RewrittenOp<R>(P: Plan<R>, M: set<R>, c: R, n: R)
    requires Addable(P, M, c) && n in Ops(P) && n in P.graph && n != P.graph[c].parent.value && n != c
    ensures var p, d := P.graph[c].parent.value, RewrittenNode(P, M, n);
            RewrittenNode(P, M + {c}, n) ==
              if n in P.sources || n in M then d
              else d.(parent := Subst(d.parent, c, p), other := Subst(d.other, c, p))
  {
    LinksAddElsewhere(P, M, c, n);
    if n in P.sources {
      assert SourceOk(P, n);
    } else {
      HeadOfAdd(P, M, c, P.graph[n].parent);
      HeadOfAdd(P, M, c, P.graph[n].other);
    }
  }

  lemma RewrittenElsewhere<R>(P: Plan<R>, M: set<R>, c: R, n: R)
    requires Addable(P, M, c) && n in P.graph && n !in Ops(P)
    ensures var p, d := P.graph[c].parent.value, RewrittenNode(P, M, n);
            RewrittenNode(P, M + {c}, n) ==
              if n in P.sinks then d.(parent := Subst(d.parent, c, p))
              else if n in P.broadcast then d.(parent := Subst(d.parent, c, p), other := Subst(d.other, c, p))
              else d
  {
    HeadOfAdd(P, M, c, P.graph[n].parent);
    HeadOfAdd(P, M, c, P.graph[n].other);
  }

  lemma RewrittenMergedChild<R>(P: Plan<R>, M: set<R>, c: R)
    requires Addable(P, M, c)
    ensures RewrittenNode(P, M + {c}, c) == RewrittenNode(P, M, c)
  {
    assert SetOk(P, c);
    LinksAddElsewhere(P, M, c, c);
  }

  lemma RewrittenStepAt<R>(P: Plan<R>, M: set<R>, c: R, Q: Plan<R>, p: R, n: R)
    requires Addable(P, M, c) && Fresh(P) && n in P.graph
    requires Q == Rewritten(P, M) && P.graph[c].parent == Some(p) && p in P.graph
    ensures RewrittenGraph(P, M + {c})[n] == RedirectedNodes(Q, p, c)[n]
  {
    RewrittenParent(P, M, c);
    SurvivorsMembers(P.sets, M, n);
    if n == c {
      RewrittenMergedChild(P, M, c);
    } else if n !in Ops(P) {
      RewrittenElsewhere(P, M, c, n);
    } else if n != p {
      RewrittenOp(P, M, c, n);
    }
  }

  /** Merging never changes what a node is, only its edges. */
  lemma RewrittenKeeps<R>(P: Plan<R>, M: set<R>, n: R)
    requires Merges(P, M) && n in P.graph
    ensures var d, e := P.graph[n], RewrittenNode(P, M, n);
            e.id == d.id && e.identifier == d.identifier && e.operator == d.operator
  {
  }

  lemma RewrittenStepGraph<R>(P: Plan<R>, M: set<R>, c: R, Q: Plan<R>, p: R)
    requires Addable(P, M, c) && Fresh(P)
    requires Q == Rewritten(P, M) && P.graph[c].parent == Some(p) && p in P.graph
    ensures RewrittenGraph(P, M + {c}) == RedirectedNodes(Q, p, c)
  {
    forall n | n in P.graph
      ensures RewrittenGraph(P, M + {c})[n] == RedirectedNodes(Q, p, c)[n]
    {
      RewrittenStepAt(P, M, c, Q, p, n);
    }
    SameGraph(RewrittenGraph(P, M + {c}), RedirectedNodes(Q, p, c));
  }

  lemma SurvivorsStep<R>(P: Plan<R>, M: set<R>, c: R)
    requires Addable(P, M, c)
    ensures var g := RewrittenGraph(P, M + {c});
            c in g && RemoveId(g, Survivors(P.sets, M), g[c].id) == Survivors(P.sets, M + {c})
  {
    var g := RewrittenGraph(P, M + {c});
    assert c in P.sets && c in Ops(P);
    forall n | n in P.sets
      ensures n in g && (g[n].id == g[c].id <==> n == c)
    {
      assert DistinctIds(P, n, c);
      RewrittenKeeps(P, M + {c}, n);
      RewrittenKeeps(P, M + {c}, c);
    }
    SurvivorsAdd(g, P.sets, M, c);
  }

  /** Merging one more set turns the rewriting for `M` into the rewriting for `M` and that set. */
  lemma RewrittenStep<R>(P: Plan<R>, M: set<R>, c: R, Q: Plan<R>, p: R)
    requires Addable(P, M, c) && Fresh(P)
    requires Q == Rewritten(P, M) && P.graph[c].parent == Some(p) && p in P.graph
    requires MergedGraph(Q, p, c) == RedirectedNodes(Q, p, c)
    ensures Merge(Q, p, c) == Rewritten(P, M + {c})
  {
    RewrittenStepGraph(P, M, c, Q, p);
    SurvivorsStep(P, M, c);
    MergeIs(Q, p, c, RewrittenGraph(P, M + {c}), Survivors(P.sets, M + {c}));
  }

  // ---------------------------------------------------------------------------------------------
  // The whole pass
  // ---------------------------------------------------------------------------------------------

  /** The merges among the sets after position `x`. */
  ghost function FusedAfter<R>(P: Plan<R>, x: nat): set<R> {
    set n | n in Fused(P) && x < Rank(P.sets, n)
  }

  lemma RankAt<R>(sets: seq<R>, i: nat)
    requires i < |sets| && NoDuplicates(sets)
    ensures Rank(sets, sets[i]) == i + 1
  {
    var r := Rank(sets, sets[i]);
    assert sets[r - 1] == sets[i];
  }

  /** Merging later sets does not change the outcome of the guard. */
  lemma GuardStable<R>(P: Plan<R>, M: set<R>, c: R)
    requires Merges(P, M) && c in P.sets && c !in M && c in P.graph
    requires forall m :: m in M ==> Rank(P.sets, c) < Rank(P.sets, m)
    ensures Guard(Rewritten(P, M), c) <==> Guard(P, c)
    ensures Guard(P, c) ==> Addable(P, M, c) && Rewritten(P, M).graph[c].parent == P.graph[c].parent
  {
    assert SetOk(P, c);
    var q := P.graph[c].parent.value;
    assert q !in M;
    assert EdgeOk(P, q, c);
    if Chainable(P.graph[c].identifier) {
      assert c in P.graph[q].children;
      assert Next(P, M, q) == None;
      assert Links(P, M, q) == [q];
      assert ChainBcvars(P.graph, [q]) == P.graph[q].bcvars;
    }
  }

  lemma FusedAfterStep<R>(P: Plan<R>, x: nat)
    requires WellFormed(P) && 0 < x <= |P.sets|
    ensures var c, M := P.sets[x - 1], FusedAfter(P, x);
            && c !in M && Rank(P.sets, c) == x
            && FusedAfter(P, x - 1) == (if Guard(P, c) then M + {c} else M)
  {
    var c, M := P.sets[x - 1], FusedAfter(P, x);
    RankAt(P.sets, x - 1);
    forall n | n in Fused(P) && x - 1 < Rank(P.sets, n) ensures n in M || n == c {
      if Rank(P.sets, n) == x {
        assert P.sets[x - 1] == n;
      }
    }
  }

  lemma SurvivorsAt<R>(P: Plan<R>, x: nat)
    requires NoDuplicates(P.sets) && 0 < x <= |P.sets|
    ensures var s := Survivors(P.sets, FusedAfter(P, x)); x <= |s| && s[x - 1] == P.sets[x - 1]
  {
    var s, M := P.sets, FusedAfter(P, x);
    forall i | 0 <= i < x ensures s[i] !in M {
      RankAt(s, i);
    }
    SurvivorsPrefix(s, M, x);
    assert Survivors(s, M)[..x][x - 1] == s[..x][x - 1];
  }

  /** The plan after the sets at positions `x` and above were tried. */
  ghost function After<R>(P: Plan<R>, x: nat): Plan<R>
    requires WellFormed(P)
  {
    Rewritten(P, FusedAfter(P, x))
  }

  /** One iteration of the pass. */
  lemma PassStep<R>(P: Plan<R>, i: nat, c: R, Q: Plan<R>)
    requires WellFormed(P) && Fresh(P) && i < |P.sets|
    requires Q == After(P, i + 1) && WellFormed(Q) && c == P.sets[i]
    ensures i < |Q.sets| && Q.sets[i] == c && c in Q.graph
    ensures Guard(Q, c) <==> Guard(P, c)
    ensures Guard(Q, c) ==> Mergeable(Q, Q.graph[c].parent.value, c)
    ensures TryMerge(Q, c) == After(P, i)
    ensures WellFormed(After(P, i))
  {
    var M := FusedAfter(P, i + 1);
    FusedAfterStep(P, i + 1);
    SurvivorsAt(P, i + 1);
    assert c in Ops(P);
    GuardStable(P, M, c);
    if Guard(P, c) {
      var p := P.graph[c].parent.value;
      assert Mergeable(Q, p, c);
      MergeRedirects(Q, p, c);
      RewrittenStep(P, M, c, Q, p);
      MergeKeepsWellFormed(Q, p, c);
    }
  }

  lemma RewrittenNothing<R>(P: Plan<R>)
    requires WellFormed(P) && Fresh(P)
    ensures Rewritten(P, {}) == P
  {
    forall n | n in P.graph
      ensures RewrittenNode(P, {}, n) == P.graph[n]
    {
      if n in Ops(P) {
        assert Links(P, {}, n) == [n];
        assert ChainBcvars(P.graph, [n]) == P.graph[n].bcvars;
      }
    }
    assert Rewritten(P, {}).graph == P.graph;
    SurvivorsAll(P.sets, {});
  }

  lemma AfterAll<R>(P: Plan<R>)
    requires WellFormed(P) && Fresh(P)
    ensures After(P, |P.sets|) == P
  {
    assert FusedAfter(P, |P.sets|) == {};
    RewrittenNothing(P);
  }

  /** What holds when the set at position `i` is tried next: it is still a set, and the guard says of it what
      it said in the plan as built. If it passes, nothing is chained to its parent yet. */
  ghost predicate PassPoint<R>(P: Plan<R>, A: Plan<R>, i: nat)
    requires i < |P.sets|
  {
    PassPointOk(P, A, i) == true  // one fact
  }

  ghost predicate PassPointOk<R>(P: Plan<R>, A: Plan<R>, i: nat)
    requires i < |P.sets|
  {
    && i < |A.sets| && A.sets[i] == P.sets[i]
    && var c := P.sets[i];
       && (Guard(A, c) <==> Guard(P, c))
       && (Guard(A, c) ==> A.graph[A.graph[c].parent.value].chained == None)
  }

  lemma AtPassPoint<R>(P: Plan<R>, i: nat, c: R, Q: Plan<R>)
    requires WellFormed(P) && Fresh(P) && i < |P.sets|
    requires Q == After(P, i + 1) && WellFormed(Q) && c == P.sets[i]
    ensures PassPoint(P, Q, i)
  {
    PassStep(P, i, c, Q);
    if Guard(Q, c) {
      FusedAfterStep(P, i + 1);
      assert c in Ops(P);
      GuardStable(P, FusedAfter(P, i + 1), c);
      LinksAddParent(P, FusedAfter(P, i + 1), c);
    }
  }

  /** The step from the plan `A` to the plan `B`, if `A` is well formed. */
  ghost predicate StepOk<R>(P: Plan<R>, A: Plan<R>, B: Plan<R>, i: nat)
    requires i < |P.sets|
  {
    (WellFormed(A) ==> WellFormed(B) && PassPoint(P, A, i) && B == TryMerge(A, P.sets[i])) == true
  }

  lemma AfterStep<R>(P: Plan<R>, A: Plan<R>, B: Plan<R>, i: nat)
    requires WellFormed(P) && Fresh(P) && i < |P.sets| && A == After(P, i + 1) && B == After(P, i)
    ensures StepOk(P, A, B, i)
  {
    if WellFormed(A) {
      PassStep(P, i, P.sets[i], A);
      AtPassPoint(P, i, P.sets[i], A);
    }
  }

  ghost predicate AllStepsOk<R>(P: Plan<R>, tr: seq<Plan<R>>) {
    && |tr| == |P.sets| + 1
    && forall i {:trigger Tried(i)} :: 0 <= i < |P.sets| && Tried(i) ==> StepOk(P, tr[i + 1], tr[i], i)
  }

  /** The plans that the pass goes through, the original one last. */
  lemma AftersOf<R>(P: Plan<R>) returns (tr: seq<Plan<R>>)
    requires WellFormed(P) && Fresh(P)
    ensures AllStepsOk(P, tr) && tr[|P.sets|] == P && tr[0] == Rewritten(P, Fused(P))
  {
    tr := seq(|P.sets| + 1, i requires 0 <= i => After(P, i));
    AfterAll(P);
    assert FusedAfter(P, 0) == Fused(P);
    AftersAreOk(P, tr);
  }

  lemma AftersAreOk<R>(P: Plan<R>, tr: seq<Plan<R>>)
    requires WellFormed(P) && Fresh(P) && |tr| == |P.sets| + 1 && forall i :: 0 <= i < |tr| ==> tr[i] == After(P, i)
    ensures AllStepsOk(P, tr)
  {
    forall i | 0 <= i < |P.sets| && Tried(i) ensures StepOk(P, tr[i + 1], tr[i], i) {
      AfterStep(P, tr[i + 1], tr[i], i);
    }
  }

  lemma {:induction false} WellFormedAlong<R>(P: Plan<R>, tr: seq<Plan<R>>, i: nat)
    requires AllStepsOk(P, tr) && WellFormed(tr[|P.sets|]) && i <= |P.sets|
    ensures WellFormed(tr[i])
    decreases |P.sets| - i
  {
    if i == |P.sets| {
    } else {
      WellFormedAlong(P, tr, i + 1);
      assert Tried(i);
      assert StepOk(P, tr[i + 1], tr[i], i);
    }
  }

  lemma StepsAreTrace<R>(P: Plan<R>, tr: seq<Plan<R>>)
    requires AllStepsOk(P, tr) && WellFormed(tr[|P.sets|])
    ensures Trace(tr)
    ensures forall i {:trigger Tried(i)} :: 0 <= i < |P.sets| && Tried(i) ==>
              WellFormed(tr[i + 1]) && PassPoint(P, tr[i + 1], i)
  {
    forall i | 0 <= i < |P.sets| && Tried(i)
      ensures WellFormed(tr[i + 1]) && PassPoint(P, tr[i + 1], i)
      ensures i < |tr[i + 1].sets| && tr[i] == TryMerge(tr[i + 1], tr[i + 1].sets[i])
    {
      WellFormedAlong(P, tr, i + 1);
      assert StepOk(P, tr[i + 1], tr[i], i);
    }
  }

  /** A pass over a well formed plan, step by step. */
  lemma FollowPass<R>(P: Plan<R>) returns (tr: seq<Plan<R>>)
    requires WellFormed(P) && Fresh(P)
    ensures Trace(tr) && |tr| == |P.sets| + 1 && tr[|P.sets|] == P && tr[0] == Rewritten(P, Fused(P))
    ensures WellFormed(tr[0])
    ensures forall i {:trigger Tried(i)} :: 0 <= i < |P.sets| && Tried(i) ==>
              WellFormed(tr[i + 1]) && PassPoint(P, tr[i + 1], i)
  {
    tr := AftersOf(P);
    StepsAreTrace(P, tr);
    WellFormedAlong(P, tr, 0);
  }

  /** The pass merges exactly the sets that pass the guard in the plan as built, and its result is
      well formed again. */
  lemma PassIsRewritten<R>(P: Plan<R>)
    requires WellFormed(P) && Fresh(P)
    ensures Pass(P) == Rewritten(P, Fused(P))
    ensures WellFormed(Pass(P))
  {
    var tr := FollowPass(P);
    TraceEndsInPass(tr, |P.sets|);
  }
}
