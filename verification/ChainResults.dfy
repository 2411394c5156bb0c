/** Consequences of the chaining pass for the plan as a whole: no operation is lost or doubled, and
    a second pass finds nothing to do. */
module ChainResults {
  import opened Common
  import opened PlanGraph
  import opened ChainStep
  import opened Chains

  // ---------------------------------------------------------------------------------------------
  // No operation is lost
  // ---------------------------------------------------------------------------------------------

  /** The links that run before `n` in its chain. */
  ghost function Before<R>(P: Plan<R>, M: set<R>, n: R): (r: seq<R>)
    requires Merges(P, M) && n in Ops(P)
    decreases Rank(P.sets, n)
  {
    if n in M then
      assert n in Fused(P) && SetOk(P, n);
      Before(P, M, P.graph[n].parent.value) + [P.graph[n].parent.value]
    else []
  }

  lemma LinksOfParent<R>(P: Plan<R>, M: set<R>, n: R, q: R)
    requires Merges(P, M) && q in Ops(P) && n in Ops(P) && Next(P, M, q) == Some(n)
    ensures Links(P, M, q) == [q] + Links(P, M, n)
  {
  }

  lemma {:induction false} ChainSplit<R>(P: Plan<R>, M: set<R>, n: R)
    requires Merges(P, M) && n in Ops(P)
    ensures Links(P, M, Head(P, M, n)) == Before(P, M, n) + Links(P, M, n)
    decreases Rank(P.sets, n)
  {
    if n in M {
      NextOfParent(P, M, n);
      var q := P.graph[n].parent.value;
      assert Rank(P.sets, q) < Rank(P.sets, n);
      ChainSplit(P, M, q);
      LinksOfParent(P, M, n, q);
      Associate(Before(P, M, q), [q], Links(P, M, n));
    } else {
      assert [] + Links(P, M, n) == Links(P, M, n);
    }
  }

  /** A node that no set is merged into ends its chain. */
  lemma LastOfHead<R>(P: Plan<R>, M: set<R>, n: R)
    requires Merges(P, M) && n in Ops(P) && Next(P, M, n).None?
    ensures Last(P, M, Head(P, M, n)) == n
  {
    ChainSplit(P, M, n);
  }

  /** The parent of a set that is not merged ends its chain, and so does a second input. */
  lemma InputsAreLast<R>(P: Plan<R>, M: set<R>, n: R, q: R)
    requires Merges(P, M) && n in P.sets && n !in M && n in P.graph && q in Ops(P)
    requires P.graph[n].parent == Some(q) || P.graph[n].other == Some(q)
    ensures Next(P, M, q).None?
  {
    assert EdgeOk(P, q, n);
    assert n in P.graph[q].children;
  }

  lemma SinkInputsAreLast<R>(P: Plan<R>, M: set<R>, s: R)
    requires Merges(P, M) && s in P.sinks && s in P.graph
    ensures P.graph[s].parent.Some? && P.graph[s].parent.value in Ops(P)
    ensures Next(P, M, P.graph[s].parent.value).None?
  {
  }

  /** Consecutive links are parent and merged child, in the order of the sets. */
  lemma {:induction false} LinkParent<R>(P: Plan<R>, M: set<R>, n: R, i: nat)
    requires Merges(P, M) && n in Ops(P) && i + 1 < |Links(P, M, n)|
    ensures var r := Links(P, M, n); r[i + 1] in M && P.graph[r[i + 1]].parent == Some(r[i])
    decreases i
  {
    var c := Next(P, M, n).value;
    assert c in Fused(P) && c in Ops(P);
    if i > 0 {
      LinkParent(P, M, c, i - 1);
    }
  }

  lemma {:induction false} LinkRanks<R>(P: Plan<R>, M: set<R>, n: R, i: nat)
    requires Merges(P, M) && n in Ops(P) && 0 < i < |Links(P, M, n)|
    ensures Rank(P.sets, n) < Rank(P.sets, Links(P, M, n)[i])
    decreases i
  {
    var c := Next(P, M, n).value;
    assert c in Fused(P) && c in Ops(P);
    if i > 1 {
      LinkRanks(P, M, c, i - 1);
    }
  }

  lemma {:induction false} HeadOfLink<R>(P: Plan<R>, M: set<R>, h: R, i: nat)
    requires Merges(P, M) && h in Ops(P) && h !in M && i < |Links(P, M, h)|
    ensures Head(P, M, Links(P, M, h)[i]) == h
    decreases i
  {
    if i > 0 {
      LinkParent(P, M, h, i - 1);
      HeadOfLink(P, M, h, i - 1);
    }
  }

  /** Every node runs in the chain of exactly one surviving node. */
  lemma ExactlyOneChain<R>(P: Plan<R>, n: R, h: R)
    requires WellFormed(P) && n in Ops(P) && h in Ops(P) && h !in Fused(P)
    ensures n in Links(P, Fused(P), h) <==> h == Head(P, Fused(P), n)
  {
    var M := Fused(P);
    if n in Links(P, M, h) {
      var i :| 0 <= i < |Links(P, M, h)| && Links(P, M, h)[i] == n;
      HeadOfLink(P, M, h, i);
    }
    if h == Head(P, M, n) {
      ChainSplit(P, M, n);
      assert (Before(P, M, n) + Links(P, M, n))[|Before(P, M, n)|] == n;
    }
  }

  /** All chains of the given heads, one after the other. */
  ghost function AllLinks<R>(P: Plan<R>, M: set<R>, heads: seq<R>): seq<R>
    requires Merges(P, M) && forall i :: 0 <= i < |heads| ==> heads[i] in Ops(P)
  {
    if heads == [] then [] else AllLinks(P, M, heads[..|heads| - 1]) + Links(P, M, heads[|heads| - 1])
  }

  lemma {:induction false} AllLinksCount<R>(P: Plan<R>, M: set<R>, heads: seq<R>, n: R)
    requires Merges(P, M) && NoDuplicates(heads) && n in Ops(P)
    requires forall i :: 0 <= i < |heads| ==> heads[i] in Ops(P) && heads[i] !in M
    ensures multiset(AllLinks(P, M, heads))[n] == One(Head(P, M, n) in heads)
  {
    if heads != [] {
      var front, h := heads[..|heads| - 1], heads[|heads| - 1];
      assert heads == front + [h];
      AllLinksCount(P, M, front, n);
      LinksCount(P, M, h, n);
    }
  }

  lemma LinksCount<R>(P: Plan<R>, M: set<R>, h: R, n: R)
    requires Merges(P, M) && h in Ops(P) && h !in M && n in Ops(P)
    ensures multiset(Links(P, M, h))[n] == One(Head(P, M, n) == h)
  {
    var r := Links(P, M, h);
    LinksDistinct(P, M, h);
    CountsToMultiset(r);
    if Head(P, M, n) == h {
      ChainSplit(P, M, n);
      assert r[|Before(P, M, n)|] == n;
    } else if n in r {
      var i :| 0 <= i < |r| && r[i] == n;
      HeadOfLink(P, M, h, i);
    }
  }

  lemma {:induction false} LinksDistinct<R>(P: Plan<R>, M: set<R>, n: R)
    requires Merges(P, M) && n in Ops(P)
    ensures NoDuplicates(Links(P, M, n))
    decreases |P.sets| - Rank(P.sets, n)
  {
    var next := Next(P, M, n);
    if next.Some? {
      assert next.value in Fused(P);
      LinksDistinct(P, M, next.value);
      forall j | 0 < j < |Links(P, M, n)| ensures Links(P, M, n)[j] != n {
        LinkRanks(P, M, n, j);
      }
    }
  }

  lemma {:induction false} SurvivorsDistinct<R>(sets: seq<R>, M: set<R>)
    requires NoDuplicates(sets)
    ensures NoDuplicates(Survivors(sets, M))
  {
    if sets != [] {
      assert sets == sets[..|sets| - 1] + [sets[|sets| - 1]];
      SurvivorsDistinct(sets[..|sets| - 1], M);
      SurvivorsMembers(sets[..|sets| - 1], M, sets[|sets| - 1]);
    }
  }

  lemma {:induction false} CountsToMultiset<R>(s: seq<R>)
    requires NoDuplicates(s)
    ensures forall n :: n in s ==> multiset(s)[n] == 1
  {
    if s != [] {
      assert s == s[..|s| - 1] + [s[|s| - 1]];
      CountsToMultiset(s[..|s| - 1]);
    }
  }

  lemma AllLinksOfSurvivors<R>(P: Plan<R>, M: set<R>, heads: seq<R>)
    requires Merges(P, M) && heads == Survivors(P.sets, M)
    ensures forall i :: 0 <= i < |heads| ==> heads[i] in Ops(P)
    ensures multiset(AllLinks(P, M, heads)) == multiset(P.sets)
  {
    forall i | 0 <= i < |heads| ensures heads[i] in P.sets && heads[i] !in M {
      SurvivorsMembers(P.sets, M, heads[i]);
    }
    SurvivorsDistinct(P.sets, M);
    CountsToMultiset(P.sets);
    var all := AllLinks(P, M, heads);
    AllLinksAreSets(P, M, heads);
    forall n | n in P.sets
      ensures multiset(all)[n] == multiset(P.sets)[n]
    {
      assert n in Ops(P);
      AllLinksCount(P, M, heads, n);
      HeadIsSet(P, M, n);
      SurvivorsMembers(P.sets, M, Head(P, M, n));
    }
    forall n | n !in P.sets ensures multiset(all)[n] == 0 {
      assert n !in all;
    }
  }

  /** The surviving chains together hold every original set exactly once. */
  lemma NoOperatorLost<R>(P: Plan<R>)
    requires WellFormed(P) && Fresh(P)
    ensures forall i :: 0 <= i < |Pass(P).sets| ==> Pass(P).sets[i] in Ops(P)
    ensures multiset(AllLinks(P, Fused(P), Pass(P).sets)) == multiset(P.sets)
    ensures |AllLinks(P, Fused(P), Pass(P).sets)| == |P.sets|
  {
    PassIsRewritten(P);
    AllLinksOfSurvivors(P, Fused(P), Pass(P).sets);
    assert |multiset(AllLinks(P, Fused(P), Pass(P).sets))| == |multiset(P.sets)|;
  }

  lemma {:induction false} AllLinksAreSets<R>(P: Plan<R>, M: set<R>, heads: seq<R>)
    requires Merges(P, M) && forall i :: 0 <= i < |heads| ==> heads[i] in P.sets && heads[i] in Ops(P)
    ensures forall n :: n in AllLinks(P, M, heads) ==> n in P.sets
  {
    if heads != [] {
      AllLinksAreSets(P, M, heads[..|heads| - 1]);
      assert heads[|heads| - 1] in P.sets;
      forall n | n in Links(P, M, heads[|heads| - 1]) ensures n in P.sets {
      }
    }
  }

  /** Sources are never the head of a set. */
  lemma {:induction false} HeadIsSet<R>(P: Plan<R>, M: set<R>, n: R)
    requires Merges(P, M) && n in P.sets
    ensures Head(P, M, n) in P.sets
    decreases Rank(P.sets, n)
  {
    if n in M {
      assert n in Fused(P) && SetOk(P, n);
      FusedFacts(P, P.graph[n].parent.value, n);
      HeadIsSet(P, M, P.graph[n].parent.value);
    }
  }

  // ---------------------------------------------------------------------------------------------
  // Chains of the optimised plan
  // ---------------------------------------------------------------------------------------------

  /** The links that run for node `n`: `n` and what its chaining references lead to. */
  ghost function ChainFrom<R>(g: Graph<R>, n: R): (links: seq<R>)
    ensures links != [] ==> links[0] == n
    decreases g.Keys
  {
    if n !in g then []
    else [n] + (if g[n].chained.Some? then ChainFrom(g - {n}, g[n].chained.value) else [])
  }

  lemma {:induction false} ChainFromIsLinks<R>(P: Plan<R>, M: set<R>, n: R, g: Graph<R>)
    requires Merges(P, M) && n in Ops(P)
    requires forall i :: 0 <= i < |Links(P, M, n)| ==>
      Links(P, M, n)[i] in g && g[Links(P, M, n)[i]].chained == Next(P, M, Links(P, M, n)[i])
    ensures ChainFrom(g, n) == Links(P, M, n)
    decreases |P.sets| - Rank(P.sets, n)
  {
    var links, next := Links(P, M, n), Next(P, M, n);
    assert links[0] in g;
    if next.Some? {
      var c := next.value;
      assert c in Fused(P) && c in Ops(P);
      assert links == [n] + Links(P, M, c);
      forall i | 0 <= i < |Links(P, M, c)|
        ensures Links(P, M, c)[i] in g - {n}
        ensures (g - {n})[Links(P, M, c)[i]].chained == Next(P, M, Links(P, M, c)[i])
      {
        assert links[i + 1] == Links(P, M, c)[i];
        LinkRanks(P, M, n, i + 1);
      }
      ChainFromIsLinks(P, M, c, g - {n});
    }
  }

  lemma OptimisedChain<R>(P: Plan<R>, M: set<R>, n: R)
    requires Merges(P, M) && n in Ops(P)
    ensures ChainFrom(Rewritten(P, M).graph, n) == Links(P, M, n)
  {
    ChainFromIsLinks(P, M, n, Rewritten(P, M).graph);
  }

  lemma FreshChain<R>(P: Plan<R>, n: R)
    requires Fresh(P) && n in P.graph
    ensures ChainFrom(P.graph, n) == [n]
  {
  }

  // ---------------------------------------------------------------------------------------------
  // One pass is enough
  // ---------------------------------------------------------------------------------------------

  /** A set that passes the guard in the rewritten plan passed it in the original one. */
  lemma GuardPullsBack<R>(P: Plan<R>, M: set<R>, c: R)
    requires Merges(P, M) && c in P.sets && c !in M
    ensures Guard(Rewritten(P, M), c) ==> Guard(P, c)
  {
    var Q := Rewritten(P, M);
    assert c in Ops(P) && SetOk(P, c);
    var q := P.graph[c].parent.value;
    InputsAreLast(P, M, c, q);
    LastOfHead(P, M, q);
    assert Q.graph[c].parent == Some(Head(P, M, q));
    assert OutEdgesOk(P, q);
    assert q in M ==> P.graph[q].operator.Some?;
  }

  lemma NothingLeftToMerge<R>(P: Plan<R>, c: R)
    requires WellFormed(P) && Fresh(P) && c in Pass(P).sets
    ensures !Guard(Pass(P), c)
  {
    PassIsRewritten(P);
    SurvivorsMembers(P.sets, Fused(P), c);
    GuardPullsBack(P, Fused(P), c);
  }

  lemma {:induction false} PassFromIdle<R>(P: Plan<R>, x: nat)
    requires forall i :: 0 <= i < |P.sets| ==> !Guard(P, P.sets[i])
    ensures PassFrom(P, x) == P
  {
    if 0 < x <= |P.sets| {
      PassFromIdle(P, x - 1);
    }
  }

  /** A second pass changes nothing. */
  lemma PassIsFixpoint<R>(P: Plan<R>)
    requires WellFormed(P) && Fresh(P)
    ensures Pass(Pass(P)) == Pass(P)
  {
    var Q := Pass(P);
    forall i | 0 <= i < |Q.sets| ensures !Guard(Q, Q.sets[i]) {
      NothingLeftToMerge(P, Q.sets[i]);
    }
    PassFromIdle(Q, |Q.sets|);
  }

  /** In a closed plan the two broadcast conditions of the guard never stop a merge: the lists they look
      into hold broadcast nodes, and the parent is an operation. */
  lemma BroadcastGuardIsVacuous<R>(P: Plan<R>, c: R)
    requires Closed(P) && c in P.sets
    ensures c in P.graph && P.graph[c].parent.Some? && P.graph[c].parent.value in P.graph
    ensures var p := P.graph[c].parent.value;
            Guard(P, c) <==>
            Chainable(P.graph[c].identifier) && P.graph[p].operator.Some? &&
            |P.graph[p].children| == 1 && |P.graph[p].sinks| == 0
  {
    assert c in Ops(P) && SetOk(P, c);
    assert OutEdgesOk(P, P.graph[c].parent.value);
  }

  // ---------------------------------------------------------------------------------------------
  // Which sets are merged
  // ---------------------------------------------------------------------------------------------

  /** One iteration removes the set that it tries if and only if that is a map, filter or flat map whose
      parent has an operator, one child and no sinks. */
  lemma TriedSetIsRemovedIff<R>(P: Plan<R>, c: R)
    requires Runnable(P) && c in P.sets
    ensures c in P.graph && P.graph[c].parent.Some? && P.graph[c].parent.value in P.graph
    ensures var d, p := P.graph[c], P.graph[P.graph[c].parent.value];
            c !in TryMerge(P, c).sets <==>
            (d.identifier == Map || d.identifier == Filter || d.identifier == FlatMap) && p.operator.Some? &&
            |p.children| == 1 && |p.sinks| == 0
  {
    BroadcastGuardIsVacuous(P, c);
    if Guard(P, c) {
      MergedSets(P, P.graph[c].parent.value, c);
    }
  }

  lemma MergedNodeKind<R>(P: Plan<R>, p: R, c: R, n: R)
    requires p in P.graph && c in P.graph && n in P.graph
    ensures MergedNode(P, p, c, n).identifier == P.graph[n].identifier
  {
  }

  lemma MergedGraphKind<R>(P: Plan<R>, p: R, c: R, n: R)
    requires Runnable(P) && Mergeable(P, p, c) && n in P.graph
    ensures p in P.graph && Merge(P, p, c).graph[n].identifier == P.graph[n].identifier
  {
    MergeEffectAt(P, p, c, n);
    MergedNodeKind(P, p, c, n);
  }

  lemma KindOfMerged<R>(P: Plan<R>, c: R, n: R)
    requires Runnable(P) && c in P.sets && n in P.graph
    ensures n in TryMerge(P, c).graph && TryMerge(P, c).graph[n].identifier == P.graph[n].identifier
  {
    if Guard(P, c) {
      MergedGraphKind(P, P.graph[c].parent.value, c, n);
    }
  }

  /** Another set stays where it is while a set is tried. */
  lemma OtherSetStays<R>(P: Plan<R>, c: R, n: R)
    requires Runnable(P) && c in P.sets && n in P.sets && n != c
    ensures n in TryMerge(P, c).sets
  {
    if Guard(P, c) {
      assert c in Ops(P) && SetOk(P, c);
      MergedSets(P, P.graph[c].parent.value, c);
    }
  }

  ghost predicate OtherKind<R>(P: Plan<R>, n: R) {
    (&& n in P.sets && n in P.graph && P.graph[n].identifier != Map && P.graph[n].identifier != Filter
     && P.graph[n].identifier != FlatMap) == true
  }

  lemma SurvivesOneTry<R>(P: Plan<R>, c: R, n: R, Q: Plan<R>)
    requires Runnable(P) && c in P.sets && OtherKind(P, n) && Q == TryMerge(P, c)
    ensures OtherKind(Q, n)
  {
    KindOfMerged(P, c, n);
    if n == c {
      TriedSetIsRemovedIff(P, c);
    } else {
      OtherSetStays(P, c, n);
    }
  }

  lemma SurvivesStep<R>(tr: seq<Plan<R>>, i: nat, n: R)
    requires Trace(tr) && i + 1 < |tr| && Runnable(tr[i + 1]) && OtherKind(tr[i + 1], n)
    ensures Runnable(tr[i]) && OtherKind(tr[i], n)
  {
    StepOfTrace(tr, i);
    RunnableStep(tr[i + 1], i + 1);
    SurvivesOneTry(tr[i + 1], tr[i + 1].sets[i], n, tr[i]);
  }

  lemma {:induction false} SurvivesTrace<R>(tr: seq<Plan<R>>, x: nat, n: R)
    requires Trace(tr) && x < |tr| && Runnable(tr[x]) && OtherKind(tr[x], n)
    ensures OtherKind(tr[0], n)
  {
    if x > 0 {
      SurvivesStep(tr, x - 1, n);
      SurvivesTrace(tr, x - 1, n);
    }
  }

  /** An operation other than map, filter and flat map is never merged into another. */
  lemma OtherKindsSurvive<R>(P: Plan<R>, x: nat, n: R)
    requires Runnable(P) && x <= |P.sets| && n in P.sets && n in P.graph
    requires P.graph[n].identifier != Map && P.graph[n].identifier != Filter && P.graph[n].identifier != FlatMap
    ensures n in PassFrom(P, x).sets
  {
    var tr := PassTrace(P, x);
    TraceEndsInPass(tr, x);
    SurvivesTrace(tr, x, n);
  }

  // ---------------------------------------------------------------------------------------------
  // A chain of two, spelled out
  // ---------------------------------------------------------------------------------------------

  lemma PairLinks<R>(P: Plan<R>, p: R, c: R)
    requires WellFormed(P) && p in Ops(P) && p in P.graph
    requires c in P.sets && Guard(P, c) && P.graph[c].parent == Some(p)
    requires forall m :: m in P.graph[c].children ==> !Guard(P, m)
    ensures Next(P, Fused(P), p) == Some(c) && Links(P, Fused(P), p) == [p, c]
  {
    NextOfParent(P, Fused(P), c);
    assert Links(P, Fused(P), c) == [c];
  }

  lemma PairNamed<R>(g: Graph<R>, p: R, c: R)
    requires p in g && c in g
    ensures ChainName(g, [p, c]) == g[p].name + " -> " + g[c].name
    ensures ChainBcvars(g, [p, c]) == g[p].bcvars + g[c].bcvars
  {
    assert [p, c][1..] == [c] && [c][1..] == [];
    assert ChainBcvars(g, [c]) == g[c].bcvars + [];
  }

  /** When `c` alone is merged into `p`, then `p` has both names, and what `c` handed on is handed on by `p`. */
  lemma PairMerged<R>(P: Plan<R>, p: R, c: R)
    requires WellFormed(P) && Fresh(P) && p in Ops(P) && !Guard(P, p)
    requires c in P.sets && Guard(P, c) && P.graph[c].parent == Some(p)
    requires forall m :: m in P.graph[c].children ==> !Guard(P, m)
    ensures p in P.graph && p in Pass(P).graph
    ensures var a, b, n := P.graph[p], P.graph[c], Pass(P).graph[p];
            && n.name == a.name + " -> " + b.name
            && n.chained == Some(c) && n.types == b.types
            && n.children == b.children && n.sinks == b.sinks && n.bcvars == a.bcvars + b.bcvars
            && n.id == a.id && n.identifier == a.identifier && n.operator == a.operator
  {
    PassIsRewritten(P);
    PairLinks(P, p, c);
    PairNamed(P.graph, p, c);
    assert Pass(P).graph[p] == RewrittenNode(P, Fused(P), p);
  }
}
