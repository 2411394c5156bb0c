/** A plan without circular dependencies has exactly one meaning, and the pass keeps it that way. */
module PlanSolutions {
  import opened Common
  import opened Stages
  import opened PlanGraph
  import opened ChainStep
  import opened Chains
  import opened ChainResults
  import opened PlanMeaning

  ghost predicate Below<R>(r: map<R, nat>, x: Option<R>, n: R) {
    x.Some? ==> x.value in r && n in r && r[x.value] < r[n]
  }

  ghost predicate NodeRanked<R>(P: Plan<R>, r: map<R, nat>, n: R)
    requires n in P.graph
  {
    var d := P.graph[n];
    && n in r && Below(r, d.parent, n) && Below(r, d.other, n)
    && (forall b :: b in d.bcvars ==> b in P.graph && P.graph[b].other.Some? && Below(r, P.graph[b].other, n))
  }

  /** `r` decreases along every input and every broadcast variable: no node depends on itself. */
  ghost predicate Ranked<R>(P: Plan<R>, r: map<R, nat>) {
    && (forall n :: n in Ops(P) ==> n in P.graph)
    && (forall n {:trigger NodeRanked(P, r, n)} :: n in Ops(P) ==> NodeRanked(P, r, n))
  }

  /** `v1` and `v2` agree on everything that node `n` depends on. */
  ghost predicate AgreeBelow<R, D>(P: Plan<R>, v1: Valuation<R, D>, v2: Valuation<R, D>, n: R)
    requires n in P.graph
  {
    var d := P.graph[n];
    && Input(v1, d.parent) == Input(v2, d.parent) && Input(v1, d.other) == Input(v2, d.other)
    && (forall b :: b in d.bcvars && b in P.graph ==> Input(v1, P.graph[b].other) == Input(v2, P.graph[b].other))
  }

  lemma EnvAgrees<R, D>(P: Plan<R>, n: R, names: set<string>, v1: Valuation<R, D>, v2: Valuation<R, D>)
    requires n in P.graph && AgreeBelow(P, v1, v2, n)
    requires forall b :: b in P.graph[n].bcvars ==> b in P.graph && P.graph[b].other.Some?
    ensures EnvOf(P.graph, P.graph[n].bcvars, names, v1) == EnvOf(P.graph, P.graph[n].bcvars, names, v2)
  {
    forall x | x in names && Resolve(P.graph, P.graph[n].bcvars, x).Some?
      ensures var o := Resolve(P.graph, P.graph[n].bcvars, x); Input(v1, o) == Input(v2, o)
    {
      ResolveRegistered(P.graph, P.graph[n].bcvars, x);
    }
  }

  lemma {:induction false} ChainOutAgrees<R, D, S>(P: Plan<R>, I: Interp<R, D, S>, links: seq<R>,
                                                   v1: Valuation<R, D>, v2: Valuation<R, D>)
    requires links != [] && links[0] in P.graph && AgreeBelow(P, v1, v2, links[0])
    requires forall b :: b in P.graph[links[0]].bcvars ==> b in P.graph && P.graph[b].other.Some?
    ensures ChainOut(I, P.graph, links, v1) == ChainOut(I, P.graph, links, v2)
  {
    var last := links[|links| - 1];
    EnvAgrees(P, links[0], I.looksUp(last), v1, v2);
    if |links| > 1 {
      ChainOutAgrees(P, I, links[..|links| - 1], v1, v2);
    }
  }

  /** Two solutions agree on every node. */
  lemma {:induction false} SolutionsAgree<R, D, S>(P: Plan<R>, I: Interp<R, D, S>, r: map<R, nat>,
                                                   v1: Valuation<R, D>, v2: Valuation<R, D>, n: R)
    requires Ranked(P, r) && Solves(P, I, v1) && Solves(P, I, v2) && n in Ops(P)
    ensures n in v1 && n in v2 && v1[n] == v2[n]
    decreases if n in r then r[n] else 0
  {
    assert NodeRanked(P, r, n) && NodeSolved(P, I, v1, n) && NodeSolved(P, I, v2, n);
    var d := P.graph[n];
    if d.parent.Some? && d.parent.value in Ops(P) {
      SolutionsAgree(P, I, r, v1, v2, d.parent.value);
    }
    if d.other.Some? && d.other.value in Ops(P) {
      SolutionsAgree(P, I, r, v1, v2, d.other.value);
    }
    forall b | b in d.bcvars && b in P.graph
      ensures Input(v1, P.graph[b].other) == Input(v2, P.graph[b].other)
    {
      if P.graph[b].other.value in Ops(P) {
        SolutionsAgree(P, I, r, v1, v2, P.graph[b].other.value);
      }
    }
    assert AgreeBelow(P, v1, v2, n);
    ChainOutAgrees(P, I, ChainFrom(P.graph, n), v1, v2);
  }

  lemma SolutionUnique<R, D, S>(P: Plan<R>, I: Interp<R, D, S>, r: map<R, nat>, v1: Valuation<R, D>,
                                v2: Valuation<R, D>)
    requires Ranked(P, r) && Solves(P, I, v1) && Solves(P, I, v2)
    ensures v1 == v2
  {
    forall n | n in Ops(P)
      ensures n in v1 && n in v2 && v1[n] == v2[n]
    {
      SolutionsAgree(P, I, r, v1, v2, n);
    }
    assert v1.Keys == v2.Keys;
  }

  /** The records of a node, computed from those of the nodes below it. */
  ghost function RecordsOf<R, D, S>(P: Plan<R>, I: Interp<R, D, S>, r: map<R, nat>, n: R): seq<D>
    requires n in r && n in P.graph
    decreases r[n]
  {
    var below := map q | q in Ops(P) && q in P.graph && q in r && r[q] < r[n] :: RecordsOf(P, I, r, q);
    ChainOut(I, P.graph, ChainFrom(P.graph, n), below)
  }

  lemma RecordsSolve<R, D, S>(P: Plan<R>, I: Interp<R, D, S>, r: map<R, nat>, v: Valuation<R, D>, n: R)
    requires Ranked(P, r) && n in Ops(P) && n in r && n in P.graph
    requires forall q :: q in Ops(P) ==> q in r && q in P.graph
    requires v == map q | q in Ops(P) :: RecordsOf(P, I, r, q)
    ensures v[n] == ChainOut(I, P.graph, ChainFrom(P.graph, n), v)
  {
    var below := map q | q in Ops(P) && q in P.graph && q in r && r[q] < r[n] :: RecordsOf(P, I, r, q);
    assert NodeRanked(P, r, n);
    assert AgreeBelow(P, below, v, n);
    ChainOutAgrees(P, I, ChainFrom(P.graph, n), below, v);
  }

  /** MAIN: without circular dependencies every plan, optimised or not, has exactly one solution, whatever
      the user functions do. */
  lemma SolutionExists<R, D, S>(P: Plan<R>, I: Interp<R, D, S>, r: map<R, nat>) returns (v: Valuation<R, D>)
    requires Ranked(P, r)
    ensures Solves(P, I, v)
    ensures forall w :: Solves(P, I, w) ==> w == v
  {
    forall n | n in Ops(P) ensures n in r && n in P.graph {
      assert NodeRanked(P, r, n);
    }
    v := map n | n in Ops(P) :: RecordsOf(P, I, r, n);
    forall n | n in Ops(P) ensures n in P.graph && NodeSolved(P, I, v, n) {
      RecordsSolve(P, I, r, v, n);
    }
    forall w | Solves(P, I, w) ensures w == v {
      SolutionUnique(P, I, r, w, v);
    }
  }

  /** The rank of a chain is that of its last link. */
  ghost function ChainRank<R>(P: Plan<R>, r: map<R, nat>): map<R, nat>
    requires WellFormed(P)
  {
    map h | h in Ops(P) && h !in Fused(P) && Last(P, Fused(P), h) in r :: r[Last(P, Fused(P), h)]
  }

  lemma {:induction false} LinksBelowLast<R>(P: Plan<R>, r: map<R, nat>, n: R, i: nat)
    requires WellFormed(P) && Ranked(P, r) && n in Ops(P) && i < |Links(P, Fused(P), n)|
    ensures var links := Links(P, Fused(P), n);
            links[i] in r && Last(P, Fused(P), n) in r && r[links[i]] <= r[Last(P, Fused(P), n)]
    decreases |Links(P, Fused(P), n)| - i
  {
    var links := Links(P, Fused(P), n);
    var l := links[i];
    assert l in Ops(P) && NodeRanked(P, r, l);
    if i + 1 < |links| {
      LinksBelowLast(P, r, n, i + 1);
      LinkParent(P, Fused(P), n, i);
      assert NodeRanked(P, r, links[i + 1]);
    }
  }

  /** A node that ends its chain keeps its rank under its head. */
  lemma RankOfHead<R>(P: Plan<R>, r: map<R, nat>, q: R)
    requires WellFormed(P) && Ranked(P, r) && q in Ops(P) && Next(P, Fused(P), q).None?
    ensures var h := Head(P, Fused(P), q); h in ChainRank(P, r) && q in r && ChainRank(P, r)[h] == r[q]
  {
    LastOfHead(P, Fused(P), q);
    assert NodeRanked(P, r, q);
  }

  lemma {:induction false} ChainBcvarsOwner<R>(g: Graph<R>, links: seq<R>, b: R) returns (i: nat)
    requires forall j :: 0 <= j < |links| ==> links[j] in g
    requires b in ChainBcvars(g, links)
    ensures i < |links| && b in g[links[i]].bcvars
  {
    if b in g[links[0]].bcvars {
      i := 0;
    } else {
      i := ChainBcvarsOwner(g, links[1..], b);
      i := i + 1;
    }
  }

  lemma BelowHead<R>(P: Plan<R>, r: map<R, nat>, h: R, i: nat, q: R)
    requires WellFormed(P) && Ranked(P, r) && h in Ops(P) && h !in Fused(P) && i < |Links(P, Fused(P), h)|
    requires q in Ops(P) && Next(P, Fused(P), q).None? && Below(r, Some(q), Links(P, Fused(P), h)[i])
    ensures Below(ChainRank(P, r), Some(Head(P, Fused(P), q)), h)
  {
    RankOfHead(P, r, q);
    LinksBelowLast(P, r, h, i);
  }

  lemma ChainNodeRanked<R>(P: Plan<R>, r: map<R, nat>, h: R)
    requires WellFormed(P) && Ranked(P, r) && NoFusedSource(P) && h in Ops(P) && h !in Fused(P) && h in P.graph
    ensures NodeRanked(Rewritten(P, Fused(P)), ChainRank(P, r), h)
  {
    var M, Q := Fused(P), Rewritten(P, Fused(P));
    var links := Links(P, M, h);
    LinksBelowLast(P, r, h, 0);
    assert NodeRanked(P, r, h);
    if h in P.sources {
      assert SourceOk(P, h);
    } else {
      assert SetOk(P, h);
      InputsAreLast(P, M, h, P.graph[h].parent.value);
      BelowHead(P, r, h, 0, P.graph[h].parent.value);
      if P.graph[h].other.Some? {
        InputsAreLast(P, M, h, P.graph[h].other.value);
        BelowHead(P, r, h, 0, P.graph[h].other.value);
      }
    }
    ChainBcvarsAreBroadcast(P, links);
    forall b | b in ChainBcvars(P.graph, links)
      ensures b in Q.graph && Q.graph[b].other.Some? && Below(ChainRank(P, r), Q.graph[b].other, h)
    {
      var i := ChainBcvarsOwner(P.graph, links, b);
      assert NodeRanked(P, r, links[i]);
      BroadcastSourceIsLast(P, b);
      BelowHead(P, r, h, i, P.graph[b].other.value);
    }
    RewrittenOpFields(P, h);
  }

  /** A plan without circular dependencies stays so. */
  lemma PassKeepsRanked<R>(P: Plan<R>, r: map<R, nat>)
    requires WellFormed(P) && Fresh(P) && Ranked(P, r) && NoFusedSource(P)
    ensures Ranked(Pass(P), ChainRank(P, r))
  {
    PassIsRewritten(P);
    var Q := Rewritten(P, Fused(P));
    forall h | h in Ops(Q)
      ensures h in Q.graph && NodeRanked(Q, ChainRank(P, r), h)
    {
      SurvivorsMembers(P.sets, Fused(P), h);
      ChainNodeRanked(P, r, h);
    }
  }

  /** MAIN: without circular dependencies the optimised plan has no meaning but the original one. */
  lemma OptimisedMeaningUnique<R, D, S>(P: Plan<R>, I: Interp<R, D, S>, r: map<R, nat>, v: Valuation<R, D>,
                                        w: Valuation<R, D>)
    requires WellFormed(P) && Fresh(P) && Ranked(P, r) && NoFusedSource(P) && NamesApart(P)
    requires ReadsOwn(P, I) && Solves(P, I, v) && Solves(Pass(P), I, w)
    ensures w == Lifted(Pass(P), v)
  {
    PassPreservesMeaning(P, I, v);
    PassKeepsRanked(P, r);
    SolutionUnique(Pass(P), I, ChainRank(P, r), w, Lifted(Pass(P), v));
  }
}
