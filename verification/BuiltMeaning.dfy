/** When the chaining pass preserves the meaning of a plan that a program built, co-groups included. */
module BuiltMeaning {
  import opened Common
  import opened Stages
  import opened PlanGraph
  import opened ChainStep
  import opened Chains
  import opened ChainResults
  import opened PlanBuilders
  import opened BuiltPlans
  import opened PlanMeaning
  import opened PlanMeaningExact

  /** User functions that copy their input, up to the special node `k`; the co-group `m` notices when its
      second input is not `good`. */
  ghost function Watch<R>(P: Plan<R>, k: R, m: R, good: seq<int>): Interp<R, int, ()> {
    Interp(
      (n, env) => GoodStage(if n in P.graph then P.graph[n].identifier else Map, n == k),
      (n, a, b, env) => if n == m && b != good then [99] else if n == k then [5] else [0, 1],
      n => {})
  }

  lemma WatchIsAdmissible<R>(P: Plan<R>, k: R, m: R, good: seq<int>)
    ensures KindRespecting(P, Watch(P, k, m, good)) && ReadsOwn(P, Watch(P, k, m, good))
  {
  }

  lemma WatchAt<R>(P: Plan<R>, k: R, m: R, n: R)
    requires Closed(P) && m in P.sets && m in P.graph && P.graph[m].other == Some(k) && n in Ops(P) && k in Ops(P)
    ensures n in P.graph && HeadOut(Watch(P, k, m, Val(P, k, k)), P.graph, n, Vals(P, k)) == Val(P, k, n)
  {
    if n in P.sets {
      assert SetOk(P, n);
      assert Input(Vals(P, k), P.graph[n].parent) == Val(P, k, P.graph[n].parent.value);
    } else {
      assert SourceOk(P, n);
    }
  }

  lemma WatchSolves<R>(P: Plan<R>, k: R, m: R)
    requires Closed(P) && Fresh(P) && m in P.sets && m in P.graph && P.graph[m].other == Some(k) && k in Ops(P)
    ensures Solves(P, Watch(P, k, m, Val(P, k, k)), Vals(P, k))
  {
    var I, v := Watch(P, k, m, Val(P, k, k)), Vals(P, k);
    forall n | n in Ops(P)
      ensures n in P.graph && NodeSolved(P, I, v, n)
    {
      WatchAt(P, k, m, n);
      FreshChain(P, n);
    }
  }

  /** Once the head of the chain notices, the output of the chain is big. */
  lemma {:induction false} NoticedChainIsBig<R>(P: Plan<R>, k: R, m: R, good: seq<int>, g: Graph<R>, links: seq<R>,
                                                w: Valuation<R, int>, j: nat)
    requires j < |links| && links[0] == m && m in g
    requires !RecordWise(g[m].identifier) && Input(w, g[m].other) != good
    ensures Big(ChainOut(Watch(P, k, m, good), g, links[..j + 1], w))
    decreases j
  {
    if j > 0 {
      assert links[..j + 1][..j] == links[..j];
      NoticedChainIsBig(P, k, m, good, g, links, w, j - 1);
      var n := links[j];
      GoodKeepsBig(if n in P.graph then P.graph[n].identifier else Map, n == k, (),
                   ChainOut(Watch(P, k, m, good), g, links[..j], w));
    }
  }

  /** The data set that a misdirected co-group was built with ends its chain. */
  lemma SourceIsLast<R>(P: Plan<R>, counter: int, Q: Plan<R>, M: set<R>, m: R, s: R)
    requires Built(P, counter) && Q == Repaired(P) && Merges(Q, M)
    requires m in P.sets && m in P.graph && CoGroupOther(P, m) == Some(s)
    ensures s in Ops(Q) && Next(Q, M, s).None?
  {
    SourceListsBoth(P, counter, m);
  }

  /** After the pass the co-group sees the records of the data set instead of those of its key map. */
  lemma ReadsWrongRecords<R>(P: Plan<R>, counter: int, Q: Plan<R>, M: set<R>, m: R, s: R, k: R)
    requires Built(P, counter) && Q == Repaired(P) && Merges(Q, M) && M == Fused(Q) && Misdirected(P, m) && m !in M
    requires CoGroupOther(P, m) == Some(s) && P.graph[m].other == Some(k) && k in Ops(P)
    ensures m in Rewritten(Q, M).graph
    ensures Input(Lifted(Rewritten(Q, M), Vals(P, k)), Rewritten(Q, M).graph[m].other) != Val(P, k, k)
  {
    SourceListsBoth(P, counter, m);
    SourceIsLast(P, counter, Q, M, m, s);
    LiftedInput(Q, Vals(P, k), s);
    SecondInputAfter(Q, M, m);
    ValBefore(P, k, s);
    ValSpecial(P, k);
  }

  lemma NoticedIsNotSolved<R>(P: Plan<R>, k: R, m: R, good: seq<int>, A: Plan<R>, w: Valuation<R, int>)
    requires m in Ops(A) && m in A.graph && m in w && Small(w[m])
    requires !RecordWise(A.graph[m].identifier) && Input(w, A.graph[m].other) != good
    ensures !Solves(A, Watch(P, k, m, good), w)
  {
    var links := ChainFrom(A.graph, m);
    NoticedChainIsBig(P, k, m, good, A.graph, links, w, |links| - 1);
    assert links[..|links|] == links;
    NotSolvedAt(A, Watch(P, k, m, good), w, m);
  }

  /** The co-group survives the pass, and should have small records after it. */
  lemma CoGroupAfter<R>(P: Plan<R>, Q: Plan<R>, M: set<R>, k: R, m: R)
    requires Closed(P) && Merges(Q, M) && M == Fused(Q) && Ops(Q) == Ops(P) && k in Ops(P)
    requires m in Q.sets && m !in M && m in Q.graph
    ensures var A, w := Rewritten(Q, M), Lifted(Rewritten(Q, M), Vals(P, k));
            && m in Ops(A) && m in A.graph && m in w && Small(w[m])
            && A.graph[m].identifier == Q.graph[m].identifier
  {
    assert m in Ops(Q);
    LiftedAt(Q, Vals(P, k), m);
    ValSmall(P, k, Last(Q, M, m));
    RewrittenKeeps(Q, M, m);
  }

  /** In the plan `A` with the records of `v` the co-group `m` does not find `good`. */
  ghost predicate Notices<R>(A: Plan<R>, m: R, good: seq<int>, v: Valuation<R, int>) {
    var w := Lifted(A, v);
    && m in Ops(A) && m in A.graph && m in w && Small(w[m])
    && !RecordWise(A.graph[m].identifier) && Input(w, A.graph[m].other) != good
  }

  lemma NotPreserved<R>(P: Plan<R>, A: Plan<R>, k: R, m: R, good: seq<int>, v: Valuation<R, int>)
    requires Notices(A, m, good, v)
    ensures !Preserves(P, A, Watch(P, k, m, good), v)
  {
    NoticedIsNotSolved(P, k, m, good, A, Lifted(A, v));
  }

  lemma RepairedCoGroup<R>(P: Plan<R>, Q: Plan<R>, m: R)
    requires Q == Repaired(P) && Misdirected(P, m)
    ensures Ops(Q) == Ops(P) && m in Q.sets && m in Q.graph && Q.graph[m].identifier == CoGroup
  {
  }

  lemma CoGroupNotices<R>(P: Plan<R>, Q: Plan<R>, M: set<R>, m: R, k: R)
    requires Closed(P) && Merges(Q, M) && M == Fused(Q) && Ops(Q) == Ops(P) && k in Ops(P)
    requires m in Q.sets && m !in M && m in Q.graph && Q.graph[m].identifier == CoGroup
    requires m in Rewritten(Q, M).graph
    requires Input(Lifted(Rewritten(Q, M), Vals(P, k)), Rewritten(Q, M).graph[m].other) != Val(P, k, k)
    ensures Notices(Rewritten(Q, M), m, Val(P, k, k), Vals(P, k))
  {
    CoGroupAfter(P, Q, M, k, m);
  }

  /** A misdirected co-group changes what the plan computes, for some user functions. */
  lemma MisdirectedBreaks<R>(P: Plan<R>, counter: int, m: R) returns (I: Interp<R, int, ()>, v: Valuation<R, int>)
    requires Built(P, counter) && Misdirected(P, m)
    ensures KindRespecting(P, I) && ReadsOwn(P, I) && Solves(P, I, v)
    ensures !Preserves(P, Pass(P), I, v)
  {
    SourceListsBoth(P, counter, m);
    var s, k := CoGroupOther(P, m).value, P.graph[m].other.value;
    assert k in Ops(P);
    I, v := Watch(P, k, m, Val(P, k, k)), Vals(P, k);
    WatchIsAdmissible(P, k, m, Val(P, k, k));
    WatchSolves(P, k, m);
    PassOfBuilt(P, counter);
    CoGroupIsNotMerged(P, counter, m, s);
    ReadsWrongRecords(P, counter, Repaired(P), Fused(P), m, s, k);
    RepairedCoGroup(P, Repaired(P), m);
    CoGroupNotices(P, Repaired(P), Fused(P), m, k);
    NotPreserved(P, Pass(P), k, m, Val(P, k, k), v);
  }

  /** MAIN: the pass preserves the meaning of a built plan for all user functions if and only if no set that
      is merged has a stale co-group among its children, no broadcast variable reads a set into which another
      one is merged, and no chain gives a broadcast name of one of its links another meaning. */
  lemma BuiltMeaningIff<R(!new)>(P: Plan<R>, counter: int)
    requires Built(P, counter)
    ensures WellFormed(P) <==> FusedExactly(P)
    ensures AlwaysPreserved(P) <==> FusedExactly(P) && NoFusedSource(P) && NamesApart(P)
  {
    BuiltIsWellFormedIff(P, counter);
    if WellFormed(P) {
      PassPreservesMeaningIff(P);
    } else {
      var n, m :| n in Ops(P) && m in P.sets && Guard(P, n) && !ChildEdge(P, n, m);
      BuiltEdges(P, counter, n, m);
      assert n in P.sources ==> SourceOk(P, n);
      assert Misdirected(P, m);
      var I, v := MisdirectedBreaks(P, counter, m);
    }
  }
}
