/** How a co-group is built. It leaves a stale child behind, in the list of its second data set. */
module CoGroupPlans {
  import opened Common
  import opened PlanGraph
  import opened ChainStep
  import opened Chains
  import opened PlanBuilders

  // ---------------------------------------------------------------------------------------------
  // Building
  // ---------------------------------------------------------------------------------------------

  /** The operations of a co-group are new. */
  ghost predicate Unused<R>(P: Plan<R>, n: R, k: R, k': R) {
    n !in P.graph && k !in P.graph && k' !in P.graph && n != k && n != k' && k != k'
  }

  ghost predicate IsKeyMap(info: Info) {
    info.identifier == Map && info.operator.Some?
  }

  /** The plan with the two key maps, without the co-group itself. */
  function WithKeyMaps<R>(P: Plan<R>, k: R, k': R, id: int, key: Info, key': Info, q: R, q': R): Plan<R>
    requires q in P.graph && q' in P.graph
  {
    AddSet(AddSet(P, k, id, key, q), k', id + 1, key', q')
  }

  lemma KeyMapsBuilt<R>(P: Plan<R>, n: R, k: R, k': R, id: int, key: Info, key': Info, q: R, q': R)
    requires Built(P, id) && Unused(P, n, k, k') && q in Ops(P) && q' in Ops(P) && IsKeyMap(key) && IsKeyMap(key')
    ensures q in P.graph && q' in P.graph
    ensures Built(WithKeyMaps(P, k, k', id, key, key', q, q'), id + 2)
  {
    assert q in P.graph && q' in P.graph;
    AddSetKeepsBuilt(P, k, id, key, q);
    AddSetKeepsBuilt(AddSet(P, k, id, key, q), k', id + 1, key', q');
  }

  /** The key maps that become children of a node. */
  function KeyMapsOf<R(==)>(x: R, k: R, k': R, q: R, q': R): seq<R> {
    if x == q && x == q' then [k, k'] else if x == q then [k] else if x == q' then [k'] else []
  }

  /** The children of a node after a co-group was built, and after only its key maps were built. */
  function ChildrenAfter<R(==)>(cs: seq<R>, x: R, n: R, k: R, k': R, q: R, q': R): seq<R> {
    if x == k || x == k' then [n] else (if x == q' then cs + [n] else cs) + KeyMapsOf(x, k, k', q, q')
  }

  function ChildrenBefore<R(==)>(cs: seq<R>, x: R, k: R, k': R, q: R, q': R): seq<R> {
    if x == k || x == k' then [] else cs + KeyMapsOf(x, k, k', q, q')
  }

  lemma KeyMapsAt<R>(P: Plan<R>, k: R, k': R, id: int, key: Info, key': Info, q: R, q': R, x: R)
    requires k !in P.graph && k' !in P.graph && k != k' && q in P.graph && q' in P.graph &&
             (x in P.graph || x == k || x == k')
    ensures var P2 := WithKeyMaps(P, k, k', id, key, key', q, q');
            var cs := if x in P.graph then P.graph[x].children else [];
            x in P2.graph &&
            P2.graph[x] == (if x == k then NewNode(id, key, Some(q), None)
                            else if x == k' then NewNode(id + 1, key', Some(q'), None)
                            else P.graph[x]).(children := ChildrenBefore(cs, x, k, k', q, q'))
  {
  }

  lemma CoGroupAt<R>(P: Plan<R>, n: R, k: R, k': R, id: int, key: Info, key': Info, info: Info, q: R, q': R, x: R)
    requires Unused(P, n, k, k') && q in P.graph && q' in P.graph && (x in P.graph || x == k || x == k')
    ensures var Q := AddCoGroup(P, n, k, k', id, key, key', info, q, q');
            var cs := if x in P.graph then P.graph[x].children else [];
            x in Q.graph &&
            Q.graph[x] == (if x == k then NewNode(id, key, Some(q), None)
                           else if x == k' then NewNode(id + 1, key', Some(q'), None)
                           else P.graph[x]).(children := ChildrenAfter(cs, x, n, k, k', q, q'))
  {
  }

  lemma CoGroupIs<R>(P: Plan<R>, n: R, k: R, k': R, id: int, key: Info, key': Info, info: Info, q: R, q': R)
    requires Unused(P, n, k, k') && q in P.graph && q' in P.graph
    ensures var Q := AddCoGroup(P, n, k, k', id, key, key', info, q, q');
            && Q.graph.Keys == P.graph.Keys + {n, k, k'}
            && Q.graph[n] == NewNode(id + 2, info.(identifier := CoGroup), Some(k), Some(k'))
            && Q.graph[k] == NewNode(id, key, Some(q), None).(children := [n])
            && Q.graph[k'] == NewNode(id + 1, key', Some(q'), None).(children := [n])
            && Q.sources == P.sources && Q.sets == P.sets + [k] + [k'] + [n]
            && Q.sinks == P.sinks && Q.broadcast == P.broadcast
  {
  }

  lemma ListsDiffer<R>(cs: seq<R>, x: R, n: R, k: R, k': R, q: R, q': R)
    requires n !in cs && n != k && n != k' && k != k'
    ensures var before, after := ChildrenBefore(cs, x, k, k', q, q'), ChildrenAfter(cs, x, n, k, k', q, q');
            && multiset(after) == multiset(before)[n := multiset(after)[n]]
            && multiset(after)[n] == One(x == k || x == k' || x == q')
  {
    OneMore(cs, n, KeyMapsOf(x, k, k', q, q'));
  }

  lemma OneMore<R>(cs: seq<R>, n: R, ks: seq<R>)
    requires n !in cs && n !in ks
    ensures multiset(cs + [n] + ks) == multiset(cs + ks)[n := 1] && multiset(cs + ks)[n] == 0
  {
    assert n !in cs + ks;
  }

  function ChildrenIn<R(==)>(P: Plan<R>, x: R): seq<R> {
    if x in P.graph then P.graph[x].children else []
  }

  /** `Q` is `P` with a co-group, and `P2` is `P` with its key maps only, described node by node. */
  ghost predicate CoGrouped<R>(P: Plan<R>, P2: Plan<R>, Q: Plan<R>, n: R, k: R, k': R, id: int, info: Info, q: R,
                               q': R) {
    CoGroupedOk(P, P2, Q, n, k, k', id, info, q, q') == true  // one fact
  }

  ghost predicate CoGroupedOk<R>(P: Plan<R>, P2: Plan<R>, Q: Plan<R>, n: R, k: R, k': R, id: int, info: Info,
                                 q: R, q': R) {
    && Unused(P, n, k, k') && q in Ops(P) && q' in Ops(P)
    && Q.graph.Keys == P.graph.Keys + {n, k, k'} && P2.graph.Keys == P.graph.Keys + {k, k'}
    && Q.graph[n] == NewNode(id + 2, info.(identifier := CoGroup), Some(k), Some(k'))
    && P2.sources == P.sources && P2.sets == P.sets + [k] + [k'] && P2.sinks == P.sinks && P2.broadcast == P.broadcast
    && Q.sources == P.sources && Q.sets == P2.sets + [n] && Q.sinks == P.sinks && Q.broadcast == P.broadcast
    && (forall x {:trigger NodeGrouped(P, P2, Q, n, k, k', q, q', x)} :: x in P2.graph ==>
          NodeGrouped(P, P2, Q, n, k, k', q, q', x))
  }

  ghost predicate NodeGrouped<R>(P: Plan<R>, P2: Plan<R>, Q: Plan<R>, n: R, k: R, k': R, q: R, q': R, x: R)
    requires x in P2.graph && x in Q.graph
  {
    && P2.graph[x].children == ChildrenBefore(ChildrenIn(P, x), x, k, k', q, q')
    && Q.graph[x] == P2.graph[x].(children := ChildrenAfter(ChildrenIn(P, x), x, n, k, k', q, q'))
  }

  lemma CoGroupIsCoGrouped<R>(P: Plan<R>, n: R, k: R, k': R, id: int, key: Info, key': Info, info: Info, q: R, q': R)
    requires Unused(P, n, k, k') && q in Ops(P) && q' in Ops(P) && q in P.graph && q' in P.graph
    ensures CoGrouped(P, WithKeyMaps(P, k, k', id, key, key', q, q'),
                      AddCoGroup(P, n, k, k', id, key, key', info, q, q'), n, k, k', id, info, q, q')
  {
    var P2, Q := WithKeyMaps(P, k, k', id, key, key', q, q'), AddCoGroup(P, n, k, k', id, key, key', info, q, q');
    CoGroupIs(P, n, k, k', id, key, key', info, q, q');
    forall x | x in P2.graph ensures NodeGrouped(P, P2, Q, n, k, k', q, q', x) {
      KeyMapsAt(P, k, k', id, key, key', q, q', x);
      CoGroupAt(P, n, k, k', id, key, key', info, q, q', x);
    }
  }

  lemma CoGroupGains<R>(P: Plan<R>, P2: Plan<R>, Q: Plan<R>, n: R, k: R, k': R, id: int, info: Info, q: R, q': R, x: R)
    requires Built(P, id) && CoGrouped(P, P2, Q, n, k, k', id, info, q, q') && x in P2.graph
    ensures x in Q.graph && OnlyGained(P2.graph[x], Q.graph[x], n)
    ensures x in Ops(P2) ==> multiset(Q.graph[x].children)[n] == One(x == k || x == k' || x == q')
  {
    assert NodeGrouped(P, P2, Q, n, k, k', q, q', x);
    if x in Ops(P) || x == k || x == k' {
      if x in Ops(P) {
        NotYetListed(P, id, x, n);
      }
      ListsDiffer(ChildrenIn(P, x), x, n, k, k', q, q');
    }
  }

  /** The co-group is listed once by each of its key maps, and once by `q'` although it does not read it. */
  lemma CoGroupListed<R>(P: Plan<R>, P2: Plan<R>, Q: Plan<R>, n: R, k: R, k': R, id: int, info: Info, q: R, q': R, x: R)
    requires Built(P, id) && CoGrouped(P, P2, Q, n, k, k', id, info, q, q') && x in Ops(P2)
    requires n in Q.graph && CoGroupOther(Q, n) == Some(q')
    ensures x in Q.graph && Listed(Q, x, n)
  {
    assert x in P2.graph && q' in P.graph;
    CoGroupGains(P, P2, Q, n, k, k', id, info, q, q', x);
    CountEdges(Q, n, k, k', q', x);
  }

  lemma CountEdges<R>(Q: Plan<R>, n: R, k: R, k': R, q': R, x: R)
    requires x in Q.graph && n in Q.graph && CoGroupOther(Q, n) == Some(q')
    requires Q.graph[n].parent == Some(k) && Q.graph[n].other == Some(k') && k != k' && q' != k && q' != k'
    requires multiset(Q.graph[x].children)[n] == One(x == k || x == k' || x == q')
    ensures Listed(Q, x, n)
  {
  }

  /** The co-group as one more set of the plan with the key maps. */
  lemma CoGroupExtends<R>(P: Plan<R>, P2: Plan<R>, Q: Plan<R>, n: R, k: R, k': R, id: int, info: Info, q: R, q': R)
    requires Built(P, id) && CoGrouped(P, P2, Q, n, k, k', id, info, q, q')
    ensures Extends(P2, Q, n)
  {
    forall x | x in P2.graph ensures OnlyGained(P2.graph[x], Q.graph[x], n) {
      CoGroupGains(P, P2, Q, n, k, k', id, info, q, q', x);
    }
  }

  lemma CoGroupNewSetOk<R>(P: Plan<R>, P2: Plan<R>, Q: Plan<R>, n: R, k: R, k': R, id: int, info: Info, q: R, q': R)
    requires Built(P, id) && CoGrouped(P, P2, Q, n, k, k', id, info, q, q')
    requires forall x :: x in Ops(P2) ==> x in Q.graph && Listed(Q, x, n)
    ensures NewSetOk(P2, Q, n, id + 2)
  {
  }

  lemma CoGroupedIsBuilt<R>(P: Plan<R>, P2: Plan<R>, Q: Plan<R>, n: R, k: R, k': R, id: int, info: Info, q: R, q': R)
    requires Built(P, id) && CoGrouped(P, P2, Q, n, k, k', id, info, q, q') && Built(P2, id + 2)
    requires n in Q.graph && CoGroupOther(Q, n) == Some(q')
    ensures Built(Q, id + 3)
  {
    CoGroupExtends(P, P2, Q, n, k, k', id, info, q, q');
    forall x | x in Ops(P2) ensures x in Q.graph && Listed(Q, x, n) {
      CoGroupListed(P, P2, Q, n, k, k', id, info, q, q', x);
    }
    CoGroupNewSetOk(P, P2, Q, n, k, k', id, info, q, q');
    ExtendsKeepsBuilt(P2, Q, n, id + 2);
  }

  /** The co-group reads a key map of `q'`. */
  lemma CoGroupReads<R>(P: Plan<R>, n: R, k: R, k': R, id: int, key: Info, key': Info, info: Info, q: R, q': R)
    requires Unused(P, n, k, k') && q in P.graph && q' in P.graph
    ensures var Q := AddCoGroup(P, n, k, k', id, key, key', info, q, q');
            n in Q.graph && Q.graph[n].other == Some(k') && CoGroupOther(Q, n) == Some(q')
  {
    CoGroupIs(P, n, k, k', id, key, key', info, q, q');
    CoGroupAt(P, n, k, k', id, key, key', info, q, q', k');
  }

  /** MAIN: a co-group keeps a built plan built. It reads a key map of `q'`; the list of `q'` names it although
      it does not read `q'`, and every other list is exact about it. */
  lemma CoGroupKeepsBuilt<R>(P: Plan<R>, n: R, k: R, k': R, id: int, key: Info, key': Info, info: Info, q: R, q': R)
    requires Built(P, id) && Unused(P, n, k, k') && q in Ops(P) && q' in Ops(P)
    requires IsKeyMap(key) && IsKeyMap(key')
    ensures q in P.graph && q' in P.graph
    ensures var Q := AddCoGroup(P, n, k, k', id, key, key', info, q, q');
            && Built(Q, id + 3) && n in Q.graph && CoGroupOther(Q, n) == Some(q')
            && (forall x {:trigger ChildEdge(Q, x, n)} :: x in Ops(Q) ==>
                  x in Q.graph && (ChildEdge(Q, x, n) <==> x != q'))
  {
    assert q in P.graph && q' in P.graph;
    var Q := AddCoGroup(P, n, k, k', id, key, key', info, q, q');
    KeyMapsBuilt(P, n, k, k', id, key, key', q, q');
    CoGroupIsCoGrouped(P, n, k, k', id, key, key', info, q, q');
    CoGroupReads(P, n, k, k', id, key, key', info, q, q');
    CoGroupedIsBuilt(P, WithKeyMaps(P, k, k', id, key, key', q, q'), Q, n, k, k', id, info, q, q');
    EdgesOfCoGroup(Q, id + 3, n, q');
  }

  lemma EdgesOfCoGroup<R>(Q: Plan<R>, counter: int, n: R, q': R)
    requires Built(Q, counter) && n in Q.sets && n in Q.graph && CoGroupOther(Q, n) == Some(q')
    ensures forall x {:trigger ChildEdge(Q, x, n)} :: x in Ops(Q) ==> x in Q.graph && (ChildEdge(Q, x, n) <==> x != q')
  {
    forall x {:trigger ChildEdge(Q, x, n)} | x in Ops(Q) ensures x in Q.graph && (ChildEdge(Q, x, n) <==> x != q') {
      BuiltEdges(Q, counter, x, n);
    }
  }
}
