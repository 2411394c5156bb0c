/** The chaining pass on every plan that a program can build. A co-group that was built with a set that is
    merged later reads another input after the pass; apart from that, the pass does what it does to a plan
    whose edges agree. */
module BuiltPlans {
  import opened Common
  import opened PlanGraph
  import opened ChainStep
  import opened Chains
  import opened ChainResults
  import opened PlanBuilders

  // ---------------------------------------------------------------------------------------------
  // The plan that the pass seems to see
  // ---------------------------------------------------------------------------------------------

  /** The data set that `m` was built with as a co-group passes the guard. */
  predicate Misdirected<R(==)>(P: Plan<R>, m: R) {
    m in P.sets && m in P.graph && CoGroupOther(P, m).Some? && CoGroupOther(P, m).value in Fused(P)
  }

  function RepairedNode<R(==)>(P: Plan<R>, m: R): Node<R>
    requires m in P.graph
  {
    if Misdirected(P, m) then P.graph[m].(other := CoGroupOther(P, m)) else P.graph[m]
  }

  /** Misdirected co-groups read the data set itself, as its list of children says, and no key map. */
  function Repaired<R(==)>(P: Plan<R>): (Q: Plan<R>)
    ensures Q.graph.Keys == P.graph.Keys
  {
    P.(graph := map m | m in P.graph :: RepairedNode(P, m))
  }

  lemma SameGuard<R>(P: Plan<R>, c: R)
    ensures Guard(Repaired(P), c) <==> Guard(P, c)
  {
  }

  lemma SameFused<R>(P: Plan<R>)
    ensures Fused(Repaired(P)) == Fused(P)
  {
    forall c | c in P.sets ensures c in Fused(Repaired(P)) <==> c in Fused(P) {
      SameGuard(P, c);
    }
  }

  lemma TwoMembers<T>(s: seq<T>, a: T, b: T)
    requires a in s && b in s && a != b
    ensures |s| > 1
  {
  }

  /** A co-group reads a key map of the data set it was built with, which lists both of them. */
  lemma SourceListsBoth<R>(P: Plan<R>, counter: int, m: R)
    requires Built(P, counter) && m in P.sets && m in P.graph && CoGroupOther(P, m).Some?
    ensures P.graph[m].other.Some?
    ensures var s, k := CoGroupOther(P, m).value, P.graph[m].other.value;
            && s in Ops(P) && s in P.graph && k in P.sets && k in P.graph && P.graph[k].parent == Some(s)
            && |P.graph[s].children| > 1 && m in P.graph[s].children
            && Rank(P.sets, s) < Rank(P.sets, k) < Rank(P.sets, m)
  {
    CoGroupOtherOk(P, counter, m);
    assert m in Ops(P) && SetOk(P, m) && HasKeyMap(P, m);
    var s, k := CoGroupOther(P, m).value, P.graph[m].other.value;
    assert SetOk(P, k);
    assert Listed(P, s, m) && Listed(P, s, k);
    TwoMembers(P.graph[s].children, m, k);
  }

  /** The key map is therefore not merged. */
  lemma KeyMapStays<R>(P: Plan<R>, counter: int, m: R)
    requires Built(P, counter) && m in P.sets && m in P.graph && CoGroupOther(P, m).Some?
    ensures P.graph[m].other.Some? && P.graph[m].other.value !in Fused(P)
  {
    SourceListsBoth(P, counter, m);
  }

  lemma RepairedSetOk<R>(P: Plan<R>, counter: int, m: R)
    requires Built(P, counter) && m in P.sets
    ensures m in P.graph && SetOk(Repaired(P), m)
  {
    assert m in Ops(P) && SetOk(P, m);
    if Misdirected(P, m) {
      SourceListsBoth(P, counter, m);
    }
  }

  lemma RepairedEdgeOk<R>(P: Plan<R>, counter: int, n: R, m: R)
    requires Built(P, counter) && n in Ops(P) && m in P.sets
    ensures n in P.graph && m in P.graph && EdgeOk(Repaired(P), n, m)
  {
    assert m in Ops(P) && SetOk(P, m) && Listed(P, n, m);
    SameGuard(P, n);
    if n in P.sources {
      assert SourceOk(P, n);
    }
    CoGroupOtherOk(P, counter, m);
    if CoGroupOther(P, m).Some? {
      SourceListsBoth(P, counter, m);
      KeyMapStays(P, counter, m);
    }
  }

  lemma RepairedClosed<R>(P: Plan<R>, counter: int)
    requires Built(P, counter)
    ensures Closed(Repaired(P))
  {
    var Q := Repaired(P);
    forall a, b | a in Ops(Q) && b in Ops(Q) ensures DistinctIds(Q, a, b) {
      assert DistinctIds(P, a, b);
    }
    forall n | n in Q.sources ensures SourceOk(Q, n) {
      assert SourceOk(P, n) && n in Ops(P);
    }
    forall m | m in Q.sets ensures SetOk(Q, m) {
      RepairedSetOk(P, counter, m);
    }
    forall n | n in Ops(Q) ensures OutEdgesOk(Q, n) {
      assert OutEdgesOk(P, n);
    }
  }

  lemma RepairedIsWellFormed<R>(P: Plan<R>, counter: int)
    requires Built(P, counter)
    ensures WellFormed(Repaired(P)) && Fresh(Repaired(P))
  {
    var Q := Repaired(P);
    RepairedClosed(P, counter);
    forall n, m | n in Ops(Q) && m in Q.sets ensures EdgeOk(Q, n, m) {
      RepairedEdgeOk(P, counter, n, m);
    }
    RepairedOtherEdges(P, counter);
  }

  lemma RepairedOtherEdges<R>(P: Plan<R>, counter: int)
    requires Built(P, counter) && ListsOk(Repaired(P))
    ensures SinkEdges(Repaired(P)) && BroadcastEdges(Repaired(P))
  {
  }

  // ---------------------------------------------------------------------------------------------
  // The pass cannot tell the two plans apart
  // ---------------------------------------------------------------------------------------------

  /** `n` is misdirected, and the pass has still to reach the data set that it was built with. */
  ghost predicate Pending<R>(P: Plan<R>, n: R, x: nat) {
    Misdirected(P, n) && Rank(P.sets, CoGroupOther(P, n).value) <= x
  }

  /** `A` and `B` have the same node `n`, up to the second input of a misdirected co-group. */
  ghost predicate SameNode<R>(P: Plan<R>, A: Plan<R>, B: Plan<R>, x: nat, n: R)
    requires n in A.graph && n in B.graph
  {
    || A.graph[n] == B.graph[n]
    || (&& Pending(P, n, x)
        && A.graph[n] == B.graph[n].(other := A.graph[n].other)
        && B.graph[n].other == CoGroupOther(P, n) && B.graph[n].identifier == CoGroup && n in B.sets)
  }

  ghost predicate Agree<R>(P: Plan<R>, A: Plan<R>, B: Plan<R>, x: nat) {
    AgreeOk(P, A, B, x) == true  // one fact
  }

  ghost predicate AgreeOk<R>(P: Plan<R>, A: Plan<R>, B: Plan<R>, x: nat) {
    && A.graph.Keys == P.graph.Keys == B.graph.Keys
    && A.sources == B.sources && A.sets == B.sets && A.sinks == B.sinks && A.broadcast == B.broadcast
    && (forall n {:trigger SameNode(P, A, B, x, n)} :: n in P.graph ==> SameNode(P, A, B, x, n))
  }

  lemma AgreeAtStart<R>(P: Plan<R>, counter: int)
    requires Built(P, counter)
    ensures Agree(P, P, Repaired(P), |P.sets|)
  {
    forall n | n in P.graph ensures SameNode(P, P, Repaired(P), |P.sets|, n) {
      if Misdirected(P, n) {
        CoGroupOtherOk(P, counter, n);
      }
    }
  }

  lemma AgreeOnGuard<R>(P: Plan<R>, A: Plan<R>, B: Plan<R>, x: nat, c: R)
    requires Agree(P, A, B, x) && c in P.graph
    ensures c in A.graph && c in B.graph && (Guard(A, c) <==> Guard(B, c))
    ensures A.graph[c].parent == B.graph[c].parent
  {
    assert SameNode(P, A, B, x, c);
    if A.graph[c].parent.Some? {
      var p := A.graph[c].parent.value;
      assert p in P.graph ==> SameNode(P, A, B, x, p);
    }
  }

  /** A set that is not merged. */
  lemma AgreeIdle<R>(P: Plan<R>, A: Plan<R>, B: Plan<R>, i: nat, c: R)
    requires Agree(P, A, B, i + 1) && i < |P.sets| && P.sets[i] == c && !Guard(P, c)
    ensures Agree(P, A, B, i)
  {
    forall n | n in P.graph ensures SameNode(P, A, B, i, n) {
      assert SameNode(P, A, B, i + 1, n);
    }
  }

  /** One visit per edge of a pending co-group, in either plan. */
  lemma SameVisits<R>(d: Node<R>, e: Node<R>, k: nat, p: R, c: R, s: R)
    requires DualInput(e.identifier) && e.other == Some(s) && d == e.(other := d.other)
    requires k == One(e.parent == Some(c)) + One(e.other == Some(c))
    ensures c == s ==> Adopted(d, k, p, c) == Adopted(e, k, p, c)
    ensures c != s ==>
            Adopted(d, k, p, c) == Adopted(e, k, p, c).(other := d.other) && Adopted(e, k, p, c).other == e.other
  {
  }

  /** The parent that a set is merged into may itself be pending, but not on that set. */
  lemma ParentStaysPending<R>(P: Plan<R>, B: Plan<R>, i: nat, p: R, c: R)
    requires WellFormed(B) && Mergeable(B, p, c) && p in B.sets && p in B.graph && Rank(P.sets, c) == i + 1
    requires Pending(P, p, i + 1) && B.graph[p].other == CoGroupOther(P, p)
    ensures Pending(P, p, i)
  {
    FusedFacts(B, p, c);
    assert SetOk(B, p);
    if Rank(P.sets, CoGroupOther(P, p).value) == i + 1 {
      SameRank(P.sets, c, CoGroupOther(P, p).value);
    }
  }

  lemma SameRank<R>(sets: seq<R>, a: R, b: R)
    requires Rank(sets, a) == Rank(sets, b) > 0
    ensures a == b
  {
  }

  /** A node that differs, other than the parent. */
  lemma DifferingNode<R>(P: Plan<R>, A: Plan<R>, B: Plan<R>, i: nat, p: R, c: R, n: R)
    requires WellFormed(B) && Mergeable(B, p, c) && Rank(P.sets, c) == i + 1
    requires A.graph.Keys == B.graph.Keys && n in A.graph && n != p && p in A.graph && A.graph[c] == B.graph[c]
    requires A.broadcast == B.broadcast && A.graph[n] != B.graph[n] && SameNode(P, A, B, i + 1, n)
    ensures SameMergedNode(P, A, B, i, p, c, n)
  {
    assert n in B.sets && c in Ops(B) && n in Ops(B) && EdgeOk(B, c, n) && OutEdgesOk(B, c);
    SameVisits(A.graph[n], B.graph[n], multiset(B.graph[c].children)[n], p, c, CoGroupOther(P, n).value);
  }

  ghost predicate SameMergedNode<R>(P: Plan<R>, A: Plan<R>, B: Plan<R>, i: nat, p: R, c: R, n: R)
    requires p in A.graph && c in A.graph && n in A.graph && A.graph.Keys == B.graph.Keys
  {
    var d, e := MergedNode(A, p, c, n), MergedNode(B, p, c, n);
    || d == e
    || (&& Pending(P, n, i) && d == e.(other := d.other)
        && e.other == CoGroupOther(P, n) && e.identifier == CoGroup && n in B.sets)
  }

  lemma AgreeMergedNode<R>(P: Plan<R>, A: Plan<R>, B: Plan<R>, i: nat, p: R, c: R, n: R)
    requires Agree(P, A, B, i + 1) && Rank(P.sets, c) == i + 1
    requires WellFormed(B) && Mergeable(B, p, c) && p in P.graph && n in P.graph && c in P.graph
    ensures A.graph.Keys == P.graph.Keys == B.graph.Keys && SameMergedNode(P, A, B, i, p, c, n)
  {
    assert SameNode(P, A, B, i + 1, n) && SameNode(P, A, B, i + 1, c) && SameNode(P, A, B, i + 1, p);
    assert A.graph[c] == B.graph[c];
    if A.graph[n] != B.graph[n] {
      if n == p {
        ParentStaysPending(P, B, i, p, c);
      } else {
        DifferingNode(P, A, B, i, p, c, n);
      }
    }
  }

  lemma {:induction false} SameRemoval<R>(g: Graph<R>, h: Graph<R>, sets: seq<R>, id: int)
    requires g.Keys == h.Keys && forall n :: n in g ==> g[n].id == h[n].id
    ensures RemoveId(g, sets, id) == RemoveId(h, sets, id)
  {
    if sets != [] {
      SameRemoval(g, h, sets[..|sets| - 1], id);
    }
  }

  lemma AgreeOnSets<R>(P: Plan<R>, A: Plan<R>, B: Plan<R>, x: nat)
    requires Agree(P, A, B, x)
    ensures A.sets == B.sets && A.graph.Keys == B.graph.Keys && forall n :: n in A.graph ==>
            A.graph[n].id == B.graph[n].id
  {
    forall n | n in A.graph ensures A.graph[n].id == B.graph[n].id {
      assert SameNode(P, A, B, x, n);
    }
  }

  lemma SameMergedSets<R>(A: Plan<R>, B: Plan<R>, p: R, c: R)
    requires Runnable(A) && Mergeable(A, p, c) && Runnable(B) && Mergeable(B, p, c) && p in A.graph && p in B.graph
    requires A.sets == B.sets && A.graph.Keys == B.graph.Keys && forall n :: n in A.graph ==>
             A.graph[n].id == B.graph[n].id
    ensures Merge(A, p, c).sets == Merge(B, p, c).sets
  {
    var g, h := MergedGraph(A, p, c), MergedGraph(B, p, c);
    forall n | n in A.graph ensures g[n].id == h[n].id {
      MergedIds(A, p, c, n);
      MergedIds(B, p, c, n);
    }
    SameRemoval(g, h, A.sets, g[c].id);
  }

  lemma AgreeMerge<R>(P: Plan<R>, A: Plan<R>, B: Plan<R>, A': Plan<R>, B': Plan<R>, i: nat, p: R, c: R)
    requires Agree(P, A, B, i + 1) && Rank(P.sets, c) == i + 1
    requires WellFormed(B) && Mergeable(B, p, c) && p in P.graph
    requires IsMerged(A, A', p, c) && IsMerged(B, B', p, c) && A'.sets == B'.sets
    ensures Agree(P, A', B', i)
  {
    forall n | n in P.graph ensures SameNode(P, A', B', i, n) {
      AgreeMergedNode(P, A, B, i, p, c, n);
      StillSet(B, B', p, c, n);
    }
  }

  lemma StillSet<R>(B: Plan<R>, B': Plan<R>, p: R, c: R, n: R)
    requires WellFormed(B) && Mergeable(B, p, c) && IsMerged(B, B', p, c) && n in B.graph
    ensures n in B.sets && MergedNode(B, p, c, n).identifier == CoGroup ==> n in B'.sets
  {
  }

  /** One iteration of the pass, as far as the node by node description of a merge goes. */
  ghost predicate Iterated<R>(A: Plan<R>, A': Plan<R>, c: R) {
    if Guard(A, c) then c in A.sets && IsMerged(A, A', A.graph[c].parent.value, c) else A' == A
  }

  lemma TryMergeIsIterated<R>(A: Plan<R>, A': Plan<R>, c: R)
    requires Runnable(A) && c in A.sets && A' == TryMerge(A, c)
    ensures Iterated(A, A', c) && Runnable(A')
  {
    if Guard(A, c) {
      MergeIsMerged(A, A.graph[c].parent.value, c);
      MergeKeepsRunnable(A, A.graph[c].parent.value, c);
    }
  }

  lemma SameSetsIterated<R>(P: Plan<R>, A: Plan<R>, B: Plan<R>, A': Plan<R>, B': Plan<R>, x: nat, c: R)
    requires Agree(P, A, B, x) && Runnable(A) && Runnable(B) && c in A.sets && c in B.sets && c in P.graph
    requires A' == TryMerge(A, c) && B' == TryMerge(B, c)
    ensures A'.sets == B'.sets
  {
    AgreeOnGuard(P, A, B, x, c);
    AgreeOnSets(P, A, B, x);
    if Guard(A, c) {
      SameMergedSets(A, B, A.graph[c].parent.value, c);
    }
  }

  lemma AgreeIterated<R>(P: Plan<R>, A: Plan<R>, B: Plan<R>, A': Plan<R>, B': Plan<R>, i: nat, c: R)
    requires i < |P.sets| && NoDuplicates(P.sets) && c == P.sets[i] && c in P.graph
    requires Agree(P, A, B, i + 1) && WellFormed(B) && c in B.sets && (Guard(B, c) <==> Guard(P, c))
    requires Iterated(A, A', c) && Iterated(B, B', c) && A'.sets == B'.sets
    ensures Agree(P, A', B', i)
  {
    AgreeOnGuard(P, A, B, i + 1, c);
    if Guard(B, c) {
      RankAt(P.sets, i);
      AgreeMerge(P, A, B, A', B', i, B.graph[c].parent.value, c);
    } else {
      AgreeIdle(P, A, B, i, c);
    }
  }

  /** One iteration of the pass on both plans. */
  lemma AgreeStep<R>(P: Plan<R>, A: Plan<R>, B: Plan<R>, A': Plan<R>, B': Plan<R>, i: nat, c: R)
    requires i < |P.sets| && NoDuplicates(P.sets) && c == P.sets[i] && c in P.graph
    requires Agree(P, A, B, i + 1) && Runnable(A) && WellFormed(B) && c in A.sets && c in B.sets
    requires Guard(B, c) <==> Guard(P, c)
    requires A' == TryMerge(A, c) && B' == TryMerge(B, c)
    ensures Agree(P, A', B', i) && Runnable(A')
  {
    WellFormedIsRunnable(B);
    TryMergeIsIterated(A, A', c);
    TryMergeIsIterated(B, B', c);
    SameSetsIterated(P, A, B, A', B', i + 1, c);
    AgreeIterated(P, A, B, A', B', i, c);
  }

  /** `ta` are the plans that the pass goes through from `P`, and `tb` those from the repaired plan. */
  ghost predicate BothPasses<R>(P: Plan<R>, ta: seq<Plan<R>>, tb: seq<Plan<R>>) {
    && |ta| == |P.sets| + 1 == |tb| && Trace(ta) && Trace(tb)
    && forall i {:trigger Tried(i)} :: 0 <= i < |P.sets| && Tried(i) ==>
         WellFormed(tb[i + 1]) && PassPoint(Repaired(P), tb[i + 1], i)
  }

  lemma StepOfBoth<R>(P: Plan<R>, ta: seq<Plan<R>>, tb: seq<Plan<R>>, i: nat, c: R)
    requires BothPasses(P, ta, tb) && i < |P.sets| && P.sets[i] == c && ta[i + 1].sets == tb[i + 1].sets
    ensures ta[i] == TryMerge(ta[i + 1], c) && tb[i] == TryMerge(tb[i + 1], c)
    ensures WellFormed(tb[i + 1]) && c in tb[i + 1].sets && (Guard(tb[i + 1], c) <==> Guard(P, c))
  {
    StepOfTrace(ta, i);
    StepOfTrace(tb, i);
    assert Tried(i) && PassPoint(Repaired(P), tb[i + 1], i);
    SameGuard(P, c);
  }

  lemma AgreeFrom<R>(P: Plan<R>, ta: seq<Plan<R>>, tb: seq<Plan<R>>, i: nat, c: R)
    requires BothPasses(P, ta, tb) && i < |P.sets| && P.sets[i] == c
    requires NoDuplicates(P.sets) && c in P.graph && Agree(P, ta[i + 1], tb[i + 1], i + 1) && Runnable(ta[i + 1])
    ensures Agree(P, ta[i], tb[i], i) && Runnable(ta[i])
  {
    StepOfBoth(P, ta, tb, i, c);
    AgreeStep(P, ta[i + 1], tb[i + 1], ta[i], tb[i], i, c);
  }

  lemma {:induction false} AgreeAlong<R>(P: Plan<R>, ta: seq<Plan<R>>, tb: seq<Plan<R>>, i: nat)
    requires BothPasses(P, ta, tb) && i <= |P.sets|
    requires NoDuplicates(P.sets) && forall n :: n in P.sets ==> n in P.graph
    requires Agree(P, ta[|P.sets|], tb[|P.sets|], |P.sets|) && Runnable(ta[|P.sets|])
    ensures Agree(P, ta[i], tb[i], i) && Runnable(ta[i])
    decreases |P.sets| - i
  {
    if i == |P.sets| {
    } else {
      AgreeAlong(P, ta, tb, i + 1);
      AgreeFrom(P, ta, tb, i, P.sets[i]);
    }
  }

  lemma BothAgree<R>(P: Plan<R>, counter: int, ta: seq<Plan<R>>, tb: seq<Plan<R>>)
    requires Built(P, counter) && BothPasses(P, ta, tb) && ta[|P.sets|] == P && tb[|P.sets|] == Repaired(P)
    ensures forall i :: 0 <= i <= |P.sets| ==> Agree(P, ta[i], tb[i], i)
  {
    BuiltIsRunnable(P, counter);
    AgreeAtStart(P, counter);
    forall n | n in P.sets ensures n in P.graph {
      assert n in Ops(P);
    }
    forall i | 0 <= i <= |P.sets| ensures Agree(P, ta[i], tb[i], i) {
      AgreeAlong(P, ta, tb, i);
    }
  }

  /** The pass over a built plan beside that over the repaired one. */
  lemma FollowBoth<R>(P: Plan<R>, counter: int, ta: seq<Plan<R>>) returns (tb: seq<Plan<R>>)
    requires Built(P, counter) && Trace(ta) && |ta| == |P.sets| + 1 && ta[|P.sets|] == P
    ensures BothPasses(P, ta, tb) && tb[|P.sets|] == Repaired(P)
    ensures forall i :: 0 <= i <= |P.sets| ==> Agree(P, ta[i], tb[i], i)
  {
    RepairedIsWellFormed(P, counter);
    tb := FollowPass(Repaired(P));
    BothAgree(P, counter, ta, tb);
  }

  lemma AgreeAtEnd<R>(P: Plan<R>, A: Plan<R>, B: Plan<R>)
    requires Agree(P, A, B, 0)
    ensures A == B
  {
    forall n | n in P.graph ensures A.graph[n] == B.graph[n] {
      assert SameNode(P, A, B, 0, n);
      if Misdirected(P, n) {
        assert CoGroupOther(P, n).value in P.sets;
      }
    }
    SameGraph(A.graph, B.graph);
  }

  /** MAIN: on every plan that a program builds, the pass merges exactly the sets that pass the guard in the
      plan as built, and gives the plan that it would give if misdirected co-groups read the data set they
      were built with instead of its key map. */
  lemma PassOfBuilt<R>(P: Plan<R>, counter: int)
    requires Built(P, counter)
    ensures WellFormed(Repaired(P)) && Fresh(Repaired(P)) && Fused(Repaired(P)) == Fused(P)
    ensures Pass(P) == Rewritten(Repaired(P), Fused(P)) == Pass(Repaired(P)) && WellFormed(Pass(P))
  {
    RepairedIsWellFormed(P, counter);
    SameFused(P);
    BuiltIsRunnable(P, counter);
    var ta := PassTrace(P, |P.sets|);
    var tb := FollowBoth(P, counter, ta);
    AgreeAtEnd(P, ta[0], tb[0]);
    TraceEndsInPass(ta, |P.sets|);
    TraceEndsInPass(tb, |P.sets|);
    PassIsRewritten(Repaired(P));
  }

  // ---------------------------------------------------------------------------------------------
  // What holds of every built plan
  // ---------------------------------------------------------------------------------------------

  /** The operation in whose chain `n` runs after the pass. */
  ghost function Runner<R>(P: Plan<R>, n: R): (h: R)
    requires Closed(P)
    ensures h !in Fused(P)
    ensures n in Ops(P) ==> h in Ops(P)
    ensures Rank(P.sets, h) <= Rank(P.sets, n)
    decreases Rank(P.sets, n)
  {
    if n in Fused(P) then
      assert SetOk(P, n);
      Runner(P, P.graph[n].parent.value)
    else n
  }

  lemma {:induction false} RunnerIsHead<R>(P: Plan<R>, counter: int, Q: Plan<R>, n: R)
    requires Built(P, counter) && Q == Repaired(P) && Merges(Q, Fused(P))
    ensures Runner(P, n) == Head(Q, Fused(P), n)
    decreases Rank(P.sets, n)
  {
    if n in Fused(P) {
      assert SetOk(P, n);
      RunnerIsHead(P, counter, Q, P.graph[n].parent.value);
    }
  }

  /** MAIN: a second pass over a built plan changes nothing. */
  lemma BuiltFixpoint<R>(P: Plan<R>, counter: int)
    requires Built(P, counter)
    ensures Pass(Pass(P)) == Pass(P)
  {
    PassOfBuilt(P, counter);
    PassIsFixpoint(Repaired(P));
  }

  /** MAIN: every operation of a built plan lies on the chain of one surviving operation and of no other. */
  lemma OneChainEach<R>(P: Plan<R>, counter: int, n: R, h: R)
    requires Built(P, counter) && n in Ops(P) && h in Ops(Pass(P))
    ensures Runner(P, n) in Ops(Pass(P))
    ensures n in ChainFrom(Pass(P).graph, h) <==> h == Runner(P, n)
  {
    var Q := Repaired(P);
    PassOfBuilt(P, counter);
    SurvivorsMembers(P.sets, Fused(P), h);
    SurvivorsMembers(P.sets, Fused(P), Runner(P, n));
    RunnerIsHead(P, counter, Q, n);
    OptimisedChain(Q, Fused(P), h);
    ExactlyOneChain(Q, n, h);
  }

  /** The chains of the given heads, one after the other. */
  ghost function AllChains<R>(g: Graph<R>, heads: seq<R>): seq<R> {
    if heads == [] then [] else AllChains(g, heads[..|heads| - 1]) + ChainFrom(g, heads[|heads| - 1])
  }

  lemma {:induction false} AllChainsAreLinks<R>(Q: Plan<R>, M: set<R>, g: Graph<R>, heads: seq<R>)
    requires Merges(Q, M) && g == Rewritten(Q, M).graph && forall i :: 0 <= i < |heads| ==> heads[i] in Ops(Q)
    ensures AllChains(g, heads) == AllLinks(Q, M, heads)
  {
    if heads != [] {
      AllChainsAreLinks(Q, M, g, heads[..|heads| - 1]);
      OptimisedChain(Q, M, heads[|heads| - 1]);
    }
  }

  /** MAIN: the chains of the surviving sets of a built plan hold every original set exactly once. */
  lemma BuiltLosesNothing<R>(P: Plan<R>, counter: int)
    requires Built(P, counter)
    ensures multiset(AllChains(Pass(P).graph, Pass(P).sets)) == multiset(P.sets)
    ensures |AllChains(Pass(P).graph, Pass(P).sets)| == |P.sets|
  {
    var Q := Repaired(P);
    PassOfBuilt(P, counter);
    NoOperatorLost(Q);
    AllChainsAreLinks(Q, Fused(P), Pass(P).graph, Pass(P).sets);
  }

  lemma FusedAreRemoved<R>(P: Plan<R>, counter: int, n: R)
    requires Built(P, counter) && n in P.sets
    ensures n !in Pass(P).sets <==> Guard(P, n)
  {
    PassOfBuilt(P, counter);
    SurvivorsMembers(P.sets, Fused(P), n);
  }

  /** MAIN: the pass over a built plan removes a set if and only if it is a map, filter or flat map whose
      parent has an operator, one child and no sinks, in the plan as built. */
  lemma RemovedIff<R>(P: Plan<R>, counter: int, n: R)
    requires Built(P, counter) && n in P.sets
    ensures n in P.graph && P.graph[n].parent.Some? && P.graph[n].parent.value in P.graph
    ensures var d, p := P.graph[n], P.graph[P.graph[n].parent.value];
            n !in Pass(P).sets <==>
            (d.identifier == Map || d.identifier == Filter || d.identifier == FlatMap) && p.operator.Some? &&
            |p.children| == 1 && |p.sinks| == 0
  {
    BroadcastGuardIsVacuous(P, n);
    FusedAreRemoved(P, counter, n);
  }

  // ---------------------------------------------------------------------------------------------
  // The second input of a co-group
  // ---------------------------------------------------------------------------------------------

  /** The second input of a set that is not merged. */
  lemma SecondInputAfter<R>(Q: Plan<R>, M: set<R>, m: R)
    requires Merges(Q, M) && m in Q.sets && m in Q.graph && m !in M
    ensures m in Rewritten(Q, M).graph && Rewritten(Q, M).graph[m].other == HeadOf(Q, M, Q.graph[m].other)
  {
    assert m in Ops(Q);
  }

  lemma CoGroupIsNotMerged<R>(P: Plan<R>, counter: int, m: R, s: R)
    requires Built(P, counter) && m in P.sets && m in P.graph && CoGroupOther(P, m) == Some(s)
    ensures m !in Fused(P) && (Misdirected(P, m) <==> Guard(P, s))
  {
    CoGroupOtherOk(P, counter, m);
    assert s in P.sources ==> SourceOk(P, s);
  }

  lemma SecondInputOfRepaired<R>(P: Plan<R>, counter: int, Q: Plan<R>, m: R, s: R, k: R)
    requires Built(P, counter) && Q == Repaired(P) && Merges(Q, Fused(P))
    requires m in P.sets && m in P.graph && CoGroupOther(P, m) == Some(s) && P.graph[m].other == Some(k)
    ensures HeadOf(Q, Fused(P), Q.graph[m].other) == (if Guard(P, s) then Some(Runner(P, s)) else Some(k))
    ensures Runner(P, s) != k
  {
    CoGroupIsNotMerged(P, counter, m, s);
    SourceListsBoth(P, counter, m);
    KeyMapStays(P, counter, m);
    RunnerIsHead(P, counter, Q, s);
    RunnerIsHead(P, counter, Q, k);
  }

  /** MAIN: a co-group of a built plan still reads its key map after the pass if and only if the data set it
      was built with does not pass the guard. If it does, the co-group reads, instead of the key map, the
      operation that the data set was merged into. */
  lemma CoGroupKeepsInputIff<R>(P: Plan<R>, counter: int, m: R)
    requires Built(P, counter) && m in P.sets && m in P.graph && P.graph[m].identifier == CoGroup
    ensures P.graph[m].other.Some? && CoGroupOther(P, m).Some? && m in Pass(P).graph
    ensures var s := CoGroupOther(P, m).value;
            && (Pass(P).graph[m].other == P.graph[m].other <==> !Guard(P, s))
            && (Guard(P, s) ==> Pass(P).graph[m].other == Some(Runner(P, s)))
  {
    CoGroupOtherOk(P, counter, m);
    SourceListsBoth(P, counter, m);
    CoGroupIsNotMerged(P, counter, m, CoGroupOther(P, m).value);
    PassOfBuilt(P, counter);
    SecondInputAfter(Repaired(P), Fused(P), m);
    SecondInputOfRepaired(P, counter, Repaired(P), m, CoGroupOther(P, m).value, P.graph[m].other.value);
  }

  /** The effect of a merge by itself: when a set with a stale child is merged, the second input of that child
      is overwritten, whatever it was. */
  lemma StaleChildIsMisdirected<R>(P: Plan<R>, Q: Plan<R>, p: R, c: R, n: R)
    requires Runnable(P) && IsMerged(P, Q, p, c) && n in P.sets && n in P.graph && DualInput(P.graph[n].identifier)
    requires n in P.graph[c].children && P.graph[n].parent != Some(c)
    ensures n in Q.graph && Q.graph[n].other == Some(p)
  {
    assert c in Ops(P) && p in Ops(P) && n in Ops(P) && OutEdgesOk(P, c) && SetOk(P, c);
    assert Rank(P.sets, p) < Rank(P.sets, c) < Rank(P.sets, n);
    assert Q.graph[n] == MergedNode(P, p, c, n);
  }

  lemma ChainedAgrees<R>(P: Plan<R>, A: Plan<R>, B: Plan<R>, x: nat, c: R)
    requires Agree(P, A, B, x) && c in P.graph && c in B.graph
    requires Guard(B, c) ==> B.graph[B.graph[c].parent.value].chained == None
    ensures Guard(A, c) ==> A.graph[A.graph[c].parent.value].chained == None
  {
    AgreeOnGuard(P, A, B, x, c);
    if Guard(A, c) {
      assert SameNode(P, A, B, x, A.graph[c].parent.value);
    }
  }

  lemma ChainedAt<R>(P: Plan<R>, ta: seq<Plan<R>>, tb: seq<Plan<R>>, i: nat, A: Plan<R>, c: R)
    requires BothPasses(P, ta, tb) && i < |P.sets| && c == P.sets[i] && c in P.graph && A == ta[i + 1]
    requires Agree(P, A, tb[i + 1], i + 1)
    ensures i < |A.sets| && A.sets[i] == c
    ensures Guard(A, c) ==> A.graph[A.graph[c].parent.value].chained == None
  {
    assert Tried(i) && PassPoint(Repaired(P), tb[i + 1], i);
    ChainedAgrees(P, A, tb[i + 1], i + 1, c);
  }

  /** MAIN: whenever the pass over a built plan merges a set, nothing was chained to its parent before. */
  lemma NothingChainedBefore<R>(P: Plan<R>, counter: int, tr: seq<Plan<R>>, i: nat)
    requires Built(P, counter) && Trace(tr) && i < |P.sets| && |tr| == |P.sets| + 1 && tr[|P.sets|] == P
    ensures i < |tr[i + 1].sets|
    ensures var A, c := tr[i + 1], tr[i + 1].sets[i]; Guard(A, c) ==> A.graph[A.graph[c].parent.value].chained == None
  {
    var tb := FollowBoth(P, counter, tr);
    assert P.sets[i] in Ops(P);
    ChainedAt(P, tr, tb, i, tr[i + 1], P.sets[i]);
  }
}
