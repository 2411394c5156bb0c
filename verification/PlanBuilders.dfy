/** How a program builds its plan, operation by operation, and which of the requirements of the chaining
    pass every built plan meets. */
module PlanBuilders {
  import opened Common
  import opened PlanGraph
  import opened ChainStep
  import opened Chains

  // ---------------------------------------------------------------------------------------------
  // The building steps
  // ---------------------------------------------------------------------------------------------

  /** What a new operation is given. */
  datatype Info = Info(identifier: Identifier, operator: Option<nat>, name: string, types: int)

  function NewNode<R>(id: int, info: Info, parent: Option<R>, other: Option<R>): Node<R> {
    Node(id, info.identifier, parent, other, info.operator, [], [], [], None, info.name, info.types)
  }

  function AddChild<R>(g: Graph<R>, q: R, n: R): (r: Graph<R>)
    requires q in g
    ensures r.Keys == g.Keys
  {
    g[q := g[q].(children := g[q].children + [n])]
  }

  function AddSource<R>(P: Plan<R>, n: R, id: int, info: Info): Plan<R> {
    P.(graph := P.graph[n := NewNode(id, info, None, None)], sources := P.sources + [n])
  }

  /** An operation with one input `q`. */
  function AddSet<R>(P: Plan<R>, n: R, id: int, info: Info, q: R): Plan<R>
    requires q in P.graph
  {
    P.(graph := AddChild(P.graph[n := NewNode(id, info, Some(q), None)], q, n), sets := P.sets + [n])
  }

  /** A union or a cross of `q` with `q'`. */
  function AddDual<R>(P: Plan<R>, n: R, id: int, info: Info, q: R, q': R): Plan<R>
    requires q in P.graph && q' in P.graph
  {
    P.(graph := AddChild(AddChild(P.graph[n := NewNode(id, info, Some(q), Some(q'))], q, n), q', n),
      sets := P.sets + [n])
  }

  function AddSink<R>(P: Plan<R>, s: R, id: int, info: Info, q: R): Plan<R>
    requires q in P.graph
  {
    var g := P.graph[s := NewNode(id, info, Some(q), None)];
    P.(graph := g[q := g[q].(sinks := g[q].sinks + [s])], sinks := P.sinks + [s])
  }

  /** `n` reads `q` as the broadcast variable `name`; the operation for it gets no id. */
  function AddBroadcast<R>(P: Plan<R>, b: R, name: string, n: R, q: R): Plan<R>
    requires n in P.graph
  {
    var g := P.graph[b := NewNode(-1, Info(Broadcast, None, name, 0), Some(n), Some(q))];
    P.(graph := g[n := g[n].(bcvars := g[n].bcvars + [b])], broadcast := P.broadcast + [b])
  }

  /** A co-group with `q'` begins: the new operation becomes a child of `q'` at once. */
  function BeginCoGroup<R>(P: Plan<R>, n: R, q': R): Plan<R>
    requires q' in P.graph
  {
    P.(graph := AddChild(P.graph[n := NewNode(-1, Info(CoGroup, None, "", 0), None, None)], q', n))
  }

  /** The keys of the first input: a key map `k` of `q` becomes the input. */
  function Where<R>(P: Plan<R>, n: R, k: R, id: int, key: Info, q: R): Plan<R>
    requires q in P.graph
  {
    var P1 := AddSet(P, k, id, key, q);
    P1.(graph := AddChild(SetParent(P1.graph, n, k), k, n))
  }

  /** The keys of the second input: a key map `k'` of `q'` becomes the second input. */
  function EqualTo<R>(P: Plan<R>, n: R, k': R, id: int, key': Info, q': R): Plan<R>
    requires q' in P.graph
  {
    var P1 := AddSet(P, k', id, key', q');
    P1.(graph := AddChild(SetOther(P1.graph, n, k'), k', n))
  }

  /** The co-group function: only now the operation gets an id and is listed among the sets. */
  function Using<R>(P: Plan<R>, n: R, id: int, info: Info): Plan<R>
    requires n in P.graph
  {
    var node := P.graph[n].(id := id, operator := info.operator, name := info.name, types := info.types);
    P.(graph := P.graph[n := node], sets := P.sets + [n])
  }

  /** A co-group of `q` with `q'`. */
  function AddCoGroup<R>(P: Plan<R>, n: R, k: R, k': R, id: int, key: Info, key': Info, info: Info, q: R,
                         q': R): Plan<R>
    requires q in P.graph && q' in P.graph
  {
    Using(EqualTo(Where(BeginCoGroup(P, n, q'), n, k, id, key, q), n, k', id + 1, key', q'), n, id + 2, info)
  }

  // ---------------------------------------------------------------------------------------------
  // The building steps, spelled out
  // ---------------------------------------------------------------------------------------------

  lemma AddSetIs<R>(P: Plan<R>, n: R, id: int, info: Info, q: R)
    requires q in P.graph && n !in P.graph
    ensures var Q := AddSet(P, n, id, info, q);
            && n in Q.graph && q in Q.graph && Q.sets == P.sets + [n]
            && Q.graph[n] ==
               Node(id, info.identifier, Some(q), None, info.operator, [], [], [], None, info.name, info.types)
            && Q.graph[q].children == P.graph[q].children + [n]
  {
  }

  /** The receiver of a union, cross or join is the first input, its argument the second; the new operation
      becomes a child of both, and twice if they are the same. */
  lemma AddDualIs<R>(P: Plan<R>, n: R, id: int, info: Info, q: R, q': R)
    requires q in P.graph && q' in P.graph && n !in P.graph
    ensures var Q := AddDual(P, n, id, info, q, q');
            && n in Q.graph && q in Q.graph && q' in Q.graph && Q.sets == P.sets + [n]
            && Q.graph[n] ==
               Node(id, info.identifier, Some(q), Some(q'), info.operator, [], [], [], None, info.name, info.types)
            && Q.graph[q].children == P.graph[q].children + (if q == q' then [n, n] else [n])
            && (q != q' ==> Q.graph[q'].children == P.graph[q'].children + [n])
  {
    assert P.graph[q].children + [n] + [n] == P.graph[q].children + [n, n];
  }

  lemma AddSinkIs<R>(P: Plan<R>, s: R, id: int, info: Info, q: R)
    requires q in P.graph && s !in P.graph
    ensures var Q := AddSink(P, s, id, info, q);
            && s in Q.graph && q in Q.graph && Q.sinks == P.sinks + [s] && Q.sets == P.sets
            && Q.graph[s] ==
               Node(id, info.identifier, Some(q), None, info.operator, [], [], [], None, info.name, info.types)
            && Q.graph[q].sinks == P.graph[q].sinks + [s]
  {
  }

  /** A broadcast variable belongs to `n` and reads `q`; it gets no id of its own. */
  lemma AddBroadcastIs<R>(P: Plan<R>, b: R, name: string, n: R, q: R)
    requires n in P.graph && b !in P.graph
    ensures var Q := AddBroadcast(P, b, name, n, q);
            && b in Q.graph && n in Q.graph && Q.broadcast == P.broadcast + [b] && Q.sets == P.sets
            && Q.graph[b] == Node(-1, Broadcast, Some(n), Some(q), None, [], [], [], None, name, 0)
            && Q.graph[n].bcvars == P.graph[n].bcvars + [b] && Q.graph[n].children == P.graph[n].children
  {
  }

  /** Two inputs are what a plan that was built gives to joins, crosses, unions and co-groups, and to no other
      set. */
  lemma TwoInputsIff<R>(P: Plan<R>, counter: int, n: R)
    requires Built(P, counter) && n in P.sets
    ensures n in P.graph && P.graph[n].parent.Some?
    ensures P.graph[n].other.Some? <==>
            P.graph[n].identifier in {Join, JoinH, JoinT, Cross, CrossH, CrossT, CoGroup, Union}
  {
    assert n in Ops(P) && SetOk(P, n);
  }

  // ---------------------------------------------------------------------------------------------
  // What every built plan meets
  // ---------------------------------------------------------------------------------------------

  /** The data set that a co-group was built with second. What the co-group reads is a key map of it. */
  function CoGroupOther<R(==)>(P: Plan<R>, m: R): Option<R>
    requires m in P.graph
  {
    var d := P.graph[m];
    if d.identifier == CoGroup && d.other.Some? && d.other.value in P.graph then P.graph[d.other.value].parent else None
  }

  /** `m` is listed as a child of `x` once per input that is `x`, and once more if it is a co-group that
      was built with `x`. */
  ghost predicate Listed<R>(P: Plan<R>, x: R, m: R)
    requires x in P.graph && m in P.graph
  {
    multiset(P.graph[x].children)[m] ==
    One(P.graph[m].parent == Some(x)) + One(P.graph[m].other == Some(x)) + One(CoGroupOther(P, m) == Some(x))
  }

  /** The second input of a co-group is a set, namely a key map. */
  ghost predicate HasKeyMap<R>(P: Plan<R>, m: R)
    requires m in P.graph
  {
    var d := P.graph[m];
    d.identifier == CoGroup ==> d.other.Some? && d.other.value in P.sets && d.other.value in P.graph
  }

  ghost predicate Built<R>(P: Plan<R>, counter: int) {
    BuiltOk(P, counter) == true  // one fact
  }

  /** Every requirement of the chaining pass, except that each co-group is listed once too often; ids are
      below the counter, and nothing is chained. */
  ghost predicate BuiltOk<R>(P: Plan<R>, counter: int) {
    && Closed(P) && Fresh(P)
    && (forall n, m {:trigger Listed(P, n, m)} :: n in Ops(P) && m in P.sets ==> Listed(P, n, m))
    && (forall m {:trigger HasKeyMap(P, m)} :: m in P.sets ==> HasKeyMap(P, m))
    && SinkEdges(P) && BroadcastEdges(P)
    && (forall n :: n in P.sets && Chainable(P.graph[n].identifier) ==> P.graph[n].operator.Some?)
    && (forall n :: n in Ops(P) ==> P.graph[n].id < counter)
  }

  /** No set that passes the guard lists a child that does not read it. */
  ghost predicate FusedExactly<R>(P: Plan<R>)
    requires ListsOk(P)
  {
    forall n, m {:trigger ChildEdge(P, n, m)} :: n in Ops(P) && m in P.sets && Guard(P, n) ==> ChildEdge(P, n, m)
  }

  lemma CoGroupOtherOk<R>(P: Plan<R>, counter: int, m: R)
    requires Built(P, counter) && m in P.sets
    ensures m in P.graph && (CoGroupOther(P, m).Some? <==> P.graph[m].identifier == CoGroup)
    ensures CoGroupOther(P, m).Some? ==> CoGroupOther(P, m).value in Ops(P)
  {
    assert m in Ops(P) && SetOk(P, m) && HasKeyMap(P, m);
    if P.graph[m].identifier == CoGroup {
      assert SetOk(P, P.graph[m].other.value);
    }
  }

  /** Stale children are exactly the co-groups in the lists of the data sets they were built with. */
  lemma BuiltEdges<R>(P: Plan<R>, counter: int, x: R, m: R)
    requires Built(P, counter) && x in Ops(P) && m in P.sets
    ensures x in P.graph && m in P.graph && ChildListed(P, x, m)
    ensures ChildEdge(P, x, m) <==> CoGroupOther(P, m) != Some(x)
  {
    assert m in Ops(P) && SetOk(P, m) && Listed(P, x, m);
  }

  lemma BuiltIsRunnable<R>(P: Plan<R>, counter: int)
    requires Built(P, counter)
    ensures Runnable(P) && Fresh(P)
  {
    forall n, m | n in Ops(P) && m in P.sets ensures ChildListed(P, n, m) {
      BuiltEdges(P, counter, n, m);
    }
  }

  /** MAIN: a built plan meets the requirements of the chaining pass if and only if no set that passes
      its guard has a stale child. */
  lemma BuiltIsWellFormedIff<R>(P: Plan<R>, counter: int)
    requires Built(P, counter)
    ensures WellFormed(P) <==> FusedExactly(P)
  {
    if WellFormed(P) {
      forall n, m | n in Ops(P) && m in P.sets && Guard(P, n) ensures ChildEdge(P, n, m) {
        assert EdgeOk(P, n, m);
      }
    }
    if FusedExactly(P) {
      forall n, m | n in Ops(P) && m in P.sets ensures EdgeOk(P, n, m) {
        BuiltEdges(P, counter, n, m);
        assert Guard(P, n) ==> ChildEdge(P, n, m);
      }
    }
  }

  function Empty<R>(): Plan<R> {
    Plan(map[], [], [], [], [])
  }

  lemma EmptyIsBuilt<R>()
    ensures Built(Empty<R>(), 0)
  {
  }

  // ---------------------------------------------------------------------------------------------
  // A new set
  // ---------------------------------------------------------------------------------------------

  /** `Q` is `P` with one more set `n`, which was appended to the children of its inputs and perhaps to
      those of other nodes. */
  ghost predicate Extends<R>(P: Plan<R>, Q: Plan<R>, n: R) {
    && n !in P.graph && Q.graph.Keys == P.graph.Keys + {n}
    && Q.sources == P.sources && Q.sets == P.sets + [n] && Q.sinks == P.sinks && Q.broadcast == P.broadcast
    && (forall x :: x in P.graph ==> OnlyGained(P.graph[x], Q.graph[x], n))
  }

  ghost predicate OnlyGained<R>(d: Node<R>, e: Node<R>, n: R) {
    e == d.(children := e.children) && multiset(e.children) == multiset(d.children)[n := multiset(e.children)[n]]
  }

  lemma GainedMember<R>(d: Node<R>, e: Node<R>, n: R, m: R)
    requires OnlyGained(d, e, n) && m in e.children && m != n
    ensures m in d.children
  {
    assert m in multiset(e.children);
  }

  ghost predicate NewSetOk<R>(P: Plan<R>, Q: Plan<R>, n: R, counter: int)
    requires n in Q.graph
  {
    var d := Q.graph[n];
    && d.children == [] && d.sinks == [] && d.bcvars == [] && d.chained == None && d.id == counter
    && d.parent.Some? && d.parent.value in Ops(P)
    && (DualInput(d.identifier) <==> d.other.Some?) && (d.other.Some? ==> d.other.value in Ops(P))
    && (Chainable(d.identifier) ==> d.operator.Some?)
    && HasKeyMap(Q, n) && d.other != Some(n)
    && (forall x {:trigger Listed(Q, x, n)} :: x in Ops(P) ==> x in Q.graph && Listed(Q, x, n))
  }

  lemma RankExtended<R>(s: seq<R>, n: R, x: R)
    requires n !in s
    ensures Rank(s + [n], x) == if x == n then |s| + 1 else Rank(s, x)
  {
    assert (s + [n])[..|s|] == s;
  }

  lemma ExtendsClosed<R>(P: Plan<R>, Q: Plan<R>, n: R, counter: int)
    requires Built(P, counter) && Extends(P, Q, n) && NewSetOk(P, Q, n, counter)
    ensures Closed(Q)
  {
    assert n !in Ops(P) && n !in P.sinks && n !in P.broadcast;
    forall a, b | a in Ops(Q) && b in Ops(Q) ensures DistinctIds(Q, a, b) {
      assert a != n && b != n ==>
             DistinctIds(P, a, b) && OnlyGained(P.graph[a], Q.graph[a], n) && OnlyGained(P.graph[b], Q.graph[b], n);
    }
    forall x | x in Q.sources ensures SourceOk(Q, x) {
      assert x in Ops(P) && SourceOk(P, x) && OnlyGained(P.graph[x], Q.graph[x], n);
    }
    forall x | x in Q.sets ensures SetOk(Q, x) {
      ExtendsSetOk(P, Q, n, counter, x);
    }
    forall x | x in Ops(Q) ensures OutEdgesOk(Q, x) {
      if x != n {
        ExtendsOutEdges(P, Q, n, counter, x);
      }
    }
    forall b | b in Q.broadcast ensures Q.graph[b].other.Some? && Q.graph[b].other.value in Ops(Q) {
      assert OnlyGained(P.graph[b], Q.graph[b], n);
    }
  }

  lemma ExtendsSetOk<R>(P: Plan<R>, Q: Plan<R>, n: R, counter: int, x: R)
    requires Built(P, counter) && Extends(P, Q, n) && NewSetOk(P, Q, n, counter) && x in Q.sets && x in Q.graph
    ensures SetOk(Q, x)
  {
    assert n !in Ops(P);
    if x == n {
      RankExtended(P.sets, n, n);
      RankExtended(P.sets, n, Q.graph[n].parent.value);
      if Q.graph[n].other.Some? {
        RankExtended(P.sets, n, Q.graph[n].other.value);
      }
    } else {
      assert x in P.sets && x in Ops(P) && SetOk(P, x) && OnlyGained(P.graph[x], Q.graph[x], n);
      RankExtended(P.sets, n, x);
      RankExtended(P.sets, n, P.graph[x].parent.value);
      if P.graph[x].other.Some? {
        RankExtended(P.sets, n, P.graph[x].other.value);
      }
    }
  }

  lemma ExtendsOutEdges<R>(P: Plan<R>, Q: Plan<R>, n: R, counter: int, x: R)
    requires Built(P, counter) && Extends(P, Q, n) && NewSetOk(P, Q, n, counter) && x in Ops(P) && x in Q.graph
    ensures OutEdgesOk(Q, x)
  {
    assert n !in Ops(P);
    assert OutEdgesOk(P, x) && OnlyGained(P.graph[x], Q.graph[x], n);
    RankExtended(P.sets, n, x);
    forall m | m in Q.graph[x].children ensures m in Q.sets && Rank(Q.sets, x) < Rank(Q.sets, m) {
      RankExtended(P.sets, n, m);
      if m != n {
        GainedMember(P.graph[x], Q.graph[x], n, m);
      }
    }
  }

  /** What a co-group of `P` was built with stays. */
  lemma ExtendsCoGroup<R>(P: Plan<R>, Q: Plan<R>, n: R, counter: int, m: R)
    requires Built(P, counter) && Extends(P, Q, n) && m in P.sets
    ensures m in P.graph && m in Q.graph && CoGroupOther(Q, m) == CoGroupOther(P, m) && HasKeyMap(Q, m)
    ensures CoGroupOther(P, m) != Some(n)
  {
    assert m in Ops(P) && HasKeyMap(P, m) && OnlyGained(P.graph[m], Q.graph[m], n);
    CoGroupOtherOk(P, counter, m);
    assert n !in Ops(P);
    if P.graph[m].identifier == CoGroup {
      var k := P.graph[m].other.value;
      assert OnlyGained(P.graph[k], Q.graph[k], n);
    }
  }

  lemma ExtendsListed<R>(P: Plan<R>, Q: Plan<R>, n: R, counter: int, x: R, m: R)
    requires Built(P, counter) && Extends(P, Q, n) && NewSetOk(P, Q, n, counter)
    requires x in Ops(Q) && m in Q.sets
    ensures x in Q.graph && m in Q.graph && Listed(Q, x, m)
  {
    assert n !in Ops(P) && (m != n ==> m in P.sets && m in Ops(P));
    if m == n {
      if x == n {
        NotItsOwnSource(P, Q, n, counter);
      }
    } else {
      ExtendsCoGroup(P, Q, n, counter, m);
      assert SetOk(P, m) && OnlyGained(P.graph[m], Q.graph[m], n);
      if x != n {
        assert Listed(P, x, m) && OnlyGained(P.graph[x], Q.graph[x], n);
      }
    }
  }

  lemma NotItsOwnSource<R>(P: Plan<R>, Q: Plan<R>, n: R, counter: int)
    requires Built(P, counter) && Extends(P, Q, n) && NewSetOk(P, Q, n, counter)
    ensures n in Q.graph && CoGroupOther(Q, n) != Some(n) && Listed(Q, n, n)
  {
    assert n !in Ops(P);
    var d := Q.graph[n];
    if d.identifier == CoGroup {
      var k := d.other.value;
      assert k in P.sets && k in Ops(P) && SetOk(P, k) && OnlyGained(P.graph[k], Q.graph[k], n);
    }
  }

  /** A new set keeps everything that the pass needs. */
  lemma ExtendsKeepsBuilt<R>(P: Plan<R>, Q: Plan<R>, n: R, counter: int)
    requires Built(P, counter) && Extends(P, Q, n) && NewSetOk(P, Q, n, counter)
    ensures Built(Q, counter + 1)
  {
    ExtendsClosed(P, Q, n, counter);
    forall x, m | x in Ops(Q) && m in Q.sets ensures Listed(Q, x, m) {
      ExtendsListed(P, Q, n, counter, x, m);
    }
    forall m | m in Q.sets ensures HasKeyMap(Q, m) {
      if m != n {
        ExtendsCoGroup(P, Q, n, counter, m);
      }
    }
    forall x | x in Q.graph ensures Q.graph[x].chained.None? {
      assert x != n ==> OnlyGained(P.graph[x], Q.graph[x], n);
    }
    ExtendsOtherEdges(P, Q, n, counter);
    forall x | x in Q.sets && Chainable(Q.graph[x].identifier) ensures Q.graph[x].operator.Some? {
      assert x != n ==> OnlyGained(P.graph[x], Q.graph[x], n);
    }
    forall x | x in Ops(Q) ensures Q.graph[x].id < counter + 1 {
      assert x != n ==> x in Ops(P) && OnlyGained(P.graph[x], Q.graph[x], n);
    }
  }

  lemma ExtendsOtherEdges<R>(P: Plan<R>, Q: Plan<R>, n: R, counter: int)
    requires Built(P, counter) && Extends(P, Q, n) && NewSetOk(P, Q, n, counter) && ListsOk(Q)
    ensures SinkEdges(Q) && BroadcastEdges(Q)
  {
    assert forall x :: x in P.graph ==> OnlyGained(P.graph[x], Q.graph[x], n);
    assert n !in Ops(P) && n !in P.sinks && n !in P.broadcast;
    forall x, s | x in Ops(Q) && s in Q.graph[x].sinks && s in Q.graph ensures Q.graph[s].parent == Some(x) {
      assert x in Ops(P) && OutEdgesOk(P, x) && s in P.sinks;
    }
    forall x, b | x in Q.sets && b in Q.graph[x].bcvars && b in Q.graph ensures Q.graph[b].parent == Some(x) {
      assert x in Ops(P) && OutEdgesOk(P, x) && b in P.broadcast;
    }
  }

  // ---------------------------------------------------------------------------------------------
  // Every building step
  // ---------------------------------------------------------------------------------------------

  lemma ChildAppended<R>(d: Node<R>, n: R)
    ensures OnlyGained(d, d.(children := d.children + [n]), n)
    ensures multiset(d.children + [n])[n] == multiset(d.children)[n] + 1
  {
  }

  lemma NotYetListed<R>(P: Plan<R>, counter: int, x: R, n: R)
    requires Built(P, counter) && n !in P.graph && x in Ops(P)
    ensures x in P.graph && multiset(P.graph[x].children)[n] == 0
  {
    assert OutEdgesOk(P, x);
    assert n in P.graph[x].children ==> n in Ops(P);
  }

  /** MAIN: an operation with one input, such as a map, keeps a built plan built. */
  lemma AddSetKeepsBuilt<R>(P: Plan<R>, n: R, counter: int, info: Info, q: R)
    requires Built(P, counter) && n !in P.graph && q in Ops(P)
    requires !DualInput(info.identifier) && (Chainable(info.identifier) ==> info.operator.Some?)
    ensures q in P.graph && Built(AddSet(P, n, counter, info, q), counter + 1)
  {
    assert n !in Ops(P);
    var Q := AddSet(P, n, counter, info, q);
    ChildAppended(P.graph[q], n);
    forall x | x in Ops(P) ensures x in Q.graph && Listed(Q, x, n) {
      NotYetListed(P, counter, x, n);
    }
    ExtendsKeepsBuilt(P, Q, n, counter);
  }

  /** The operations with two inputs that are listed exactly: joins, crosses and unions. */
  predicate IsCombination(i: Identifier) {
    DualInput(i) && i != CoGroup
  }

  lemma DualExtends<R>(P: Plan<R>, n: R, counter: int, info: Info, q: R, q': R)
    requires Built(P, counter) && n !in P.graph && q in Ops(P) && q' in Ops(P) && q in P.graph && q' in P.graph
    ensures Extends(P, AddDual(P, n, counter, info, q, q'), n)
  {
    ChildAppended(P.graph[q], n);
    ChildAppended(P.graph[q'], n);
    ChildAppended(P.graph[q].(children := P.graph[q].children + [n]), n);
  }

  lemma DualIsListed<R>(P: Plan<R>, n: R, counter: int, info: Info, q: R, q': R, x: R)
    requires Built(P, counter) && n !in P.graph && q in Ops(P) && q' in Ops(P) && q in P.graph && q' in P.graph
    requires x in Ops(P) && IsCombination(info.identifier)
    ensures var Q := AddDual(P, n, counter, info, q, q'); x in Q.graph && n in Q.graph && Listed(Q, x, n)
  {
    assert n !in Ops(P);
    NotYetListed(P, counter, x, n);
    ChildAppended(P.graph[q], n);
    ChildAppended(P.graph[q'], n);
    ChildAppended(P.graph[q].(children := P.graph[q].children + [n]), n);
  }

  lemma DualNewSetOk<R>(P: Plan<R>, n: R, counter: int, info: Info, q: R, q': R)
    requires Built(P, counter) && n !in P.graph && q in Ops(P) && q' in Ops(P) && IsCombination(info.identifier)
    requires q in P.graph && q' in P.graph
    requires forall x {:trigger Listed(AddDual(P, n, counter, info, q, q'), x, n)} ::
               x in Ops(P) ==> Listed(AddDual(P, n, counter, info, q, q'), x, n)
    ensures NewSetOk(P, AddDual(P, n, counter, info, q, q'), n, counter)
  {
    assert n != q && n != q';
  }

  /** MAIN: so does a join, cross or union, even of a set with itself. */
  lemma AddDualKeepsBuilt<R>(P: Plan<R>, n: R, counter: int, info: Info, q: R, q': R)
    requires Built(P, counter) && n !in P.graph && q in Ops(P) && q' in Ops(P) && IsCombination(info.identifier)
    ensures q in P.graph && q' in P.graph && Built(AddDual(P, n, counter, info, q, q'), counter + 1)
  {
    assert n !in Ops(P) && q in P.graph && q' in P.graph;
    var Q := AddDual(P, n, counter, info, q, q');
    DualExtends(P, n, counter, info, q, q');
    forall x | x in Ops(P) ensures x in Q.graph && Listed(Q, x, n) {
      DualIsListed(P, n, counter, info, q, q', x);
    }
    DualNewSetOk(P, n, counter, info, q, q');
    ExtendsKeepsBuilt(P, Q, n, counter);
  }

  // ---------------------------------------------------------------------------------------------
  // Sources, sinks and broadcast variables
  // ---------------------------------------------------------------------------------------------

  /** `Q` has one more node `s`, whose input, if any, is `q`: a source, a sink or a broadcast variable. */
  ghost predicate Attaches<R>(P: Plan<R>, Q: Plan<R>, s: R, q: Option<R>) {
    AttachesOk(P, Q, s, q) == true
  }

  ghost predicate AttachesOk<R>(P: Plan<R>, Q: Plan<R>, s: R, q: Option<R>) {
    && s !in P.graph && Q.graph.Keys == P.graph.Keys + {s} && Q.sets == P.sets
    && Q.graph[s].parent == q && Q.graph[s].chained.None?
    && (q.Some? ==> q.value in Ops(P) && q.value in P.graph)
    && (forall x :: x in P.graph && q != Some(x) ==> Q.graph[x] == P.graph[x])
    && (|| (IsNewSource(P, Q, s) && q.None?)
        || (q.Some? && IsNewSink(P, Q, s, q.value))
        || (q.Some? && IsNewBroadcast(P, Q, s, q.value)))
  }

  ghost predicate IsNewSource<R>(P: Plan<R>, Q: Plan<R>, s: R)
    requires s in Q.graph
  {
    && Q.sources == P.sources + [s] && Q.sinks == P.sinks && Q.broadcast == P.broadcast
    && SourceOk(Q, s) && Q.graph[s].children == [] && Q.graph[s].sinks == []
  }

  ghost predicate IsNewSink<R>(P: Plan<R>, Q: Plan<R>, s: R, q: R)
    requires q in P.graph && Q.graph.Keys == P.graph.Keys + {s}
  {
    && Q.sources == P.sources && Q.sinks == P.sinks + [s] && Q.broadcast == P.broadcast
    && Q.graph[q] == P.graph[q].(sinks := P.graph[q].sinks + [s])
  }

  ghost predicate IsNewBroadcast<R>(P: Plan<R>, Q: Plan<R>, s: R, q: R)
    requires q in P.graph && Q.graph.Keys == P.graph.Keys + {s}
  {
    && Q.sources == P.sources && Q.sinks == P.sinks && Q.broadcast == P.broadcast + [s]
    && Q.graph[q] == P.graph[q].(bcvars := P.graph[q].bcvars + [s])
    && q in P.sets && Q.graph[s].other.Some? && Q.graph[s].other.value in Ops(P)
  }

  lemma AttachedNode<R>(P: Plan<R>, Q: Plan<R>, counter: int, s: R, q: Option<R>, x: R)
    requires Built(P, counter) && Attaches(P, Q, s, q) && x in P.graph
    ensures x in Q.graph && Q.graph[x] == P.graph[x].(sinks := Q.graph[x].sinks, bcvars := Q.graph[x].bcvars)
    ensures forall t :: t in Q.graph[x].sinks ==> t in P.graph[x].sinks || (t == s && q == Some(x) && s in Q.sinks)
    ensures forall b :: b in Q.graph[x].bcvars ==>
            b in P.graph[x].bcvars || (b == s && q == Some(x) && s in Q.broadcast)
  {
  }

  lemma AttachKeepsLists<R>(P: Plan<R>, Q: Plan<R>, counter: int, s: R, q: Option<R>)
    requires Built(P, counter) && Attaches(P, Q, s, q)
    requires s in Q.sources ==> Q.graph[s].id == counter
    ensures ListsOk(Q) && UniqueIds(Q)
    ensures forall x :: x in Ops(Q) ==> x == s || x in Ops(P)
  {
    assert s !in Ops(P) && s !in P.sinks && s !in P.broadcast;
    assert forall x :: x in Ops(Q) ==> x == s || x in Ops(P);
    forall a, b | a in Ops(Q) && b in Ops(Q) ensures DistinctIds(Q, a, b) {
      if a != s && b != s {
        assert DistinctIds(P, a, b);
        AttachedNode(P, Q, counter, s, q, a);
        AttachedNode(P, Q, counter, s, q, b);
      } else if a != s {
        AttachedNode(P, Q, counter, s, q, a);
      } else if b != s {
        AttachedNode(P, Q, counter, s, q, b);
      }
    }
  }

  lemma AttachKeepsNode<R>(P: Plan<R>, Q: Plan<R>, counter: int, s: R, q: Option<R>, x: R)
    requires Built(P, counter) && Attaches(P, Q, s, q) && x in Ops(P)
    ensures x in Q.graph && OutEdgesOk(Q, x)
    ensures (x in P.sources ==> SourceOk(Q, x)) && (x in P.sets ==> SetOk(Q, x))
  {
    assert OutEdgesOk(P, x);
    AttachedNode(P, Q, counter, s, q, x);
    if x in P.sources {
      assert SourceOk(P, x);
    } else {
      assert SetOk(P, x);
    }
  }

  lemma AttachKeepsReads<R>(P: Plan<R>, Q: Plan<R>, counter: int, s: R, q: Option<R>, b: R)
    requires Built(P, counter) && Attaches(P, Q, s, q) && b in Q.broadcast
    ensures b in Q.graph && Q.graph[b].other.Some? && Q.graph[b].other.value in Ops(Q)
  {
    if b != s {
      AttachedNode(P, Q, counter, s, q, b);
    }
  }

  lemma AttachKeepsClosed<R>(P: Plan<R>, Q: Plan<R>, counter: int, s: R, q: Option<R>)
    requires Built(P, counter) && Attaches(P, Q, s, q)
    requires s in Q.sources ==> Q.graph[s].id == counter
    ensures Closed(Q)
  {
    AttachKeepsLists(P, Q, counter, s, q);
    forall x | x in Q.sources ensures SourceOk(Q, x) {
      if x != s {
        AttachKeepsNode(P, Q, counter, s, q, x);
      }
    }
    forall x | x in Q.sets ensures SetOk(Q, x) {
      AttachKeepsNode(P, Q, counter, s, q, x);
    }
    forall x | x in Ops(Q) ensures OutEdgesOk(Q, x) {
      if x != s {
        AttachKeepsNode(P, Q, counter, s, q, x);
      }
    }
    forall b | b in Q.broadcast ensures Q.graph[b].other.Some? && Q.graph[b].other.value in Ops(Q) {
      AttachKeepsReads(P, Q, counter, s, q, b);
    }
  }

  lemma AttachKeepsCoGroup<R>(P: Plan<R>, Q: Plan<R>, counter: int, s: R, q: Option<R>, m: R)
    requires Built(P, counter) && Attaches(P, Q, s, q) && m in P.sets
    ensures m in P.graph && m in Q.graph && CoGroupOther(Q, m) == CoGroupOther(P, m) && HasKeyMap(Q, m)
    ensures CoGroupOther(P, m) != Some(s)
  {
    assert m in Ops(P) && HasKeyMap(P, m) && s !in Ops(P);
    CoGroupOtherOk(P, counter, m);
    AttachedNode(P, Q, counter, s, q, m);
    if P.graph[m].identifier == CoGroup {
      AttachedNode(P, Q, counter, s, q, P.graph[m].other.value);
    }
  }

  lemma AttachKeepsListed<R>(P: Plan<R>, Q: Plan<R>, counter: int, s: R, q: Option<R>, x: R, m: R)
    requires Built(P, counter) && Attaches(P, Q, s, q) && x in Ops(Q) && m in Q.sets && (x == s || x in Ops(P))
    ensures x in Q.graph && m in Q.graph && Listed(Q, x, m)
  {
    assert m in Ops(P) && SetOk(P, m);
    AttachedNode(P, Q, counter, s, q, m);
    AttachKeepsCoGroup(P, Q, counter, s, q, m);
    if x != s {
      assert Listed(P, x, m);
      AttachedNode(P, Q, counter, s, q, x);
    } else {
      assert s !in Ops(P) && s !in P.sinks && s !in P.broadcast;
    }
  }

  lemma AttachKeepsSinkEdges<R>(P: Plan<R>, Q: Plan<R>, counter: int, s: R, q: Option<R>)
    requires Built(P, counter) && Attaches(P, Q, s, q) && ListsOk(Q)
    ensures SinkEdges(Q)
  {
    assert s !in Ops(P) && s !in P.sinks;
    forall t | t in Q.sinks
      ensures var o := Q.graph[t].parent; o.Some? && o.value in Ops(Q) && t in Q.graph[o.value].sinks
    {
      if t != s {
        AttachedNode(P, Q, counter, s, q, t);
      }
    }
    forall x, t | x in Ops(Q) && t in Q.graph[x].sinks && t in Q.graph ensures Q.graph[t].parent == Some(x) {
      if x in P.graph {
        AttachedNode(P, Q, counter, s, q, x);
        assert x in Ops(P) && OutEdgesOk(P, x);
      }
    }
  }

  lemma AttachKeepsBroadcastEdges<R>(P: Plan<R>, Q: Plan<R>, counter: int, s: R, q: Option<R>)
    requires Built(P, counter) && Attaches(P, Q, s, q) && ListsOk(Q)
    ensures BroadcastEdges(Q)
  {
    assert s !in Ops(P) && s !in P.broadcast;
    forall b | b in Q.broadcast
      ensures var o := Q.graph[b].parent; o.Some? && o.value in Q.sets && b in Q.graph[o.value].bcvars
    {
      if b != s {
        AttachedNode(P, Q, counter, s, q, b);
      }
    }
    forall x, b | x in Q.sets && b in Q.graph[x].bcvars && b in Q.graph ensures Q.graph[b].parent == Some(x) {
      AttachedNode(P, Q, counter, s, q, x);
      assert x in Ops(P) && OutEdgesOk(P, x);
    }
  }

  lemma AttachKeepsBuilt<R>(P: Plan<R>, Q: Plan<R>, counter: int, s: R, q: Option<R>)
    requires Built(P, counter) && Attaches(P, Q, s, q)
    requires s in Q.sources ==> Q.graph[s].id == counter
    ensures Built(Q, counter + 1) && (s !in Q.sources ==> Built(Q, counter))
  {
    AttachKeepsLists(P, Q, counter, s, q);
    AttachKeepsClosed(P, Q, counter, s, q);
    forall x, m | x in Ops(Q) && m in Q.sets ensures Listed(Q, x, m) {
      AttachKeepsListed(P, Q, counter, s, q, x, m);
    }
    forall m | m in Q.sets ensures HasKeyMap(Q, m) {
      AttachKeepsCoGroup(P, Q, counter, s, q, m);
    }
    AttachKeepsSinkEdges(P, Q, counter, s, q);
    AttachKeepsBroadcastEdges(P, Q, counter, s, q);
    AttachKeepsFields(P, Q, counter, s, q);
  }

  lemma AttachKeepsFields<R>(P: Plan<R>, Q: Plan<R>, counter: int, s: R, q: Option<R>)
    requires Built(P, counter) && Attaches(P, Q, s, q) && ListsOk(Q)
    requires s in Q.sources ==> Q.graph[s].id == counter
    requires forall x :: x in Ops(Q) ==> x == s || x in Ops(P)
    ensures Fresh(Q)
    ensures forall n :: n in Q.sets && Chainable(Q.graph[n].identifier) ==> Q.graph[n].operator.Some?
    ensures forall x :: x in Ops(Q) ==> Q.graph[x].id < counter + 1 && (s !in Q.sources ==> Q.graph[x].id < counter)
  {
    forall x | x in Q.graph ensures Q.graph[x].chained.None? {
      if x != s {
        AttachedNode(P, Q, counter, s, q, x);
      }
    }
    forall x | x in Q.sets && Chainable(Q.graph[x].identifier) ensures Q.graph[x].operator.Some? {
      AttachedNode(P, Q, counter, s, q, x);
    }
    forall x | x in Ops(Q)
      ensures Q.graph[x].id < counter + 1 && (s !in Q.sources ==> Q.graph[x].id < counter)
    {
      if x != s {
        AttachedNode(P, Q, counter, s, q, x);
      }
    }
  }

  lemma AddSourceKeepsBuilt<R>(P: Plan<R>, n: R, counter: int, info: Info)
    requires Built(P, counter) && n !in P.graph && info.operator.None? && !Chainable(info.identifier)
    ensures Built(AddSource(P, n, counter, info), counter + 1)
  {
    AttachKeepsBuilt(P, AddSource(P, n, counter, info), counter, n, None);
  }

  lemma AddSinkKeepsBuilt<R>(P: Plan<R>, s: R, counter: int, info: Info, q: R)
    requires Built(P, counter) && s !in P.graph && q in Ops(P)
    ensures q in P.graph && Built(AddSink(P, s, counter, info, q), counter + 1)
  {
    assert q in P.graph;
    AttachKeepsBuilt(P, AddSink(P, s, counter, info, q), counter, s, Some(q));
  }

  lemma AddBroadcastKeepsBuilt<R>(P: Plan<R>, b: R, counter: int, name: string, n: R, q: R)
    requires Built(P, counter) && b !in P.graph && n in P.sets && q in Ops(P)
    ensures n in P.graph && Built(AddBroadcast(P, b, name, n, q), counter)
  {
    assert n in Ops(P) && n in P.graph && b !in P.sources;
    AttachKeepsBuilt(P, AddBroadcast(P, b, name, n, q), counter, b, Some(n));
  }
}
