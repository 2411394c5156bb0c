/** The operations of a program on its data sets: each builds one more operation of the plan in place. */
module DataSet {
  import opened Common
  import opened PlanGraph
  import opened ChainStep
  import opened ChainResults
  import opened Environment
  import opened PlanBuilders
  import opened CoGroupPlans
  import opened BuiltPlans

  /** The plan of an environment is as built by the operations of a program so far. */
  ghost predicate Building(env: Environment)
    reads env, env.nodes
  {
    Built(env.Snapshot(), env.counter)
  }

  lemma OpsAreNodes(env: Environment, n: OperationInfo)
    requires Building(env) && (n in env.sources || n in env.sets)
    ensures n in env.nodes && n in Ops(env.Snapshot()) && n in env.Graph()
  {
    assert n in Ops(env.Snapshot());
  }

  // ---------------------------------------------------------------------------------------------
  // Building in place
  // ---------------------------------------------------------------------------------------------

  /** A new operation among the contents of the plan. */
  method NewOperation(env: Environment, id: int, info: Info, parent: OperationInfo?, other: OperationInfo?)
    returns (n: OperationInfo)
    modifies env`nodes
    ensures fresh(n) && n !in old(env.nodes) && env.nodes == old(env.nodes) + {n}
    ensures n.parent == parent && n.other == other && n.identifier == info.identifier
    ensures env.Graph() == old(env.Graph())[n := NewNode(id, info, Ref(parent), Ref(other))]
  {
    n := new OperationInfo(info.identifier, id, info.operator, info.name, info.types);
    n.parent, n.other := parent, other;
    env.nodes := env.nodes + {n};
  }

  method AppendChild(env: Environment, q: OperationInfo, n: OperationInfo)
    requires q in env.nodes
    modifies q`children
    ensures q in old(env.Graph()) && env.Graph() == AddChild(old(env.Graph()), q, n)
  {
    q.children := q.children + [n];
  }

  /** The next id. */
  method TakeId(env: Environment) returns (id: int)
    modifies env`counter
    ensures id == old(env.counter) && env.counter == id + 1 && env.Snapshot() == old(env.Snapshot())
  {
    id := env.counter;
    env.counter := env.counter + 1;
  }

  method ListSet(env: Environment, n: OperationInfo)
    modifies env`sets
    ensures env.sets == old(env.sets) + [n] && env.Graph() == old(env.Graph())
  {
    env.sets := env.sets + [n];
  }

  method ListSink(env: Environment, n: OperationInfo)
    modifies env`sinks
    ensures env.sinks == old(env.sinks) + [n] && env.Graph() == old(env.Graph())
  {
    env.sinks := env.sinks + [n];
  }

  method BuildSource(env: Environment, info: Info) returns (n: OperationInfo)
    modifies env
    ensures fresh(n) && n !in old(env.nodes) && env.nodes == old(env.nodes) + {n} && env.counter == old(env.counter) + 1
    ensures env.Snapshot() == AddSource(old(env.Snapshot()), n, old(env.counter), info)
  {
    var id := TakeId(env);
    n := NewOperation(env, id, info, null, null);
    env.sources := env.sources + [n];
  }

  method NewChild(env: Environment, id: int, op: Info, q: OperationInfo) returns (n: OperationInfo)
    requires q in env.nodes
    modifies env`nodes, q`children
    ensures fresh(n) && n !in old(env.nodes) && env.nodes == old(env.nodes) + {n} && q in old(env.Graph())
    ensures n.parent == q && n.other == null && n.identifier == op.identifier
    ensures env.Graph() == AddChild(old(env.Graph())[n := NewNode(id, op, Some(q), None)], q, n)
  {
    n := NewOperation(env, id, op, q, null);
    AppendChild(env, q, n);
  }

  lemma SetIs<R>(P: Plan<R>, n: R, id: int, op: Info, q: R, g: Graph<R>)
    requires q in P.graph && g == AddChild(P.graph[n := NewNode(id, op, Some(q), None)], q, n)
    ensures AddSet(P, n, id, op, q) == Plan(g, P.sources, P.sets + [n], P.sinks, P.broadcast)
  {
  }

  method BuildSet(env: Environment, op: Info, q: OperationInfo) returns (n: OperationInfo)
    requires q in env.nodes
    modifies env, q`children
    ensures fresh(n) && n !in old(env.nodes) && env.nodes == old(env.nodes) + {n} && env.counter == old(env.counter) + 1
    ensures q in old(env.Graph()) && n.parent == q && n.other == null && n.identifier == op.identifier
    ensures env.Snapshot() == AddSet(old(env.Snapshot()), n, old(env.counter), op, q)
  {
    ghost var P := env.Snapshot();
    var id := TakeId(env);
    n := NewChild(env, id, op, q);
    ListSet(env, n);
    SetIs(P, n, id, op, q, env.Graph());
  }

  method NewDualChild(env: Environment, id: int, op: Info, q: OperationInfo, q': OperationInfo)
    returns (n: OperationInfo)
    requires q in env.nodes && q' in env.nodes
    modifies env`nodes, q`children, q'`children
    ensures fresh(n) && n !in old(env.nodes) && env.nodes == old(env.nodes) + {n}
    ensures q in old(env.Graph()) && q' in old(env.Graph())
    ensures n.parent == q && n.other == q' && n.identifier == op.identifier
    ensures env.Graph() == AddChild(AddChild(old(env.Graph())[n := NewNode(id, op, Some(q), Some(q'))], q, n), q', n)
  {
    n := NewOperation(env, id, op, q, q');
    AppendChild(env, q, n);
    AppendChild(env, q', n);
  }

  lemma DualIs<R>(P: Plan<R>, n: R, id: int, op: Info, q: R, q': R, g: Graph<R>)
    requires q in P.graph && q' in P.graph
    requires g == AddChild(AddChild(P.graph[n := NewNode(id, op, Some(q), Some(q'))], q, n), q', n)
    ensures AddDual(P, n, id, op, q, q') == Plan(g, P.sources, P.sets + [n], P.sinks, P.broadcast)
  {
  }

  method BuildDual(env: Environment, op: Info, q: OperationInfo, q': OperationInfo) returns (n: OperationInfo)
    requires q in env.nodes && q' in env.nodes
    modifies env, q`children, q'`children
    ensures fresh(n) && n !in old(env.nodes) && env.nodes == old(env.nodes) + {n} && env.counter == old(env.counter) + 1
    ensures q in old(env.Graph()) && q' in old(env.Graph())
    ensures n.parent == q && n.other == q' && n.identifier == op.identifier
    ensures env.Snapshot() == AddDual(old(env.Snapshot()), n, old(env.counter), op, q, q')
  {
    ghost var P := env.Snapshot();
    var id := TakeId(env);
    n := NewDualChild(env, id, op, q, q');
    ListSet(env, n);
    DualIs(P, n, id, op, q, q', env.Graph());
  }

  method NewSink(env: Environment, id: int, op: Info, q: OperationInfo) returns (s: OperationInfo)
    requires q in env.nodes
    modifies env`nodes, q
    ensures fresh(s) && s !in old(env.nodes) && env.nodes == old(env.nodes) + {s} && q in old(env.Graph())
    ensures var g := old(env.Graph())[s := NewNode(id, op, Some(q), None)];
            env.Graph() == g[q := g[q].(sinks := g[q].sinks + [s])]
  {
    s := NewOperation(env, id, op, q, null);
    assert q.Value() == env.Graph()[q];
    env.SetSinks(q, q.sinks + [s]);
  }

  lemma SinkIs<R>(P: Plan<R>, s: R, id: int, op: Info, q: R, h: Graph<R>)
    requires q in P.graph
    requires var g := P.graph[s := NewNode(id, op, Some(q), None)]; h == g[q := g[q].(sinks := g[q].sinks + [s])]
    ensures AddSink(P, s, id, op, q) == Plan(h, P.sources, P.sets, P.sinks + [s], P.broadcast)
  {
  }

  method BuildSink(env: Environment, op: Info, q: OperationInfo) returns (s: OperationInfo)
    requires q in env.nodes
    modifies env, q
    ensures fresh(s) && s !in old(env.nodes) && env.nodes == old(env.nodes) + {s} && env.counter == old(env.counter) + 1
    ensures q in old(env.Graph())
    ensures env.Snapshot() == AddSink(old(env.Snapshot()), s, old(env.counter), op, q)
  {
    ghost var P := env.Snapshot();
    var id := TakeId(env);
    s := NewSink(env, id, op, q);
    ListSink(env, s);
    SinkIs(P, s, id, op, q, env.Graph());
  }

  method ListBroadcast(env: Environment, b: OperationInfo)
    modifies env`broadcast
    ensures env.broadcast == old(env.broadcast) + [b] && env.Graph() == old(env.Graph())
  {
    env.broadcast := env.broadcast + [b];
  }

  method NewBroadcast(env: Environment, name: string, n: OperationInfo, q: OperationInfo) returns (b: OperationInfo)
    requires n in env.nodes && q in env.nodes
    modifies env`nodes, n
    ensures fresh(b) && b !in old(env.nodes) && env.nodes == old(env.nodes) + {b} && n in old(env.Graph())
    ensures var g := old(env.Graph())[b := NewNode(-1, Info(Broadcast, None, name, 0), Some(n), Some(q))];
            env.Graph() == g[n := g[n].(bcvars := g[n].bcvars + [b])]
  {
    b := NewOperation(env, -1, Info(Broadcast, None, name, 0), n, q);
    assert n.Value() == env.Graph()[n];
    env.SetBcvars(n, n.bcvars + [b]);
  }

  lemma BroadcastIs<R>(P: Plan<R>, b: R, name: string, n: R, q: R, h: Graph<R>)
    requires n in P.graph
    requires var g := P.graph[b := NewNode(-1, Info(Broadcast, None, name, 0), Some(n), Some(q))];
             h == g[n := g[n].(bcvars := g[n].bcvars + [b])]
    ensures AddBroadcast(P, b, name, n, q) == Plan(h, P.sources, P.sets, P.sinks, P.broadcast + [b])
  {
  }

  method BuildBroadcast(env: Environment, name: string, n: OperationInfo, q: OperationInfo) returns (b: OperationInfo)
    requires n in env.nodes && q in env.nodes
    modifies env, n
    ensures fresh(b) && b !in old(env.nodes) && env.nodes == old(env.nodes) + {b} && env.counter == old(env.counter)
    ensures n in old(env.Graph())
    ensures env.Snapshot() == AddBroadcast(old(env.Snapshot()), b, name, n, q)
  {
    ghost var P := env.Snapshot();
    b := NewBroadcast(env, name, n, q);
    ListBroadcast(env, b);
    BroadcastIs(P, b, name, n, q, env.Graph());
  }

  /** A co-group becomes a child of the other data set before it is complete. */
  method StartCoGroup(env: Environment, q': OperationInfo) returns (n: OperationInfo)
    requires q' in env.nodes
    modifies env, q'
    ensures fresh(n) && n !in old(env.nodes) && env.nodes == old(env.nodes) + {n} && env.counter == old(env.counter)
    ensures q' in old(env.Graph()) && env.Snapshot() == BeginCoGroup(old(env.Snapshot()), n, q')
  {
    n := NewOperation(env, -1, Info(CoGroup, None, "", 0), null, null);
    AppendChild(env, q', n);
  }

  method SetKeysOfFirst(env: Environment, n: OperationInfo, key: Info, q: OperationInfo) returns (k: OperationInfo)
    requires n in env.nodes && q in env.nodes
    modifies env, q, n
    ensures fresh(k) && k !in old(env.nodes) && env.nodes == old(env.nodes) + {k} && env.counter == old(env.counter) + 1
    ensures q in old(env.Graph()) && env.Snapshot() == Where(old(env.Snapshot()), n, k, old(env.counter), key, q)
  {
    k := BuildSet(env, key, q);
    env.SetParentOf(n, k);
    AppendChild(env, k, n);
  }

  method SetKeysOfSecond(env: Environment, n: OperationInfo, key': Info, q': OperationInfo) returns (k': OperationInfo)
    requires n in env.nodes && q' in env.nodes
    modifies env, q', n
    ensures fresh(k') && k' !in old(env.nodes) && env.nodes == old(env.nodes) + {k'} &&
            env.counter == old(env.counter) + 1
    ensures q' in old(env.Graph()) && env.Snapshot() == EqualTo(old(env.Snapshot()), n, k', old(env.counter), key', q')
  {
    k' := BuildSet(env, key', q');
    env.SetOtherOf(n, k');
    AppendChild(env, k', n);
  }

  method FillIn(env: Environment, n: OperationInfo, id: int, info: Info)
    requires n in env.nodes
    modifies n
    ensures n in old(env.Graph())
    ensures var node := old(env.Graph())[n].(id := id, operator := info.operator, name := info.name,
            types := info.types);
            env.Graph() == old(env.Graph())[n := node]
  {
    n.id, n.operator, n.name, n.types := id, info.operator, info.name, info.types;
  }

  method CompleteCoGroup(env: Environment, n: OperationInfo, info: Info)
    requires n in env.nodes
    modifies env, n
    ensures env.counter == old(env.counter) + 1 && env.nodes == old(env.nodes)
    ensures n in old(env.Graph()) && env.Snapshot() == Using(old(env.Snapshot()), n, old(env.counter), info)
  {
    var id := TakeId(env);
    FillIn(env, n, id, info);
    ListSet(env, n);
  }

  /** The first two calls of a co-group. */
  method CoGroupWhere(env: Environment, key: Info, q: OperationInfo, q': OperationInfo)
    returns (n: OperationInfo, k: OperationInfo)
    requires q in env.nodes && q' in env.nodes
    modifies env, q, q'
    ensures fresh(n) && fresh(k) && n !in old(env.nodes) && k !in old(env.nodes) && n != k
    ensures env.nodes == old(env.nodes) + {n} + {k} && env.counter == old(env.counter) + 1
    ensures q in old(env.Graph()) && q' in old(env.Graph())
    ensures env.Snapshot() == Where(BeginCoGroup(old(env.Snapshot()), n, q'), n, k, old(env.counter), key, q)
  {
    n := StartCoGroup(env, q');
    k := SetKeysOfFirst(env, n, key, q);
  }

  /** The last two calls of a co-group. */
  method CoGroupUsing(env: Environment, n: OperationInfo, key': Info, q': OperationInfo, info: Info)
    returns (k': OperationInfo)
    requires n in env.nodes && q' in env.nodes
    modifies env, q', n
    ensures fresh(k') && k' !in old(env.nodes) && q' in old(env.Graph()) && env.counter == old(env.counter) + 2
    ensures env.Snapshot() ==
            Using(EqualTo(old(env.Snapshot()), n, k', old(env.counter), key', q'), n, old(env.counter) + 1, info)
  {
    k' := SetKeysOfSecond(env, n, key', q');
    CompleteCoGroup(env, n, info);
  }

  method BuildCoGroup(env: Environment, key: Info, key': Info, op: Info, q: OperationInfo, q': OperationInfo)
    returns (n: OperationInfo, k: OperationInfo, k': OperationInfo)
    requires q in env.nodes && q' in env.nodes
    modifies env, q, q'
    ensures env.counter == old(env.counter) + 3 && q in old(env.Snapshot()).graph && q' in old(env.Snapshot()).graph
    ensures Unused(old(env.Snapshot()), n, k, k')
    ensures env.Snapshot() == AddCoGroup(old(env.Snapshot()), n, k, k', old(env.counter), key, key', op, q, q')
  {
    n, k := CoGroupWhere(env, key, q, q');
    k' := CoGroupUsing(env, n, key', q', op);
  }

  // ---------------------------------------------------------------------------------------------
  // The operations of a program
  // ---------------------------------------------------------------------------------------------

  /** The operations with a record-wise function, and those with two inputs. */
  const RECORD_WISE: set<Identifier> := {Map, Filter, FlatMap}
  const TWO_INPUTS: set<Identifier> := {Join, JoinH, JoinT, Cross, CrossH, CrossT, CoGroup, Union}

  lemma KindsMatch(i: Identifier)
    ensures i in RECORD_WISE <==> Chainable(i)
    ensures i in TWO_INPUTS <==> DualInput(i)
    ensures i in TWO_INPUTS - {Identifier.CoGroup} <==> IsCombination(i)
  {
  }

  /** Reads a source. */
  method ReadSource(env: Environment, info: Info) returns (n: OperationInfo)
    requires Building(env) && info.operator.None? && info.identifier !in RECORD_WISE
    modifies env
    ensures fresh(n) && env.Snapshot() == AddSource(old(env.Snapshot()), n, old(env.counter), info)
    ensures Building(env)
  {
    ghost var P, counter := env.Snapshot(), env.counter;
    n := BuildSource(env, info);
    AddSourceKeepsBuilt(P, n, counter, info);
  }

  lemma DualKeeps<R>(P: Plan<R>, Q: Plan<R>, n: R, counter: int, op: Info, q: R, q': R, next: int)
    requires Built(P, counter) && n !in P.graph && q in Ops(P) && q' in Ops(P) && IsCombination(op.identifier)
    requires q in P.graph && q' in P.graph && Q == AddDual(P, n, counter, op, q, q')
    requires next == counter + 1
    ensures Built(Q, next)
  {
    AddDualKeepsBuilt(P, n, counter, op, q, q');
  }

  /** The new value `next` of the counter is named so that the verifier need not compute it. */
  lemma CoGroupKeeps<R>(P: Plan<R>, Q: Plan<R>, n: R, k: R, k': R, id: int, key: Info, key': Info, op: Info, q: R,
                        q': R, next: int)
    requires Built(P, id) && Unused(P, n, k, k') && q in Ops(P) && q' in Ops(P) && IsKeyMap(key) && IsKeyMap(key')
    requires q in P.graph && q' in P.graph && Q == AddCoGroup(P, n, k, k', id, key, key', op, q, q') && next == id + 3
    ensures Built(Q, next)
  {
    CoGroupKeepsBuilt(P, n, k, k', id, key, key', op, q, q');
  }

  class DataSet {
    const env: Environment
    const info: OperationInfo

    constructor (env: Environment, info: OperationInfo)
      ensures this.env == env && this.info == info
    {
      this.env, this.info := env, info;
    }

    /** The data set belongs to the plan. */
    ghost predicate Valid()
      reads env, env.nodes
    {
      Building(env) && (info in env.sources || info in env.sets)
    }

    /** An operation on this data set: map, filter, flat_map, reduce, group_by and the like. The plan
        stays one that the chaining pass can run on. */
    method Apply(op: Info) returns (child: OperationInfo)
      requires Valid() && op.identifier !in TWO_INPUTS && (op.identifier in RECORD_WISE ==> op.operator.Some?)
      modifies env, info
      ensures fresh(child) && info in old(env.Graph())
      ensures env.Snapshot() == AddSet(old(env.Snapshot()), child, old(env.counter), op, info)
      ensures child.parent == info && child.other == null && child.identifier == op.identifier
      ensures Building(env)
    {
      OpsAreNodes(env, info);
      KindsMatch(op.identifier);
      ghost var P, counter := env.Snapshot(), env.counter;
      child := BuildSet(env, op, info);
      AddSetKeepsBuilt(P, child, counter, op, info);
    }

    /** A union, a cross or a join with another data set, possibly this one. */
    method Combine(other: DataSet, op: Info) returns (child: OperationInfo)
      requires Valid() && other.env == env && other.Valid() && op.identifier in TWO_INPUTS - {Identifier.CoGroup}
      modifies env, info, other.info
      ensures fresh(child) && info in old(env.Graph()) && other.info in old(env.Graph())
      ensures env.Snapshot() == AddDual(old(env.Snapshot()), child, old(env.counter), op, info, other.info)
      ensures child.parent == info && child.other == other.info && child.identifier == op.identifier
      ensures Building(env)
    {
      OpsAreNodes(env, info);
      OpsAreNodes(env, other.info);
      KindsMatch(op.identifier);
      ghost var P, counter := env.Snapshot(), env.counter;
      child := BuildDual(env, op, info, other.info);
      DualKeeps(P, env.Snapshot(), child, counter, op, info, other.info, env.counter);
    }

    /** Writes the data set to a sink. */
    method Output(op: Info) returns (sink: OperationInfo)
      requires Valid()
      modifies env, info
      ensures fresh(sink) && info in old(env.Graph())
      ensures env.Snapshot() == AddSink(old(env.Snapshot()), sink, old(env.counter), op, info)
      ensures Building(env)
    {
      OpsAreNodes(env, info);
      ghost var P, counter := env.Snapshot(), env.counter;
      sink := BuildSink(env, op, info);
      AddSinkKeepsBuilt(P, sink, counter, op, info);
    }

    /** Makes another data set available to this operation as a broadcast variable. */
    method WithBroadcastSet(name: string, other: DataSet) returns (b: OperationInfo)
      requires Valid() && info in env.sets && other.env == env && other.Valid()
      modifies env, info
      ensures fresh(b) && info in old(env.Graph())
      ensures env.Snapshot() == AddBroadcast(old(env.Snapshot()), b, name, info, other.info)
      ensures Building(env)
    {
      OpsAreNodes(env, info);
      OpsAreNodes(env, other.info);
      ghost var P, counter := env.Snapshot(), env.counter;
      b := BuildBroadcast(env, name, info, other.info);
      AddBroadcastKeepsBuilt(P, b, counter, name, info, other.info);
    }

    /** A co-group with another data set, possibly this one. */
    method CoGroup(other: DataSet, key: Info, key': Info, op: Info)
      returns (n: OperationInfo, k: OperationInfo, k': OperationInfo)
      requires Valid() && other.env == env && other.Valid() && IsKeyMap(key) && IsKeyMap(key')
      modifies env, info, other.info
      ensures info in old(env.Snapshot()).graph && other.info in old(env.Snapshot()).graph
      ensures Unused(old(env.Snapshot()), n, k, k')
      ensures env.Snapshot() ==
              AddCoGroup(old(env.Snapshot()), n, k, k', old(env.counter), key, key', op, info, other.info)
      ensures Building(env)
    {
      OpsAreNodes(env, info);
      OpsAreNodes(env, other.info);
      ghost var P, counter := env.Snapshot(), env.counter;
      n, k, k' := BuildCoGroup(env, key, key', op, info, other.info);
      CoGroupKeeps(P, env.Snapshot(), n, k, k', counter, key, key', op, info, other.info, env.counter);
    }
  }

  /** A map, filter or flat map whose parent has an operator, one child and no sinks. */
  ghost predicate IsMergedAway(n: OperationInfo)
    reads n, n.parent
  {
    && (n.identifier == Map || n.identifier == Filter || n.identifier == FlatMap)
    && n.parent != null && n.parent.operator.Some? && |n.parent.children| == 1 && |n.parent.sinks| == 0
  }

  lemma MergedAwayIff(env: Environment, n: OperationInfo)
    requires Building(env) && n in env.sets
    ensures n !in Pass(env.Snapshot()).sets <==> IsMergedAway(n)
  {
    OpsAreNodes(env, n);
    RemovedIff(env.Snapshot(), env.counter, n);
    assert env.Snapshot().graph[n] == n.Value();
    assert env.Snapshot().graph[n.parent] == n.parent.Value();
  }

  /** The optimisation before a program is executed: whatever the program built, the plan in memory becomes the
      chained one, which no second pass would change, and no operation is lost or doubled. */
  method OptimizePlan(env: Environment)
    requires Building(env)
    modifies env`sets, env.nodes
    ensures env.Snapshot() == Pass(old(env.Snapshot())) == Pass(env.Snapshot()) && WellFormed(env.Snapshot())
    ensures multiset(AllChains(env.Graph(), env.sets)) == multiset(old(env.sets))
    ensures forall n :: n in old(env.sets) ==> (n !in env.sets <==> old(IsMergedAway(n)))
  {
    ghost var P, counter := env.Snapshot(), env.counter;
    forall n | n in env.sets ensures n !in Pass(P).sets <==> IsMergedAway(n) {
      MergedAwayIff(env, n);
    }
    BuiltIsRunnable(P, counter);
    env.FindChains();
    PassOfBuilt(P, counter);
    BuiltFixpoint(P, counter);
    BuiltLosesNothing(P, counter);
  }
}
