/** The query plan that an environment collects, as a value: an operator graph plus the lists that
    the environment keeps, and the chaining pass over it.

    Nodes are named by references of an arbitrary type `R`; the heap version of the plan uses object
    references, concrete example plans use numbers. */
module PlanGraph {
  import opened Common

  datatype Identifier =
    | Sort | Group | CoGroup | Cross | CrossH | CrossT | FlatMap | Filter | MapPartition
    | GroupReduce | Join | JoinH | JoinT | Map | Projection | Reduce | Union
    | SourceCsv | SourceText | SourceValue | SourceSeq
    | SinkCsv | SinkText | SinkPrint
    | Broadcast | First | Distinct | PartitionHash | Rebalance

  predicate Chainable(i: Identifier) {
    i.Map? || i.Filter? || i.FlatMap?
  }

  predicate DualInput(i: Identifier) {
    i.Join? || i.JoinH? || i.JoinT? || i.Cross? || i.CrossH? || i.CrossT? || i.CoGroup? || i.Union?
  }

  /** One operation of the plan. `operator` names the user function object, `types` the output type
      description; neither is looked into here. */
  datatype Node<R> = Node(
    id: int,
    identifier: Identifier,
    parent: Option<R>,
    other: Option<R>,
    operator: Option<nat>,
    children: seq<R>,
    sinks: seq<R>,
    bcvars: seq<R>,
    chained: Option<R>,
    name: string,
    types: int)

  type Graph<R> = map<R, Node<R>>

  datatype Plan<R> = Plan(graph: Graph<R>, sources: seq<R>, sets: seq<R>, sinks: seq<R>, broadcast: seq<R>)

  /** Sources and sets: the nodes that produce records. */
  function Ops<R>(P: Plan<R>): seq<R> {
    P.sources + P.sets
  }

  /** Position of `n` in `s` counted from one, and zero when `n` is not there. */
  function Rank<R(==)>(s: seq<R>, n: R): (r: nat)
    ensures r <= |s|
    ensures r == 0 <==> n !in s
    ensures r > 0 ==> s[r - 1] == n
  {
    if s == [] then 0
    else if s[|s| - 1] == n then |s|
    else Rank(s[..|s| - 1], n)
  }

  ghost predicate NoDuplicates<R>(s: seq<R>) {
    forall i, j :: 0 <= i < j < |s| ==> s[i] != s[j]
  }

  // ---------------------------------------------------------------------------------------------
  // What a plan must look like
  // ---------------------------------------------------------------------------------------------

  /** Every listed node has an entry, and the four lists do not overlap. */
  ghost predicate ListsOk<R>(P: Plan<R>) {
    && NoDuplicates(P.sets)
    && (forall n :: n in Ops(P) ==> n in P.graph && n !in P.sinks && n !in P.broadcast)
    && (forall n :: n in P.sources ==> n !in P.sets)
    && (forall n :: n in P.sinks ==> n in P.graph && n !in P.broadcast)
    && (forall n :: n in P.broadcast ==> n in P.graph)
  }

  ghost predicate DistinctIds<R>(P: Plan<R>, a: R, b: R)
    requires a in P.graph && b in P.graph
  {
    P.graph[a].id == P.graph[b].id ==> a == b
  }

  ghost predicate UniqueIds<R>(P: Plan<R>)
    requires ListsOk(P)
  {
    forall a, b {:trigger DistinctIds(P, a, b)} :: a in Ops(P) && b in Ops(P) ==> DistinctIds(P, a, b)
  }

  /** `q` produces records and comes before the set `n`. */
  ghost predicate Precedes<R>(P: Plan<R>, q: Option<R>, n: R) {
    q.Some? && q.value in Ops(P) && Rank(P.sets, q.value) < Rank(P.sets, n)
  }

  ghost predicate SourceOk<R>(P: Plan<R>, n: R)
    requires n in P.graph
  {
    var d := P.graph[n];
    d.parent.None? && d.other.None? && d.operator.None? && d.bcvars == [] && !Chainable(d.identifier)
  }

  /** Inputs come first, consumers later, and a second input exists exactly for dual operations. */
  ghost predicate SetOk<R>(P: Plan<R>, n: R)
    requires n in P.graph
  {
    var d := P.graph[n];
    && Precedes(P, d.parent, n)
    && (DualInput(d.identifier) <==> d.other.Some?)
    && (d.other.Some? ==> Precedes(P, d.other, n))
  }

  ghost predicate OutEdgesOk<R>(P: Plan<R>, n: R)
    requires n in P.graph
  {
    var d := P.graph[n];
    && (forall m :: m in d.children ==> m in P.sets && Rank(P.sets, n) < Rank(P.sets, m))
    && (forall s :: s in d.sinks ==> s in P.sinks)
    && (forall b :: b in d.bcvars ==> b in P.broadcast)
  }

  /** No dangling or missing reference, distinct ids, and producers listed before their consumers. */
  ghost predicate Closed<R>(P: Plan<R>) {
    && ListsOk(P)
    && UniqueIds(P)
    && (forall n {:trigger SourceOk(P, n)} :: n in P.sources ==> SourceOk(P, n))
    && (forall n {:trigger SetOk(P, n)} :: n in P.sets ==> SetOk(P, n))
    && (forall n {:trigger OutEdgesOk(P, n)} :: n in Ops(P) ==> OutEdgesOk(P, n))
    && (forall b :: b in P.broadcast ==> P.graph[b].other.Some? && P.graph[b].other.value in Ops(P))
  }

  function One(b: bool): nat {
    if b then 1 else 0
  }

  /** `m` is listed as a child of `n` exactly once per input of `m` that is `n`. */
  ghost predicate ChildEdge<R>(P: Plan<R>, n: R, m: R)
    requires n in P.graph && m in P.graph
  {
    multiset(P.graph[n].children)[m] ==
    One(P.graph[m].parent == Some(n)) + One(P.graph[m].other == Some(n))
  }

  ghost predicate ChildListed<R>(P: Plan<R>, n: R, m: R)
    requires n in P.graph && m in P.graph
  {
    var edges := One(P.graph[m].parent == Some(n)) + One(P.graph[m].other == Some(n));
    var listed := multiset(P.graph[n].children)[m];
    if DualInput(P.graph[m].identifier) then listed >= edges else listed == edges
  }

  /** What the chaining pass needs in order to run: a closed plan in which every set is listed as a
      child of its inputs. Only operations with two inputs may be listed too often, as a co-group is. */
  ghost predicate Runnable<R>(P: Plan<R>) {
    InputsListed(P) == true  // compared with `true` so that the verifier treats it as one fact
  }

  ghost predicate InputsListed<R>(P: Plan<R>) {
    && Closed(P)
    && (forall n, m {:trigger ChildListed(P, n, m)} :: n in Ops(P) && m in P.sets ==> ChildListed(P, n, m))
  }

  ghost predicate SinkEdges<R>(P: Plan<R>)
    requires ListsOk(P)
  {
    && (forall s :: s in P.sinks ==>
          P.graph[s].parent.Some? && P.graph[s].parent.value in Ops(P) &&
          s in P.graph[P.graph[s].parent.value].sinks)
    && (forall n, s :: n in Ops(P) && s in P.graph[n].sinks && s in P.graph ==> P.graph[s].parent == Some(n))
  }

  ghost predicate BroadcastEdges<R>(P: Plan<R>)
    requires ListsOk(P)
  {
    && (forall b :: b in P.broadcast ==>
          P.graph[b].parent.Some? && P.graph[b].parent.value in P.sets &&
          b in P.graph[P.graph[b].parent.value].bcvars)
    && (forall n, b :: n in P.sets && b in P.graph[n].bcvars && b in P.graph ==> P.graph[b].parent == Some(n))
  }

  /** The children of `n` are its consumers. A set that is going to be merged into its parent must list
      them exactly, with multiplicity; other nodes may list an operation with two inputs too often, as
      the second input of a co-group does. */
  ghost predicate EdgeOk<R>(P: Plan<R>, n: R, m: R)
    requires n in P.graph && m in P.graph
  {
    ChildListed(P, n, m) && (Guard(P, n) ==> ChildEdge(P, n, m))
  }

  /** A closed plan whose backward and forward edges agree. */
  ghost predicate WellFormed<R>(P: Plan<R>) {
    EdgesAgree(P) == true  // one fact, as above
  }

  ghost predicate EdgesAgree<R>(P: Plan<R>) {
    && Closed(P)
    && (forall n, m {:trigger EdgeOk(P, n, m)} :: n in Ops(P) && m in P.sets ==> EdgeOk(P, n, m))
    && SinkEdges(P)
    && BroadcastEdges(P)
    && (forall n :: n in P.sets && Chainable(P.graph[n].identifier) ==> P.graph[n].operator.Some?)
  }

  /** Every node lists each consumer exactly once per input that is the node. */
  ghost predicate ExactEdges<R>(P: Plan<R>)
    requires ListsOk(P)
  {
    forall n, m {:trigger ChildEdge(P, n, m)} :: n in Ops(P) && m in P.sets ==> ChildEdge(P, n, m)
  }

  // ---------------------------------------------------------------------------------------------
  // The chaining pass
  // ---------------------------------------------------------------------------------------------

  /** The test that decides whether `c` is merged into its parent. */
  predicate Guard<R(==)>(P: Plan<R>, c: R) {
    c in P.graph && Chainable(P.graph[c].identifier) && P.graph[c].parent.Some? &&
    var p := P.graph[c].parent.value;
    && p in P.graph
    && P.graph[p].operator.Some?
    && |P.graph[p].children| == 1
    && |P.graph[p].sinks| == 0
    && p !in P.broadcast
    && c !in P.graph[p].bcvars
  }

  function SetParent<R>(g: Graph<R>, n: R, p: R): (r: Graph<R>)
    ensures r.Keys == g.Keys
  {
    if n in g then g[n := g[n].(parent := Some(p))] else g
  }

  function SetOther<R>(g: Graph<R>, n: R, p: R): (r: Graph<R>)
    ensures r.Keys == g.Keys
  {
    if n in g then g[n := g[n].(other := Some(p))] else g
  }

  /** One grandchild gets `p` instead of `c` as an input, and becomes a child of `p`. */
  function Adopt<R>(g: Graph<R>, p: R, c: R, m: R): (r: Graph<R>)
    requires p in g && c in g
    ensures r.Keys == g.Keys
  {
    var onParent := m in g ==>
      (DualInput(g[m].identifier) ==>
        g[m].parent.Some? && g[m].parent.value in g && g[g[m].parent.value].id == g[c].id);
    var g1 := if onParent then SetParent(g, m, p) else SetOther(g, m, p);
    g1[p := g1[p].(children := g1[p].children + [m])]
  }

  function AdoptAll<R>(g: Graph<R>, p: R, c: R, ms: seq<R>): (r: Graph<R>)
    requires p in g && c in g
    ensures r.Keys == g.Keys
  {
    if ms == [] then g else Adopt(AdoptAll(g, p, c, ms[..|ms| - 1]), p, c, ms[|ms| - 1])
  }

  function RemoveFirst<R(==)>(s: seq<R>, x: R): seq<R> {
    if s == [] then [] else if s[0] == x then s[1..] else [s[0]] + RemoveFirst(s[1..], x)
  }

  function Replaced<R(==)>(s: seq<R>, c: R, p: R): seq<R> {
    if c in s then RemoveFirst(s, c) + [p] else s
  }

  function ReplaceIn<R(==)>(g: Graph<R>, s: R, p: R, c: R): (r: Graph<R>)
    ensures r.Keys == g.Keys
  {
    if s in g then g[s := g[s].(bcvars := Replaced(g[s].bcvars, c, p))] else g
  }

  /** Every set that lists `c` among its broadcast variables lists `p` instead. */
  function ReplaceBcvars<R(==)>(g: Graph<R>, sets: seq<R>, p: R, c: R): (r: Graph<R>)
    ensures r.Keys == g.Keys
  {
    if sets == [] then g else ReplaceIn(ReplaceBcvars(g, sets[..|sets| - 1], p, c), sets[|sets| - 1], p, c)
  }

  function RedirectOne<R>(g: Graph<R>, b: R, p: R, c: R): (r: Graph<R>)
    requires c in g
    ensures r.Keys == g.Keys
  {
    if b in g && g[b].other.Some? && g[b].other.value in g && g[g[b].other.value].id == g[c].id
    then SetOther(g, b, p) else g
  }

  /** Every broadcast variable that reads `c` reads `p` instead. */
  function Redirect<R>(g: Graph<R>, broadcast: seq<R>, p: R, c: R): (r: Graph<R>)
    requires c in g
    ensures r.Keys == g.Keys
  {
    if broadcast == [] then g
    else RedirectOne(Redirect(g, broadcast[..|broadcast| - 1], p, c), broadcast[|broadcast| - 1], p, c)
  }

  function MoveSink<R>(g: Graph<R>, p: R, s: R): (r: Graph<R>)
    requires p in g
    ensures r.Keys == g.Keys
  {
    var g1 := SetParent(g, s, p);
    g1[p := g1[p].(sinks := g1[p].sinks + [s])]
  }

  function MoveSinks<R>(g: Graph<R>, p: R, sinks: seq<R>): (r: Graph<R>)
    requires p in g
    ensures r.Keys == g.Keys
  {
    if sinks == [] then g else MoveSink(MoveSinks(g, p, sinks[..|sinks| - 1]), p, sinks[|sinks| - 1])
  }

  function MoveBcvar<R>(g: Graph<R>, p: R, b: R): (r: Graph<R>)
    requires p in g
    ensures r.Keys == g.Keys
  {
    var g1 := SetParent(g, b, p);
    g1[p := g1[p].(bcvars := g1[p].bcvars + [b])]
  }

  function MoveBcvars<R>(g: Graph<R>, p: R, bcvars: seq<R>): (r: Graph<R>)
    requires p in g
    ensures r.Keys == g.Keys
  {
    if bcvars == [] then g else MoveBcvar(MoveBcvars(g, p, bcvars[..|bcvars| - 1]), p, bcvars[|bcvars| - 1])
  }

  /** The sets whose id differs from `id`, in order. */
  function RemoveId<R>(g: Graph<R>, sets: seq<R>, id: int): seq<R> {
    if sets == [] then [] else
    var rest := RemoveId(g, sets[..|sets| - 1], id);
    var s := sets[|sets| - 1];
    if s in g && g[s].id == id then rest else rest + [s]
  }

  function Link<R>(g: Graph<R>, p: R, c: R): (r: Graph<R>)
    requires p in g && c in g
    ensures r.Keys == g.Keys
  {
    g[p := g[p].(chained := Some(c), name := g[p].name + " -> " + g[c].name, types := g[c].types)]
  }

  /** The rewriting of the graph when `c` is merged into `p`. */
  function MergedGraph<R(==)>(P: Plan<R>, p: R, c: R): (r: Graph<R>)
    requires p in P.graph && c in P.graph
    ensures r.Keys == P.graph.Keys
  {
    var g1 := Link(P.graph, p, c);
    var g2 := AdoptAll(g1, p, c, g1[c].children);
    var g3 := ReplaceBcvars(g2, P.sets, p, c);
    var g4 := Redirect(g3, P.broadcast, p, c);
    var g5 := MoveSinks(g4, p, g4[c].sinks);
    var g6 := MoveBcvars(g5, p, g5[c].bcvars);
    g6[p := g6[p].(children := RemoveFirst(g6[p].children, c))]
  }

  function Merge<R(==)>(P: Plan<R>, p: R, c: R): (r: Plan<R>)
    requires p in P.graph && c in P.graph
  {
    var g := MergedGraph(P, p, c);
    P.(graph := g, sets := RemoveId(g, P.sets, g[c].id))
  }

  function TryMerge<R(==)>(P: Plan<R>, c: R): Plan<R> {
    if Guard(P, c) then Merge(P, P.graph[c].parent.value, c) else P
  }

  /** Sets at positions `x - 1` down to 0 are tried in turn. */
  function PassFrom<R(==)>(P: Plan<R>, x: nat): Plan<R>
    decreases x
  {
    if x == 0 || x > |P.sets| then P else PassFrom(TryMerge(P, P.sets[x - 1]), x - 1)
  }

  /** The whole pass over a plan. */
  function Pass<R(==)>(P: Plan<R>): Plan<R> {
    PassFrom(P, |P.sets|)
  }

  /** `i` is the first position of `x`. */
  ghost predicate FirstAt<R>(s: seq<R>, x: R, i: nat) {
    i < |s| && s[i] == x && x !in s[..i]
  }

  lemma FirstAtTail<R>(s: seq<R>, x: R, i: nat)
    requires s != [] && s[0] != x && FirstAt(s, x, i)
    ensures i > 0 && FirstAt(s[1..], x, i - 1)
    ensures s[..i] + s[i + 1..] == [s[0]] + (s[1..][..i - 1] + s[1..][i..])
  {
    assert s[1..][..i - 1] == s[1..i];
    forall y | y in s[1..][..i - 1] ensures y in s[..i] {
      var j :| 0 <= j < i - 1 && s[1..][j] == y;
      assert s[..i][j + 1] == y;
    }
  }

  lemma PrefixHasFirst<R>(s: seq<R>, i: nat)
    ensures 0 < i <= |s| ==> s[0] in s[..i]
  {
    if 0 < i <= |s| {
      assert s[..i][0] == s[0];
    }
  }

  /** Removing takes out the first occurrence and keeps the order of the others. */
  lemma {:induction false} RemoveFirstIs<R>(s: seq<R>, x: R, i: nat)
    requires FirstAt(s, x, i)
    ensures RemoveFirst(s, x) == s[..i] + s[i + 1..]
  {
    PrefixHasFirst(s, i);
    if s[0] != x {
      FirstAtTail(s, x, i);
      RemoveFirstIs(s[1..], x, i - 1);
    }
  }

  /** Replacing takes out the first occurrence and puts the new reference at the end. */
  lemma ReplacedIs<R>(s: seq<R>, c: R, p: R, i: nat)
    ensures c !in s ==> Replaced(s, c, p) == s
    ensures FirstAt(s, c, i) ==> Replaced(s, c, p) == s[..i] + s[i + 1..] + [p]
  {
    if FirstAt(s, c, i) {
      RemoveFirstIs(s, c, i);
    }
  }
}
