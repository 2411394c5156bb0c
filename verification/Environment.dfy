/** The environment's plan as it lives in memory: operation objects whose edges are rewritten in
    place, and the chaining pass over them. Every method is tied to the value plan of `PlanGraph`. */
module Environment {
  import opened Common
  import opened PlanGraph
  import opened ChainStep
  import opened ChainResults

  class OperationInfo {
    var id: int
    var identifier: Identifier
    var parent: OperationInfo?
    var other: OperationInfo?
    var operator: Option<nat>
    var children: seq<OperationInfo>
    var sinks: seq<OperationInfo>
    var bcvars: seq<OperationInfo>
    var chainedInfo: OperationInfo?
    var name: string
    var types: int

    constructor (identifier: Identifier, id: int, operator: Option<nat>, name: string, types: int)
      ensures Value() == Node(id, identifier, None, None, operator, [], [], [], None, name, types)
    {
      this.identifier, this.id, this.operator, this.name, this.types := identifier, id, operator, name, types;
      parent, other, chainedInfo := null, null, null;
      children, sinks, bcvars := [], [], [];
    }

    ghost function Value(): Node<OperationInfo>
      reads this
    {
      Node(id, identifier, Ref(parent), Ref(other), operator, children, sinks, bcvars, Ref(chainedInfo), name, types)
    }
  }

  /** The grandchild loop can follow the edges of `ms`. */
  ghost predicate Adoptable<R>(g: Graph<R>, p: R, c: R, ms: seq<R>) {
    forall m :: m in ms ==>
      m in g && m != p && m != c && (DualInput(g[m].identifier) ==> g[m].parent.Some? && g[m].parent.value in g)
  }

  lemma AdoptableAfter<R>(g: Graph<R>, p: R, c: R, ms: seq<R>, m: R)
    requires p in g && c in g && Adoptable(g, p, c, ms)
    ensures Adoptable(Adopt(g, p, c, m), p, c, ms)
  {
  }

  lemma AdoptAllNext<R>(g: Graph<R>, p: R, c: R, ms: seq<R>, i: nat)
    requires p in g && c in g && i < |ms|
    ensures AdoptAll(g, p, c, ms[..i + 1]) == Adopt(AdoptAll(g, p, c, ms[..i]), p, c, ms[i])
  {
    assert ms[..i + 1][..i] == ms[..i];
  }

  /** The loop over the broadcast variables can follow their edges. */
  ghost predicate Readable<R>(g: Graph<R>, bs: seq<R>) {
    forall b :: b in bs ==> b in g && g[b].other.Some? && g[b].other.value in g
  }

  lemma ReadableAfter<R>(g: Graph<R>, bs: seq<R>, b: R, p: R, c: R)
    requires p in g && c in g && Readable(g, bs)
    ensures Readable(RedirectOne(g, b, p, c), bs)
  {
  }

  lemma RedirectNext<R>(g: Graph<R>, bs: seq<R>, p: R, c: R, i: nat)
    requires c in g && i < |bs|
    ensures Redirect(g, bs[..i + 1], p, c) == RedirectOne(Redirect(g, bs[..i], p, c), bs[i], p, c)
  {
    assert bs[..i + 1][..i] == bs[..i];
  }

  lemma ReplaceBcvarsNext<R>(g: Graph<R>, sets: seq<R>, p: R, c: R, i: nat)
    requires i < |sets|
    ensures ReplaceBcvars(g, sets[..i + 1], p, c) == ReplaceIn(ReplaceBcvars(g, sets[..i], p, c), sets[i], p, c)
  {
    assert sets[..i + 1][..i] == sets[..i];
  }

  lemma MoveSinksNext<R>(g: Graph<R>, p: R, ms: seq<R>, i: nat)
    requires p in g && i < |ms|
    ensures MoveSinks(g, p, ms[..i + 1]) == MoveSink(MoveSinks(g, p, ms[..i]), p, ms[i])
  {
    assert ms[..i + 1][..i] == ms[..i];
  }

  lemma MoveBcvarsNext<R>(g: Graph<R>, p: R, ms: seq<R>, i: nat)
    requires p in g && i < |ms|
    ensures MoveBcvars(g, p, ms[..i + 1]) == MoveBcvar(MoveBcvars(g, p, ms[..i]), p, ms[i])
  {
    assert ms[..i + 1][..i] == ms[..i];
  }

  ghost function Ref(x: OperationInfo?): Option<OperationInfo> {
    if x == null then None else Some(x)
  }

  class Environment {
    var counter: int
    var sources: seq<OperationInfo>
    var sets: seq<OperationInfo>
    var sinks: seq<OperationInfo>
    var broadcast: seq<OperationInfo>
    ghost var nodes: set<OperationInfo>  // every operation of the plan, merged ones included

    constructor ()
      ensures Snapshot() == Plan(map[], [], [], [], []) && counter == 0
    {
      counter, sources, sets, sinks, broadcast, nodes := 0, [], [], [], [], {};
    }

    /** The contents of every operation. */
    ghost function Graph(): Graph<OperationInfo>
      reads this`nodes, nodes
    {
      map n | n in nodes :: n.Value()
    }

    ghost function Snapshot(): Plan<OperationInfo>
      reads this, nodes
    {
      Plan(Graph(), sources, sets, sinks, broadcast)
    }

    method SetParentOf(n: OperationInfo, p: OperationInfo)
      requires n in nodes
      modifies n
      ensures Graph() == SetParent(old(Graph()), n, p)
    {
      n.parent := p;
    }

    method SetOtherOf(n: OperationInfo, p: OperationInfo)
      requires n in nodes
      modifies n
      ensures Graph() == SetOther(old(Graph()), n, p)
    {
      n.other := p;
    }

    method SetChildren(p: OperationInfo, ms: seq<OperationInfo>)
      requires p in nodes
      modifies p
      ensures p in old(Graph()) && Graph() == old(Graph())[p := old(Graph())[p].(children := ms)]
    {
      p.children := ms;
    }

    method SetSinks(p: OperationInfo, ms: seq<OperationInfo>)
      requires p in nodes
      modifies p
      ensures p in old(Graph()) && Graph() == old(Graph())[p := old(Graph())[p].(sinks := ms)]
    {
      p.sinks := ms;
    }

    method SetBcvars(p: OperationInfo, ms: seq<OperationInfo>)
      requires p in nodes
      modifies p
      ensures p in old(Graph()) && Graph() == old(Graph())[p := old(Graph())[p].(bcvars := ms)]
    {
      p.bcvars := ms;
    }

    method LinkTo(parent: OperationInfo, child: OperationInfo)
      requires parent in nodes && child in nodes
      modifies parent
      ensures Graph() == Link(old(Graph()), parent, child)
    {
      parent.chainedInfo := child;
      parent.name := parent.name + " -> " + child.name;
      parent.types := child.types;
    }

    /** Edges of one grandchild. */
    method AdoptOne(parent: OperationInfo, child: OperationInfo, grandChild: OperationInfo)
      requires parent in nodes && child in nodes && parent != child
      requires grandChild in nodes && grandChild != parent && grandChild != child
      requires DualInput(grandChild.identifier) ==> grandChild.parent != null && grandChild.parent in nodes
      modifies grandChild, parent
      ensures Graph() == Adopt(old(Graph()), parent, child, grandChild)
    {
      if DualInput(grandChild.identifier) {
        if grandChild.parent.id == child.id {
          SetParentOf(grandChild, parent);
        } else {
          SetOtherOf(grandChild, parent);
        }
      } else {
        SetParentOf(grandChild, parent);
      }
      SetChildren(parent, parent.children + [grandChild]);
    }

    /** One iteration of the loop over the grandchildren. */
    method AdoptStep(parent: OperationInfo, child: OperationInfo, i: nat, ghost g: Graph<OperationInfo>,
                     ghost ms: seq<OperationInfo>)
      requires parent in nodes && child in nodes && parent != child && parent in g && child in g
      requires child.children == ms && i < |ms| && Adoptable(Graph(), parent, child, ms)
      requires Graph() == AdoptAll(g, parent, child, ms[..i])
      modifies nodes
      ensures child.children == ms && Adoptable(Graph(), parent, child, ms)
      ensures Graph() == AdoptAll(g, parent, child, ms[..i + 1])
    {
      var grandChild := child.children[i];
      assert grandChild in ms;
      assert Graph()[grandChild] == grandChild.Value();
      AdoptableAfter(Graph(), parent, child, ms, grandChild);
      AdoptAllNext(g, parent, child, ms, i);
      AdoptOne(parent, child, grandChild);
    }

    /** The loop over the grandchildren. */
    method AdoptGrandchildren(parent: OperationInfo, child: OperationInfo)
      requires parent in nodes && child in nodes && parent != child
      requires Adoptable(Graph(), parent, child, child.children)
      modifies nodes
      ensures Graph() == AdoptAll(old(Graph()), parent, child, old(child.children))
    {
      ghost var g, ms := Graph(), child.children;
      var i := 0;
      while i < |child.children|
        invariant child.children == ms && i <= |ms|
        invariant Adoptable(Graph(), parent, child, ms)
        invariant Graph() == AdoptAll(g, parent, child, ms[..i])
      {
        AdoptStep(parent, child, i, g, ms);
        i := i + 1;
      }
      assert ms[..i] == ms;
    }

    method ReplaceUse(s: OperationInfo, parent: OperationInfo, child: OperationInfo)
      requires s in nodes
      modifies s
      ensures Graph() == ReplaceIn(old(Graph()), s, parent, child)
    {
      assert s.Value() == Graph()[s];
      if child in s.bcvars {
        SetBcvars(s, RemoveFirst(s.bcvars, child) + [parent]);
      } else {
        assert ReplaceIn(Graph(), s, parent, child) == Graph();
      }
    }

    /** The loop over all sets: `child` as a broadcast variable becomes `parent`. */
    method ReplaceBroadcastUses(parent: OperationInfo, child: OperationInfo)
      requires forall s :: s in sets ==> s in nodes
      modifies nodes
      ensures Graph() == ReplaceBcvars(old(Graph()), sets, parent, child)
    {
      ghost var g := Graph();
      var i := 0;
      while i < |sets|
        invariant i <= |sets|
        invariant Graph() == ReplaceBcvars(g, sets[..i], parent, child)
      {
        assert sets[i] in sets;
        ReplaceBcvarsNext(g, sets, parent, child, i);
        ReplaceUse(sets[i], parent, child);
        i := i + 1;
      }
      assert sets[..i] == sets;
    }

    method RedirectUse(b: OperationInfo, parent: OperationInfo, child: OperationInfo)
      requires parent in nodes && child in nodes && b in nodes && b.other != null && b.other in nodes
      modifies b
      ensures Graph() == RedirectOne(old(Graph()), b, parent, child)
    {
      if b.other.id == child.id {
        SetOtherOf(b, parent);
      }
    }

    method RedirectNumber(parent: OperationInfo, child: OperationInfo, i: nat)
      requires parent in nodes && child in nodes && i < |broadcast| && Readable(Graph(), broadcast)
      modifies nodes
      ensures Readable(Graph(), broadcast)
      ensures Graph() == RedirectOne(old(Graph()), broadcast[i], parent, child)
    {
      var b := broadcast[i];
      assert b in broadcast;
      assert Graph()[b] == b.Value();
      ReadableAfter(Graph(), broadcast, b, parent, child);
      RedirectUse(b, parent, child);
    }

    /** One iteration of the loop over the broadcast variables. */
    method RedirectStep(parent: OperationInfo, child: OperationInfo, i: nat, ghost g: Graph<OperationInfo>)
      requires parent in nodes && child in nodes && child in g
      requires i < |broadcast| && Readable(Graph(), broadcast)
      requires Graph() == Redirect(g, broadcast[..i], parent, child)
      modifies nodes
      ensures Readable(Graph(), broadcast)
      ensures Graph() == Redirect(g, broadcast[..i + 1], parent, child)
    {
      RedirectNext(g, broadcast, parent, child, i);
      RedirectNumber(parent, child, i);
    }

    /** The loop over all broadcast variables: those that read `child` read `parent`. */
    method RedirectBroadcast(parent: OperationInfo, child: OperationInfo)
      requires parent in nodes && child in nodes && Readable(Graph(), broadcast)
      modifies nodes
      ensures Graph() == Redirect(old(Graph()), broadcast, parent, child)
    {
      ghost var g := Graph();
      var i := 0;
      while i < |broadcast|
        invariant i <= |broadcast| && Readable(Graph(), broadcast)
        invariant Graph() == Redirect(g, broadcast[..i], parent, child)
      {
        RedirectStep(parent, child, i, g);
        i := i + 1;
      }
      assert broadcast[..i] == broadcast;
    }

    method MoveOneSink(parent: OperationInfo, sink: OperationInfo)
      requires parent in nodes && sink in nodes
      modifies parent, sink
      ensures Graph() == MoveSink(old(Graph()), parent, sink)
    {
      SetParentOf(sink, parent);
      assert parent.Value() == Graph()[parent];
      SetSinks(parent, parent.sinks + [sink]);
    }

    /** The loop over the sinks of `child`. */
    method MoveSinksOf(parent: OperationInfo, child: OperationInfo)
      requires parent in nodes && child in nodes && parent != child
      requires forall s :: s in child.sinks ==> s in nodes && s != child
      modifies nodes
      ensures Graph() == MoveSinks(old(Graph()), parent, old(child.sinks))
    {
      ghost var g, ms := Graph(), child.sinks;
      var i := 0;
      while i < |child.sinks|
        invariant child.sinks == ms && i <= |ms|
        invariant Graph() == MoveSinks(g, parent, ms[..i])
      {
        assert ms[i] in ms;
        MoveSinksNext(g, parent, ms, i);
        MoveOneSink(parent, child.sinks[i]);
        i := i + 1;
      }
      assert ms[..i] == ms;
    }

    method MoveOneBcvar(parent: OperationInfo, b: OperationInfo)
      requires parent in nodes && b in nodes
      modifies parent, b
      ensures Graph() == MoveBcvar(old(Graph()), parent, b)
    {
      SetParentOf(b, parent);
      assert parent.Value() == Graph()[parent];
      SetBcvars(parent, parent.bcvars + [b]);
    }

    /** The loop over the broadcast variables of `child`. */
    method MoveBcvarsOf(parent: OperationInfo, child: OperationInfo)
      requires parent in nodes && child in nodes && parent != child
      requires forall b :: b in child.bcvars ==> b in nodes && b != child
      modifies nodes
      ensures Graph() == MoveBcvars(old(Graph()), parent, old(child.bcvars))
    {
      ghost var g, ms := Graph(), child.bcvars;
      var i := 0;
      while i < |child.bcvars|
        invariant child.bcvars == ms && i <= |ms|
        invariant Graph() == MoveBcvars(g, parent, ms[..i])
      {
        assert ms[i] in ms;
        MoveBcvarsNext(g, parent, ms, i);
        MoveOneBcvar(parent, child.bcvars[i]);
        i := i + 1;
      }
      assert ms[..i] == ms;
    }

    /** Keeps the sets whose id is not that of `c`. */
    method RemoveSet(c: OperationInfo, ghost g: Graph<OperationInfo>)
      requires g == Graph() && c in g && forall s :: s in sets ==> s in g
      modifies this`sets
      ensures Graph() == g && sets == RemoveId(g, old(sets), g[c].id)
    {
      var kept := [];
      var i := 0;
      while i < |sets|
        invariant i <= |sets|
        invariant kept == RemoveId(g, sets[..i], c.id)
      {
        assert sets[..i + 1][..i] == sets[..i];
        assert g[sets[i]] == sets[i].Value();
        if sets[i].id != c.id {
          kept := kept + [sets[i]];
        }
        i := i + 1;
      }
      assert sets[..i] == sets;
      sets := kept;
    }

    /** The first four loops of a merge. */
    /** The new link, and the loop over the grandchildren. */
    method LinkAndAdopt(parent: OperationInfo, child: OperationInfo, ghost g: Graph<OperationInfo>)
      requires g == Graph() && parent in nodes && child in nodes && parent != child
      requires Adoptable(Link(g, parent, child), parent, child, Link(g, parent, child)[child].children)
      modifies nodes
      ensures var g1 := Link(g, parent, child); Graph() == AdoptAll(g1, parent, child, g1[child].children)
    {
      LinkTo(parent, child);
      assert child.Value() == Graph()[child];
      AdoptGrandchildren(parent, child);
    }

    method RedirectInputs(parent: OperationInfo, child: OperationInfo, ghost P: Plan<OperationInfo>)
      requires P == Snapshot() && Runnable(P) && Mergeable(P, parent, child)
      modifies nodes
      ensures parent in P.graph && Graph() == UpToRedirect(P, parent, child)
    {
      MergeFollows(P, parent, child);
      LinkAndAdopt(parent, child, P.graph);
      ReplaceBroadcastUses(parent, child);
      RedirectBroadcast(parent, child);
    }

    /** The last two loops of a merge, and the removal from the children. */
    method MoveOutputs(parent: OperationInfo, child: OperationInfo)
      requires parent in nodes && child in nodes && parent != child
      requires forall s :: s in child.sinks ==> s in nodes && s != child
      requires forall b :: b in MoveSinks(Graph(), parent, child.sinks)[child].bcvars ==> b in nodes && b != child
      modifies nodes
      ensures var g5 := MoveSinks(old(Graph()), parent, old(child.sinks));
              var g6 := MoveBcvars(g5, parent, g5[child].bcvars);
              Graph() == g6[parent := g6[parent].(children := RemoveFirst(g6[parent].children, child))]
    {
      MoveSinksOf(parent, child);
      assert child.Value() == Graph()[child];
      MoveBcvarsOf(parent, child);
      assert parent.Value() == Graph()[parent];
      SetChildren(parent, RemoveFirst(parent.children, child));
    }

    /** All edges that change when `child` is merged into `parent`. */
    method RewriteEdges(parent: OperationInfo, child: OperationInfo, ghost P: Plan<OperationInfo>)
      requires P == Snapshot() && Runnable(P) && Mergeable(P, parent, child)
      modifies nodes
      ensures parent in P.graph && Graph() == MergedGraph(P, parent, child)
    {
      RedirectInputs(parent, child, P);
      MergeFollows(P, parent, child);
      assert child.Value() == Graph()[child];
      MoveOutputs(parent, child);
    }

    /** Everything that happens when `child` is merged into `parent`. */
    method MergeIntoParent(parent: OperationInfo, child: OperationInfo, ghost P: Plan<OperationInfo>)
      requires P == Snapshot() && Runnable(P) && Mergeable(P, parent, child)
      modifies this`sets, nodes
      ensures parent in P.graph && child in P.graph
      ensures var g := MergedGraph(P, parent, child);
              Graph() == g && sets == RemoveId(g, P.sets, g[child].id)
    {
      SetsKnown(P, parent, child);
      RewriteEdges(parent, child, P);
      RemoveSet(child, MergedGraph(P, parent, child));
    }

    /** The chaining pass: a countdown over the sets. */
    method FindChains()
      requires Runnable(Snapshot())
      modifies this`sets, nodes
      ensures Snapshot() == Pass(old(Snapshot()))
      ensures Runnable(Snapshot())
      ensures forall n :: n in old(sets) &&
                          !old(n.identifier == Map || n.identifier == Filter || n.identifier == FlatMap) ==>
                n in sets
    {
      ghost var P := Snapshot();
      OtherKindsStay(P);
      assert forall n :: n in sets ==> n in P.graph && P.graph[n] == n.Value();
      TryAll();
    }

    /** Every set is tried, the last one first. */
    method TryAll()
      requires Runnable(Snapshot())
      modifies this`sets, nodes
      ensures Snapshot() == Pass(old(Snapshot())) && Runnable(Snapshot())
    {
      ghost var target := Pass(Snapshot());
      var x := |sets| - 1;
      while x > -1
        invariant -1 <= x < |sets|
        invariant Runnable(Snapshot())
        invariant PassFrom(Snapshot(), x + 1) == target
      {
        ghost var P := Snapshot();
        TrySet(x);
        PassFromStep(P, x + 1, Snapshot());
        x := x - 1;
      }
    }

    /** One iteration of the pass. */
    method TrySet(x: nat)
      requires Runnable(Snapshot()) && x < |sets|
      modifies this`sets, nodes
      ensures Snapshot() == TryMerge(old(Snapshot()), old(sets)[x])
      ensures Runnable(Snapshot()) && x <= |sets|
      ensures old(sets[x].parent) != null
      ensures old(sets)[x] !in sets <==>
              old((sets[x].identifier == Map || sets[x].identifier == Filter || sets[x].identifier == FlatMap) &&
                  sets[x].parent.operator.Some? && |sets[x].parent.children| == 1 && |sets[x].parent.sinks| == 0)
    {
      ghost var P := Snapshot();
      SetReferences(P, sets[x]);
      TriedSetIsRemovedIff(P, sets[x]);
      assert P.graph[sets[x]] == sets[x].Value() && P.graph[sets[x].parent] == sets[x].parent.Value();
      ChainIfPossible(x);
    }

    /** The guard and, if it holds, the merge. */
    method ChainIfPossible(x: nat)
      requires Runnable(Snapshot()) && x < |sets|
      modifies this`sets, nodes
      ensures Snapshot() == TryMerge(old(Snapshot()), old(sets)[x])
      ensures Runnable(Snapshot()) && x <= |sets|
    {
      var child := sets[x];
      ghost var P := Snapshot();
      SetReferences(P, child);
      if Chainable(child.identifier) {
        var parent := child.parent;
        if parent.operator.Some? && |parent.children| == 1 && |parent.sinks| == 0
           && parent !in broadcast && child !in parent.bcvars {
          MergeIntoParent(parent, child, P);
          MergedPlan(P, parent, child, Snapshot());
        }
      }
    }
  }

  lemma OtherKindsStay<R>(P: Plan<R>)
    requires Runnable(P)
    ensures forall n :: n in P.sets ==> n in P.graph
    ensures forall n :: n in P.sets && !(P.graph[n].identifier == Map || P.graph[n].identifier == Filter ||
                                         P.graph[n].identifier == FlatMap) ==>
              n in Pass(P).sets
  {
    forall n | n in P.sets ensures n in P.graph {
      assert n in Ops(P);
    }
    forall n | n in P.sets && P.graph[n].identifier != Map && P.graph[n].identifier != Filter &&
               P.graph[n].identifier != FlatMap
      ensures n in Pass(P).sets
    {
      OtherKindsSurvive(P, |P.sets|, n);
    }
  }

  /** The plan after a merge, put together. */
  lemma MergedPlan<R>(P: Plan<R>, p: R, c: R, Q: Plan<R>)
    requires Runnable(P) && Mergeable(P, p, c) && p in P.graph && c in P.graph
    requires Q.graph == MergedGraph(P, p, c) && Q.sets == RemoveId(Q.graph, P.sets, Q.graph[c].id)
    requires Q.sources == P.sources && Q.sinks == P.sinks && Q.broadcast == P.broadcast
    ensures Q == TryMerge(P, c) && Runnable(Q) && |Q.sets| == |P.sets| - 1
  {
    MergeKeepsRunnable(P, p, c);
    MergeDropsOne(P, p, c);
    MergeIs(P, p, c, Q.graph, Q.sets);
  }

  lemma SetReferences<R>(P: Plan<R>, c: R)
    requires Runnable(P) && c in P.sets
    ensures c in P.graph && P.graph[c].parent.Some? && P.graph[c].parent.value in P.graph
  {
    assert c in Ops(P) && SetOk(P, c);
  }

  lemma SetsKnown<R>(P: Plan<R>, p: R, c: R)
    requires Runnable(P) && Mergeable(P, p, c)
    ensures p in P.graph && c in P.graph && forall s :: s in P.sets ==> s in P.graph
  {
    assert forall s :: s in P.sets ==> s in Ops(P);
  }

  /** Every reference that a merge follows leads to a node of the plan. */
  lemma MergeFollows<R>(P: Plan<R>, p: R, c: R)
    requires Runnable(P) && Mergeable(P, p, c)
    ensures p in P.graph && p != c
    ensures var g1 := Link(P.graph, p, c); Adoptable(g1, p, c, g1[c].children)
    ensures forall s :: s in P.sets ==> s in P.graph
    ensures var g1 := Link(P.graph, p, c);
            Readable(ReplaceBcvars(AdoptAll(g1, p, c, g1[c].children), P.sets, p, c), P.broadcast)
    ensures var g4 := UpToRedirect(P, p, c);
            && (forall s :: s in g4[c].sinks ==> s in P.graph && s != c)
            && (forall b :: b in MoveSinks(g4, p, g4[c].sinks)[c].bcvars ==> b in P.graph && b != c)
  {
    MergeableFacts(P, p, c);
    assert OutEdgesOk(P, c);
    var g1 := Link(P.graph, p, c);
    forall m | m in P.graph[c].children
      ensures m in P.graph && m != p && m != c
      ensures DualInput(P.graph[m].identifier) ==> P.graph[m].parent.Some? && P.graph[m].parent.value in P.graph
    {
      assert m in P.sets && m in Ops(P) && SetOk(P, m);
    }
    NoBcvarIsReplaced(P, p, c);
    forall b | b in P.broadcast
      ensures var g := AdoptAll(g1, p, c, g1[c].children); b in g && g[b].other.Some? && g[b].other.value in g
    {
      BroadcastReads(P, c, b);
      AdoptEffect(P, p, c, b);
    }
    UpToRedirectAt(P, p, c, c);
    MoveSinksAt(UpToRedirect(P, p, c), p, P.graph[c].sinks, c);
  }

  lemma {:induction false} RemoveIdLength<R>(g: Graph<R>, sets: seq<R>, c: R)
    requires c in g && forall n :: n in sets ==> n in g && (g[n].id == g[c].id <==> n == c)
    requires NoDuplicates(sets)
    ensures |RemoveId(g, sets, g[c].id)| == |sets| - One(c in sets)
  {
    if sets != [] {
      assert sets == sets[..|sets| - 1] + [sets[|sets| - 1]];
      RemoveIdLength(g, sets[..|sets| - 1], c);
    }
  }

  lemma MergeDropsOne<R>(P: Plan<R>, p: R, c: R)
    requires Runnable(P) && Mergeable(P, p, c) && p in P.graph
    ensures |Merge(P, p, c).sets| == |P.sets| - 1
  {
    var g := MergedGraph(P, p, c);
    forall n | n in P.sets
      ensures n in g && (g[n].id == g[c].id <==> n == c)
    {
      assert DistinctIds(P, n, c);
      MergedIds(P, p, c, n);
      MergedIds(P, p, c, c);
    }
    RemoveIdLength(g, P.sets, c);
  }
}
