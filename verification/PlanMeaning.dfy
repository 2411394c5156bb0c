/** What a plan computes, and that the chaining pass does not change it.

    An interpretation assigns every node its user function; a valuation assigns every node that
    produces records the records it produces. A valuation solves a plan when each node's records
    follow from those of its inputs and of the broadcast variables it reads, where a node with a
    chain of merged sets runs the links of the chain one after the other. */
module PlanMeaning {
  import opened Common
  import opened Stages
  import opened PlanGraph
  import opened ChainStep
  import opened Chains
  import opened ChainResults

  /** The broadcast variables visible to a user function. */
  type Env<D> = map<string, seq<D>>

  /** `stage` is the record-wise function of a map, filter or flatmap node, `whole` that of any other
      node, and `looksUp` the broadcast variables the node's user function looks up. */
  datatype Interp<!R, !D, !S> = Interp(
    stage: (R, Env<D>) -> Stage<D, S>,
    whole: (R, seq<D>, seq<D>, Env<D>) -> seq<D>,
    looksUp: R -> set<string>)

  type Valuation<!R, D> = map<R, seq<D>>

  /** The node behind the broadcast variable of that name; a later registration wins. */
  function Resolve<R>(g: Graph<R>, bs: seq<R>, name: string): Option<R> {
    if bs == [] then None else
    var b := bs[|bs| - 1];
    if b in g && g[b].name == name then g[b].other else Resolve(g, bs[..|bs| - 1], name)
  }

  function Input<R(==), D>(v: Valuation<R, D>, x: Option<R>): seq<D> {
    if x.Some? && x.value in v then v[x.value] else []
  }

  ghost function EnvOf<R, D>(g: Graph<R>, bs: seq<R>, names: set<string>, v: Valuation<R, D>): Env<D> {
    map x | x in names && Resolve(g, bs, x).Some? :: Input(v, Resolve(g, bs, x))
  }

  /** The operations whose function is called record by record; every other one gets its whole input. */
  predicate RecordWise(i: Identifier) {
    i.Map? || i.Filter? || i.FlatMap?
  }

  /** Output of the first link of a chain. */
  ghost function HeadOut<R, D, S>(I: Interp<R, D, S>, g: Graph<R>, n: R, v: Valuation<R, D>): seq<D>
    requires n in g
  {
    var env := EnvOf(g, g[n].bcvars, I.looksUp(n), v);
    if RecordWise(g[n].identifier) then Run(I.stage(n, env), Input(v, g[n].parent))
    else I.whole(n, Input(v, g[n].parent), Input(v, g[n].other), env)
  }

  /** Output of a merged set `n` that runs in the chain of `h`, for input `xs`. */
  ghost function LinkOut<R, D, S>(I: Interp<R, D, S>, g: Graph<R>, h: R, n: R, v: Valuation<R, D>, xs: seq<D>): seq<D>
    requires h in g
  {
    Run(I.stage(n, EnvOf(g, g[h].bcvars, I.looksUp(n), v)), xs)
  }

  /** Output of a whole chain. All links look their broadcast variables up at the head. */
  ghost function ChainOut<R, D, S>(I: Interp<R, D, S>, g: Graph<R>, links: seq<R>, v: Valuation<R, D>): seq<D>
    requires links != [] && links[0] in g
  {
    if |links| == 1 then HeadOut(I, g, links[0], v)
    else
      LinkOut(I, g, links[0], links[|links| - 1], v, ChainOut(I, g, links[..|links| - 1], v))
  }

  ghost predicate NodeSolved<R, D, S>(P: Plan<R>, I: Interp<R, D, S>, v: Valuation<R, D>, n: R)
    requires n in P.graph
  {
    n in v && v[n] == ChainOut(I, P.graph, ChainFrom(P.graph, n), v)
  }

  ghost predicate Solves<R, D, S>(P: Plan<R>, I: Interp<R, D, S>, v: Valuation<R, D>) {
    && (forall n :: n in v ==> n in Ops(P))
    && (forall n :: n in Ops(P) ==> n in P.graph)
    && (forall n {:trigger NodeSolved(P, I, v, n)} :: n in Ops(P) ==> NodeSolved(P, I, v, n))
  }

  ghost function LastLink<R>(g: Graph<R>, n: R): R {
    var links := ChainFrom(g, n);
    if links == [] then n else links[|links| - 1]
  }

  /** The valuation of the optimised plan that gives each head the records of its last link. */
  ghost function Lifted<R, D>(Q: Plan<R>, v: Valuation<R, D>): Valuation<R, D> {
    map h | h in Ops(Q) && LastLink(Q.graph, h) in v :: v[LastLink(Q.graph, h)]
  }

  /** `Q` gives every head, every sink and every broadcast variable the records that `P` gives it. */
  ghost predicate Preserves<R, D, S>(P: Plan<R>, Q: Plan<R>, I: Interp<R, D, S>, v: Valuation<R, D>) {
    var w := Lifted(Q, v);
    && Solves(Q, I, w)
    && (forall s :: s in P.sinks && s in P.graph ==>
          s in Q.graph && Input(w, Q.graph[s].parent) == Input(v, P.graph[s].parent))
    && (forall b :: b in P.broadcast && b in P.graph ==>
          b in Q.graph && Input(w, Q.graph[b].other) == Input(v, P.graph[b].other))
  }

  /** No broadcast variable reads a set into which another set is merged. */
  ghost predicate NoFusedSource<R>(P: Plan<R>) {
    forall b, c :: b in P.broadcast && c in Fused(P) && b in P.graph && c in P.graph ==>
      P.graph[b].other != P.graph[c].parent
  }

  /** In each chain, a name that a link registered means the same node for the whole chain. */
  ghost predicate NamesApart<R>(P: Plan<R>)
    requires WellFormed(P)
  {
    forall n, b {:trigger NameKept(P, n, P.graph[b].name)} ::
      n in Ops(P) && n in P.graph && b in P.graph[n].bcvars && b in P.graph ==> NameKept(P, n, P.graph[b].name)
  }

  ghost predicate NameKept<R>(P: Plan<R>, n: R, name: string)
    requires WellFormed(P) && n in Ops(P) && n in P.graph
  {
    var M := Fused(P);
    Resolve(P.graph, ChainBcvars(P.graph, Links(P, M, Head(P, M, n))), name) ==
    Resolve(P.graph, P.graph[n].bcvars, name)
  }

  /** User functions look up only broadcast variables that were registered for their own set. */
  ghost predicate ReadsOwn<R, D, S>(P: Plan<R>, I: Interp<R, D, S>) {
    forall n, x {:trigger Registered(P.graph, P.graph[n].bcvars, x)} ::
      n in Ops(P) && n in P.graph && x in I.looksUp(n) ==> Registered(P.graph, P.graph[n].bcvars, x)
  }

  ghost predicate Registered<R>(g: Graph<R>, bs: seq<R>, x: string) {
    exists b :: b in bs && b in g && g[b].name == x
  }

  // ---------------------------------------------------------------------------------------------
  // Broadcast variables of the optimised plan
  // ---------------------------------------------------------------------------------------------

  /** `g` has the broadcast variable `b` under its name, reading the head of what it read. */
  ghost predicate Redirected<R>(P: Plan<R>, M: set<R>, g: Graph<R>, b: R)
    requires Merges(P, M)
  {
    b in P.graph && b in g && g[b].name == P.graph[b].name && g[b].other == HeadOf(P, M, P.graph[b].other)
  }

  lemma {:induction false} ResolveRedirected<R>(P: Plan<R>, M: set<R>, g: Graph<R>, bs: seq<R>, name: string)
    requires Merges(P, M) && forall b {:trigger Redirected(P, M, g, b)} :: b in bs ==> Redirected(P, M, g, b)
    ensures Resolve(g, bs, name) == HeadOf(P, M, Resolve(P.graph, bs, name))
  {
    if bs != [] {
      var b, front := bs[|bs| - 1], bs[..|bs| - 1];
      assert b in bs && Redirected(P, M, g, b);
      assert forall c :: c in front ==> c in bs;
      ResolveRedirected(P, M, g, front, name);
    }
  }

  lemma ResolveRewritten<R>(P: Plan<R>, M: set<R>, bs: seq<R>, name: string)
    requires Merges(P, M) && forall b :: b in bs ==> b in P.broadcast && b in P.graph
    ensures Resolve(Rewritten(P, M).graph, bs, name) == HeadOf(P, M, Resolve(P.graph, bs, name))
  {
    var g := Rewritten(P, M).graph;
    forall b | b in bs ensures Redirected(P, M, g, b) {
      assert g[b] == RewrittenNode(P, M, b);
    }
    ResolveRedirected(P, M, g, bs, name);
  }

  lemma {:induction false} ResolveRegistered<R>(g: Graph<R>, bs: seq<R>, name: string)
    requires forall b :: b in bs ==> b in g && g[b].other.Some?
    ensures Resolve(g, bs, name).Some? <==> Registered(g, bs, name)
    ensures Resolve(g, bs, name).Some? ==> exists b :: b in bs && g[b].other == Resolve(g, bs, name)
  {
    if bs != [] {
      var front, b := bs[..|bs| - 1], bs[|bs| - 1];
      assert bs == front + [b];
      assert b in bs && forall x :: x in front ==> x in bs;
      ResolveRegistered(g, front, name);
      if g[b].name != name && Registered(g, bs, name) {
        var x :| x in bs && x in g && g[x].name == name;
        assert x in front;
      }
    }
  }

  lemma {:induction false} ChainBcvarsAreBroadcast<R>(P: Plan<R>, links: seq<R>)
    requires Closed(P) && forall i :: 0 <= i < |links| ==> links[i] in Ops(P) && links[i] in P.graph
    ensures forall b :: b in ChainBcvars(P.graph, links) ==> b in P.broadcast && b in P.graph
  {
    if links != [] {
      assert OutEdgesOk(P, links[0]);
      ChainBcvarsAreBroadcast(P, links[1..]);
    }
  }

  /** `w` gives the rewritten input of every broadcast variable what `v` gives the original one. */
  ghost predicate SameBroadcast<R, D>(P: Plan<R>, v: Valuation<R, D>, w: Valuation<R, D>)
    requires WellFormed(P)
  {
    forall b {:trigger HeadOf(P, Fused(P), P.graph[b].other)} :: b in P.broadcast && b in P.graph ==>
      Input(w, HeadOf(P, Fused(P), P.graph[b].other)) == Input(v, P.graph[b].other)
  }

  ghost function OptimisedBcvars<R>(P: Plan<R>, n: R): seq<R>
    requires WellFormed(P) && n in Ops(P)
  {
    ChainBcvars(P.graph, Links(P, Fused(P), Head(P, Fused(P), n)))
  }

  lemma SameLookup<R, D>(P: Plan<R>, v: Valuation<R, D>, w: Valuation<R, D>, n: R, x: string)
    requires WellFormed(P) && NamesApart(P) && n in Ops(P) && n in P.graph
    requires SameBroadcast(P, v, w) && Registered(P.graph, P.graph[n].bcvars, x)
    ensures var a, b := Resolve(Rewritten(P, Fused(P)).graph, OptimisedBcvars(P, n), x),
            Resolve(P.graph, P.graph[n].bcvars, x);
            a.Some? && b.Some? && Input(w, a) == Input(v, b)
  {
    var own, bs := P.graph[n].bcvars, OptimisedBcvars(P, n);
    ChainBcvarsAreBroadcast(P, Links(P, Fused(P), Head(P, Fused(P), n)));
    assert OutEdgesOk(P, n);
    ResolveRegistered(P.graph, own, x);
    var b :| b in own && b in P.graph && P.graph[b].name == x;
    assert NameKept(P, n, P.graph[b].name);
    ResolveRewritten(P, Fused(P), bs, x);
  }

  lemma SameEnvs<R, D>(g: Graph<R>, bs: seq<R>, v: Valuation<R, D>, h: Graph<R>, cs: seq<R>, w: Valuation<R, D>,
                       names: set<string>)
    requires forall x :: x in names ==>
      Resolve(g, bs, x).Some? && Resolve(h, cs, x).Some? && Input(v, Resolve(g, bs, x)) == Input(w, Resolve(h, cs, x))
    ensures EnvOf(g, bs, names, v) == EnvOf(h, cs, names, w)
  {
  }

  /** A link of a chain sees the same broadcast data before and after the pass. */
  lemma SameEnv<R, D, S>(P: Plan<R>, I: Interp<R, D, S>, v: Valuation<R, D>, w: Valuation<R, D>, n: R)
    requires WellFormed(P) && NamesApart(P) && ReadsOwn(P, I) && n in Ops(P) && n in P.graph
    requires SameBroadcast(P, v, w)
    ensures EnvOf(Rewritten(P, Fused(P)).graph, OptimisedBcvars(P, n), I.looksUp(n), w)
            == EnvOf(P.graph, P.graph[n].bcvars, I.looksUp(n), v)
  {
    forall x | x in I.looksUp(n)
      ensures Registered(P.graph, P.graph[n].bcvars, x)
    {
    }
    forall x | x in I.looksUp(n)
      ensures var a, b := Resolve(Rewritten(P, Fused(P)).graph, OptimisedBcvars(P, n), x),
              Resolve(P.graph, P.graph[n].bcvars, x);
              a.Some? && b.Some? && Input(w, a) == Input(v, b)
    {
      SameLookup(P, v, w, n, x);
    }
    SameEnvs(Rewritten(P, Fused(P)).graph, OptimisedBcvars(P, n), w, P.graph, P.graph[n].bcvars, v, I.looksUp(n));
  }

  // ---------------------------------------------------------------------------------------------
  // The pass preserves meaning
  // ---------------------------------------------------------------------------------------------

  ghost predicate Total<R, D>(P: Plan<R>, v: Valuation<R, D>) {
    forall n :: n in Ops(P) ==> n in v
  }

  lemma LiftedAt<R, D>(P: Plan<R>, v: Valuation<R, D>, h: R)
    requires WellFormed(P) && Total(P, v) && h in Ops(P) && h !in Fused(P)
    ensures Last(P, Fused(P), h) in v
    ensures var Q := Rewritten(P, Fused(P));
            h in Ops(Q) && h in Lifted(Q, v) && Lifted(Q, v)[h] == v[Last(P, Fused(P), h)]
  {
    OptimisedChain(P, Fused(P), h);
    SurvivorsMembers(P.sets, Fused(P), h);
  }

  /** A node that ends its chain has the same records under its head in the optimised plan. */
  lemma LiftedInput<R, D>(P: Plan<R>, v: Valuation<R, D>, q: R)
    requires WellFormed(P) && Total(P, v) && q in Ops(P) && Next(P, Fused(P), q).None?
    ensures Input(Lifted(Rewritten(P, Fused(P)), v), Some(Head(P, Fused(P), q))) == Input(v, Some(q))
  {
    LastOfHead(P, Fused(P), q);
    LiftedAt(P, v, Head(P, Fused(P), q));
  }

  lemma BroadcastSourceIsLast<R>(P: Plan<R>, b: R)
    requires WellFormed(P) && NoFusedSource(P) && b in P.broadcast && b in P.graph
    ensures P.graph[b].other.Some? && P.graph[b].other.value in Ops(P)
    ensures Next(P, Fused(P), P.graph[b].other.value).None?
  {
    NoNext(P, P.graph[b].other.value);
  }

  lemma NoNext<R>(P: Plan<R>, q: R)
    requires WellFormed(P) && q in Ops(P)
    requires forall c :: c in Fused(P) && c in P.graph ==> P.graph[c].parent != Some(q)
    ensures Next(P, Fused(P), q).None?
  {
  }

  lemma LiftedBroadcast<R, D>(P: Plan<R>, v: Valuation<R, D>)
    requires WellFormed(P) && NoFusedSource(P) && Total(P, v)
    ensures SameBroadcast(P, v, Lifted(Rewritten(P, Fused(P)), v))
  {
    forall b | b in P.broadcast && b in P.graph
      ensures Input(Lifted(Rewritten(P, Fused(P)), v), HeadOf(P, Fused(P), P.graph[b].other)) ==
              Input(v, P.graph[b].other)
    {
      BroadcastSourceIsLast(P, b);
      LiftedInput(P, v, P.graph[b].other.value);
    }
  }

  /** The inputs of a surviving node are redirected to nodes with the same records. */
  lemma LiftedInputs<R, D>(P: Plan<R>, v: Valuation<R, D>, h: R)
    requires WellFormed(P) && Total(P, v) && h in Ops(P) && h !in Fused(P) && h in P.graph
    ensures var w := Lifted(Rewritten(P, Fused(P)), v);
            && Input(w, HeadOf(P, Fused(P), P.graph[h].parent)) == Input(v, P.graph[h].parent)
            && Input(w, HeadOf(P, Fused(P), P.graph[h].other)) == Input(v, P.graph[h].other)
  {
    if h in P.sources {
      assert SourceOk(P, h);
    } else {
      assert SetOk(P, h);
      InputsAreLast(P, Fused(P), h, P.graph[h].parent.value);
      LiftedInput(P, v, P.graph[h].parent.value);
      if P.graph[h].other.Some? {
        InputsAreLast(P, Fused(P), h, P.graph[h].other.value);
        LiftedInput(P, v, P.graph[h].other.value);
      }
    }
  }

  lemma SameHeadOut<R, D, S>(I: Interp<R, D, S>, n: R, g: Graph<R>, v: Valuation<R, D>, h: Graph<R>, w: Valuation<R, D>)
    requires n in g && n in h && g[n].identifier == h[n].identifier
    requires Input(v, g[n].parent) == Input(w, h[n].parent) && Input(v, g[n].other) == Input(w, h[n].other)
    requires EnvOf(g, g[n].bcvars, I.looksUp(n), v) == EnvOf(h, h[n].bcvars, I.looksUp(n), w)
    ensures HeadOut(I, g, n, v) == HeadOut(I, h, n, w)
  {
  }

  /** In a fresh plan every node is a chain of its own. */
  lemma SolvedFresh<R, D, S>(P: Plan<R>, I: Interp<R, D, S>, v: Valuation<R, D>, n: R)
    requires Fresh(P) && Solves(P, I, v) && n in Ops(P)
    ensures n in P.graph && n in v && v[n] == HeadOut(I, P.graph, n, v)
  {
    assert NodeSolved(P, I, v, n);
    FreshChain(P, n);
  }

  lemma RewrittenOpFields<R>(P: Plan<R>, h: R)
    requires WellFormed(P) && h in Ops(P) && h !in Fused(P) && h in P.graph
    ensures var d, e := P.graph[h], Rewritten(P, Fused(P)).graph[h];
            && e.identifier == d.identifier
            && e.parent == HeadOf(P, Fused(P), d.parent) && e.other == HeadOf(P, Fused(P), d.other)
            && e.bcvars == OptimisedBcvars(P, h)
  {
  }

  /** The head of a chain computes what it computed before, on the redirected inputs. */
  lemma HeadOutSame<R, D, S>(P: Plan<R>, I: Interp<R, D, S>, v: Valuation<R, D>, w: Valuation<R, D>, h: R)
    requires WellFormed(P) && NamesApart(P) && ReadsOwn(P, I) && Total(P, v)
    requires w == Lifted(Rewritten(P, Fused(P)), v) && SameBroadcast(P, v, w)
    requires h in Ops(P) && h !in Fused(P) && h in P.graph
    ensures HeadOut(I, Rewritten(P, Fused(P)).graph, h, w) == HeadOut(I, P.graph, h, v)
  {
    RewrittenOpFields(P, h);
    LiftedInputs(P, v, h);
    SameEnv(P, I, v, w, h);
    SameHeadOut(I, h, Rewritten(P, Fused(P)).graph, w, P.graph, v);
  }

  ghost predicate HeadsSolved<R, D, S>(P: Plan<R>, I: Interp<R, D, S>, v: Valuation<R, D>) {
    forall n {:trigger HeadOut(I, P.graph, n, v)} ::
      n in Ops(P) && n in P.graph && n in v ==> v[n] == HeadOut(I, P.graph, n, v)
  }

  /** A merged set computes, on the output of the link before it, what it computed as a set. */
  lemma LinkOutSame<R, D, S>(P: Plan<R>, I: Interp<R, D, S>, v: Valuation<R, D>, w: Valuation<R, D>, h: R, k: nat)
    requires WellFormed(P) && NamesApart(P) && ReadsOwn(P, I) && Total(P, v)
    requires HeadsSolved(P, I, v) && SameBroadcast(P, v, w)
    requires h in Ops(P) && h !in Fused(P) && 0 < k < |Links(P, Fused(P), h)|
    ensures var Q, links := Rewritten(P, Fused(P)), Links(P, Fused(P), h);
            var n := links[k];
            h in Q.graph && n in P.graph && links[k - 1] in v && n in v &&
            LinkOut(I, Q.graph, h, n, w, v[links[k - 1]]) == v[n]
  {
    var n := Links(P, Fused(P), h)[k];
    LinkParent(P, Fused(P), h, k - 1);
    HeadOfLink(P, Fused(P), h, k);
    SameEnv(P, I, v, w, n);
    assert n in Fused(P) && n in Ops(P) && n in v;
    assert v[n] == HeadOut(I, P.graph, n, v);
    RewrittenOpFields(P, h);
    HeadOfLink(P, Fused(P), h, 0);
  }

  lemma ChainOutExtend<R, D, S>(I: Interp<R, D, S>, g: Graph<R>, links: seq<R>, k: nat, w: Valuation<R, D>, xs: seq<D>)
    requires 0 < k < |links| && links[0] in g
    requires ChainOut(I, g, links[..k], w) == xs
    ensures ChainOut(I, g, links[..k + 1], w) == LinkOut(I, g, links[0], links[k], w, xs)
  {
    assert links[..k + 1][..k] == links[..k];
  }

  /** The first links of a chain, up to number `k`, give the records of that link. */
  ghost predicate LinkReached<R, D, S>(I: Interp<R, D, S>, g: Graph<R>, links: seq<R>, v: Valuation<R, D>,
                                       w: Valuation<R, D>, k: nat)
    requires k < |links| && links[0] in g
  {
    (links[k] in v && ChainOut(I, g, links[..k + 1], w) == v[links[k]]) == true
  }

  /** Link number `k` makes its records of those of the link before it. */
  ghost predicate LinkStep<R, D, S>(I: Interp<R, D, S>, g: Graph<R>, links: seq<R>, v: Valuation<R, D>,
                                    w: Valuation<R, D>, k: nat)
    requires 0 < k < |links| && links[0] in g
  {
    (links[k - 1] in v && links[k] in v && LinkOut(I, g, links[0], links[k], w, v[links[k - 1]]) == v[links[k]]) == true
  }

  /** Running the first links of a chain gives the records of the last of them. */
  lemma {:induction false} ChainOutSame<R, D, S>(I: Interp<R, D, S>, g: Graph<R>, links: seq<R>, v: Valuation<R, D>,
                                                 w: Valuation<R, D>, k: nat)
    requires k < |links| && links[0] in g && LinkReached(I, g, links, v, w, 0)
    requires forall i {:trigger LinkStep(I, g, links, v, w, i)} :: 0 < i < |links| ==> LinkStep(I, g, links, v, w, i)
    ensures LinkReached(I, g, links, v, w, k)
    decreases k
  {
    if k > 0 {
      ChainOutSame(I, g, links, v, w, k - 1);
      assert LinkStep(I, g, links, v, w, k);
      ChainOutExtend(I, g, links, k, w, v[links[k - 1]]);
    }
  }

  lemma FirstLinkSame<R, D, S>(P: Plan<R>, I: Interp<R, D, S>, v: Valuation<R, D>, w: Valuation<R, D>,
                               h: R, links: seq<R>, g: Graph<R>)
    requires WellFormed(P) && NamesApart(P) && ReadsOwn(P, I) && Total(P, v)
    requires HeadsSolved(P, I, v)
    requires w == Lifted(Rewritten(P, Fused(P)), v) && SameBroadcast(P, v, w)
    requires h in Ops(P) && h !in Fused(P) && h in P.graph
    requires links == Links(P, Fused(P), h) && g == RewrittenGraph(P, Fused(P))
    ensures links[0] in g && LinkReached(I, g, links, v, w, 0)
  {
    assert links[..1] == [h];
    HeadOutSame(P, I, v, w, h);
  }

  lemma NextLinkSame<R, D, S>(P: Plan<R>, I: Interp<R, D, S>, v: Valuation<R, D>, w: Valuation<R, D>,
                              h: R, links: seq<R>, g: Graph<R>, k: nat)
    requires WellFormed(P) && NamesApart(P) && ReadsOwn(P, I) && Total(P, v)
    requires HeadsSolved(P, I, v) && SameBroadcast(P, v, w)
    requires h in Ops(P) && h !in Fused(P) && 0 < k < |links| && links[0] in g
    requires links == Links(P, Fused(P), h) && g == RewrittenGraph(P, Fused(P))
    ensures LinkStep(I, g, links, v, w, k)
  {
    LinkOutSame(P, I, v, w, h, k);
  }

  lemma ChainOutAll<R, D, S>(P: Plan<R>, I: Interp<R, D, S>, v: Valuation<R, D>, w: Valuation<R, D>,
                             h: R, links: seq<R>, g: Graph<R>)
    requires WellFormed(P) && NamesApart(P) && ReadsOwn(P, I) && Total(P, v)
    requires HeadsSolved(P, I, v)
    requires w == Lifted(Rewritten(P, Fused(P)), v) && SameBroadcast(P, v, w)
    requires h in Ops(P) && h !in Fused(P) && h in P.graph
    requires links == Links(P, Fused(P), h) && g == RewrittenGraph(P, Fused(P))
    ensures links[|links| - 1] in v && links[0] in g && ChainOut(I, g, links, w) == v[links[|links| - 1]]
  {
    FirstLinkSame(P, I, v, w, h, links, g);
    forall i | 0 < i < |links| ensures LinkStep(I, g, links, v, w, i) {
      NextLinkSame(P, I, v, w, h, links, g, i);
    }
    ChainOutLast(I, g, links, v, w);
  }

  lemma ChainOutLast<R, D, S>(I: Interp<R, D, S>, g: Graph<R>, links: seq<R>, v: Valuation<R, D>, w: Valuation<R, D>)
    requires links != [] && links[0] in g && LinkReached(I, g, links, v, w, 0)
    requires forall i {:trigger LinkStep(I, g, links, v, w, i)} :: 0 < i < |links| ==> LinkStep(I, g, links, v, w, i)
    ensures links[|links| - 1] in v && ChainOut(I, g, links, w) == v[links[|links| - 1]]
  {
    ChainOutSame(I, g, links, v, w, |links| - 1);
    assert links[..|links|] == links;
  }

  lemma WholeChainOut<R, D, S>(P: Plan<R>, I: Interp<R, D, S>, v: Valuation<R, D>, w: Valuation<R, D>, h: R)
    requires WellFormed(P) && NamesApart(P) && ReadsOwn(P, I) && Total(P, v)
    requires HeadsSolved(P, I, v)
    requires w == Lifted(Rewritten(P, Fused(P)), v) && SameBroadcast(P, v, w)
    requires h in Ops(P) && h !in Fused(P)
    ensures h in P.graph && Last(P, Fused(P), h) in v
    ensures ChainOut(I, Rewritten(P, Fused(P)).graph, Links(P, Fused(P), h), w) == v[Last(P, Fused(P), h)]
  {
    ChainOutAll(P, I, v, w, h, Links(P, Fused(P), h), RewrittenGraph(P, Fused(P)));
  }

  lemma LiftedSolves<R, D, S>(P: Plan<R>, I: Interp<R, D, S>, v: Valuation<R, D>, w: Valuation<R, D>, n: R)
    requires WellFormed(P) && NamesApart(P) && ReadsOwn(P, I) && Total(P, v)
    requires HeadsSolved(P, I, v)
    requires w == Lifted(Rewritten(P, Fused(P)), v) && SameBroadcast(P, v, w)
    requires n in Ops(Rewritten(P, Fused(P)))
    ensures var Q := Rewritten(P, Fused(P)); n in Q.graph && NodeSolved(Q, I, w, n)
  {
    SurvivorsMembers(P.sets, Fused(P), n);
    LiftedAt(P, v, n);
    OptimisedChain(P, Fused(P), n);
    WholeChainOut(P, I, v, w, n);
  }

  lemma SinksSame<R, D>(P: Plan<R>, v: Valuation<R, D>, s: R)
    requires WellFormed(P) && Total(P, v) && s in P.sinks && s in P.graph
    ensures var Q := Rewritten(P, Fused(P));
            Input(Lifted(Q, v), Q.graph[s].parent) == Input(v, P.graph[s].parent)
  {
    SinkInputsAreLast(P, Fused(P), s);
    LiftedInput(P, v, P.graph[s].parent.value);
  }

  /** MAIN: for every interpretation and every solution of the plan as built, the optimised plan is
      solved by the corresponding valuation, and all sinks and broadcast variables read the same
      records as before. */
  lemma PassPreservesMeaning<R, D, S>(P: Plan<R>, I: Interp<R, D, S>, v: Valuation<R, D>)
    requires WellFormed(P) && Fresh(P) && ReadsOwn(P, I) && Solves(P, I, v)
    requires NoFusedSource(P) && NamesApart(P)
    ensures Preserves(P, Pass(P), I, v)
  {
    PassIsRewritten(P);
    var Q := Rewritten(P, Fused(P));
    var w := Lifted(Q, v);
    forall n | n in Ops(P)
      ensures n in v && n in P.graph && v[n] == HeadOut(I, P.graph, n, v)
    {
      SolvedFresh(P, I, v, n);
    }
    LiftedBroadcast(P, v);
    forall n | n in Ops(Q)
      ensures n in Q.graph && NodeSolved(Q, I, w, n)
    {
      LiftedSolves(P, I, v, w, n);
    }
    forall s | s in P.sinks && s in P.graph
      ensures s in Q.graph && Input(w, Q.graph[s].parent) == Input(v, P.graph[s].parent)
    {
      SinksSame(P, v, s);
    }
  }

  // ---------------------------------------------------------------------------------------------
  // What a solution is, spelled out
  // ---------------------------------------------------------------------------------------------

  /** `x` is the name of the broadcast variable number `i`, and of none that was registered after it. */
  ghost predicate LastNamed<R>(g: Graph<R>, bs: seq<R>, x: string, i: nat) {
    && i < |bs| && bs[i] in g && g[bs[i]].name == x
    && forall j :: i < j < |bs| ==> bs[j] !in g || g[bs[j]].name != x
  }

  /** A user function sees, under a name, what the variable registered last for the name reads. */
  lemma {:induction false} ResolveIsLast<R>(g: Graph<R>, bs: seq<R>, x: string, i: nat)
    requires LastNamed(g, bs, x, i)
    ensures Resolve(g, bs, x) == g[bs[i]].other
  {
    var n := |bs| - 1;
    if i < n {
      assert bs[n] !in g || g[bs[n]].name != x;
      ResolveIsLast(g, bs[..n], x, i);
    }
  }

  /** MAIN: in a plan that was just built, a solution gives a map, filter or flat map the records its function
      emits for those of its input, and every other operation what its function makes of its inputs, the
      parent first. */
  lemma SolvedAsBuilt<R, D, S>(P: Plan<R>, I: Interp<R, D, S>, v: Valuation<R, D>, n: R)
    requires Closed(P) && Fresh(P) && Solves(P, I, v) && n in Ops(P)
    ensures n in P.graph && n in v
    ensures var d := P.graph[n]; var env := EnvOf(P.graph, d.bcvars, I.looksUp(n), v);
            && (d.parent.Some? ==> d.parent.value in v)
            && (d.other.Some? ==> d.other.value in v)
            && (d.identifier == Map || d.identifier == Filter || d.identifier == FlatMap ==>
                  d.parent.Some? && v[n] == Run(I.stage(n, env), v[d.parent.value]))
            && (d.identifier != Map && d.identifier != Filter && d.identifier != FlatMap ==>
                  match (d.parent, d.other)
                  case (Some(p), Some(o)) => v[n] == I.whole(n, v[p], v[o], env)
                  case (Some(p), None) => v[n] == I.whole(n, v[p], [], env)
                  case (None, _) => v[n] == I.whole(n, [], [], env))
  {
    assert NodeSolved(P, I, v, n);
    FreshChain(P, n);
    if n in P.sets {
      assert SetOk(P, n);
      assert NodeSolved(P, I, v, P.graph[n].parent.value);
      if P.graph[n].other.Some? {
        assert NodeSolved(P, I, v, P.graph[n].other.value);
      }
    } else {
      assert SourceOk(P, n);
    }
  }

  /** The broadcast variables that a function sees in such a plan. */
  lemma SeenAsBuilt<R, D, S>(P: Plan<R>, I: Interp<R, D, S>, v: Valuation<R, D>, n: R, x: string, i: nat)
    requires Closed(P) && Fresh(P) && Solves(P, I, v) && n in Ops(P) && n in P.graph
    requires x in I.looksUp(n) && LastNamed(P.graph, P.graph[n].bcvars, x, i)
    ensures var b := P.graph[P.graph[n].bcvars[i]]; var env := EnvOf(P.graph, P.graph[n].bcvars, I.looksUp(n), v);
            b.other.Some? && b.other.value in v && x in env && env[x] == v[b.other.value]
  {
    ResolveIsLast(P.graph, P.graph[n].bcvars, x, i);
    assert OutEdgesOk(P, n);
    assert P.graph[n].bcvars[i] in P.graph[n].bcvars;
    assert NodeSolved(P, I, v, P.graph[P.graph[n].bcvars[i]].other.value);
  }
}
