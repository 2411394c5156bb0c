/** The conditions under which the chaining pass preserves meaning are exact: whenever one of them
    fails, some user functions make the optimised plan compute something else. */
module PlanMeaningExact {
  import opened Common
  import opened Stages
  import opened PlanGraph
  import opened ChainStep
  import opened Chains
  import opened ChainResults
  import opened PlanMeaning

  /** Maps emit one record per record and filters emit the record or nothing. */
  ghost predicate KindRespecting<R, D(!new), S(!new)>(P: Plan<R>, I: Interp<R, D, S>) {
    forall n, env: Env<D>, s: S, x: D {:trigger I.stage(n, env).step(s, x)} :: n in P.sets && n in P.graph ==>
      var out := I.stage(n, env).step(s, x).1;
      && (P.graph[n].identifier.Map? ==> |out| == 1)
      && (P.graph[n].identifier.Filter? ==> out == [x] || out == [])
  }

  /** Whatever the user functions do, every solution of the plan as built carries over. */
  ghost predicate AlwaysPreserved<R(!new)>(P: Plan<R>) {
    forall I: Interp<R, int, ()>, v: Valuation<R, int> ::
      KindRespecting(P, I) && ReadsOwn(P, I) && Solves(P, I, v) ==> Preserves(P, Pass(P), I, v)
  }

  // ---------------------------------------------------------------------------------------------
  // User functions that tell two nodes apart
  // ---------------------------------------------------------------------------------------------

  /** Copies its input; the special one changes it so that 0, 1 never comes out. */
  function GoodStage(i: Identifier, special: bool): Stage<int, ()> {
    if !special then Stage((), (u, d) => ((), [d]))
    else if i.Map? then Stage((), (u, d) => ((), [d + 2]))
    else Stage((), (u, d) => ((), if d == 0 then [d] else []))
  }

  /** What a node does when a broadcast variable is not what it expects. */
  function BadStage(i: Identifier): Stage<int, ()> {
    if i.Map? then Stage((), (u, d) => ((), [99])) else Stage((), (u, d) => ((), []))
  }

  predicate Bad<R(==)>(l: Option<R>, x: string, good: seq<int>, n: R, env: Env<int>) {
    Some(n) == l && (x !in env || env[x] != good)
  }

  /** Node `s` is special, and node `l`, if any, expects the records `good` under the name `x`. */
  ghost function Probe<R>(P: Plan<R>, s: R, l: Option<R>, x: string, good: seq<int>): Interp<R, int, ()> {
    Interp(
      (n, env) =>
        var i := if n in P.graph then P.graph[n].identifier else Map;
        if Bad(l, x, good, n, env) then BadStage(i) else GoodStage(i, n == s),
      (n, a, b, env) => if Bad(l, x, good, n, env) then [99] else if n == s then [5] else [0, 1],
      n => if Some(n) == l then {x} else {})
  }

  ghost function Val<R>(P: Plan<R>, s: R, n: R): seq<int>
    requires Closed(P) && n in Ops(P)
    decreases Rank(P.sets, n)
  {
    if n in P.sets && RecordWise(P.graph[n].identifier) then
      assert SetOk(P, n);
      Run(GoodStage(P.graph[n].identifier, n == s), Val(P, s, P.graph[n].parent.value))
    else if n == s then [5] else [0, 1]
  }

  ghost function Vals<R>(P: Plan<R>, s: R): Valuation<R, int>
    requires Closed(P)
  {
    map n | n in Ops(P) :: Val(P, s, n)
  }

  predicate Small(xs: seq<int>) {
    xs == [0, 1] || xs == [2, 3] || xs == [0] || xs == [5]
  }

  predicate Big(xs: seq<int>) {
    forall i :: 0 <= i < |xs| ==> 10 <= xs[i]
  }

  lemma {:induction false} CopyRuns(i: Identifier, u: (), xs: seq<int>)
    ensures RunFrom(GoodStage(i, false), u, xs).1 == xs
  {
    if xs != [] {
      CopyRuns(i, (), xs[1..]);
    }
  }

  lemma SpecialRuns(i: Identifier)
    ensures Small(Run(GoodStage(i, true), [0, 1])) && Run(GoodStage(i, true), [0, 1]) != [0, 1]
  {
    var st := GoodStage(i, true);
    assert [0, 1][1..] == [1] && [1][1..] == [];
    assert RunFrom(st, (), [1]) == ((), st.step((), 1).1 + []);
  }

  lemma {:induction false} GoodKeepsBig(i: Identifier, special: bool, u: (), xs: seq<int>)
    requires Big(xs)
    ensures Big(RunFrom(GoodStage(i, special), u, xs).1)
  {
    if xs != [] {
      GoodKeepsBig(i, special, (), xs[1..]);
    }
  }

  lemma {:induction false} BadIsBig(i: Identifier, u: (), xs: seq<int>)
    ensures Big(RunFrom(BadStage(i), u, xs).1)
  {
    if xs != [] {
      BadIsBig(i, (), xs[1..]);
    }
  }

  /** Up to the special node everything carries the records 0, 1. */
  lemma {:induction false} ValBefore<R>(P: Plan<R>, s: R, n: R)
    requires Closed(P) && n in Ops(P) && n != s && Rank(P.sets, n) <= Rank(P.sets, s)
    ensures Val(P, s, n) == [0, 1]
    decreases Rank(P.sets, n)
  {
    if n in P.sets && RecordWise(P.graph[n].identifier) {
      assert SetOk(P, n);
      ValBefore(P, s, P.graph[n].parent.value);
      CopyRuns(P.graph[n].identifier, (), [0, 1]);
    }
  }

  lemma ValSpecial<R>(P: Plan<R>, s: R)
    requires Closed(P) && s in Ops(P)
    ensures Small(Val(P, s, s)) && Val(P, s, s) != [0, 1]
  {
    if s in P.sets && RecordWise(P.graph[s].identifier) {
      assert SetOk(P, s);
      ValBefore(P, s, P.graph[s].parent.value);
      SpecialRuns(P.graph[s].identifier);
    }
  }

  lemma {:induction false} ValSmall<R>(P: Plan<R>, s: R, n: R)
    requires Closed(P) && n in Ops(P) && s in Ops(P)
    ensures Small(Val(P, s, n))
    decreases Rank(P.sets, n)
  {
    if n == s {
      ValSpecial(P, s);
    } else if n in P.sets && RecordWise(P.graph[n].identifier) {
      assert SetOk(P, n);
      var q := P.graph[n].parent.value;
      ValSmall(P, s, q);
      CopyRuns(P.graph[n].identifier, (), Val(P, s, q));
    }
  }

  /** Two different nodes are told apart by making the later one special. */
  lemma Separated<R>(P: Plan<R>, a: R, b: R)
    requires Closed(P) && a in Ops(P) && b in Ops(P) && a != b
    ensures var s := if Rank(P.sets, a) <= Rank(P.sets, b) then b else a; Val(P, s, a) != Val(P, s, b)
  {
    if Rank(P.sets, a) <= Rank(P.sets, b) {
      ValBefore(P, b, a);
      ValSpecial(P, b);
    } else {
      ValBefore(P, a, b);
      ValSpecial(P, a);
    }
  }

  // ---------------------------------------------------------------------------------------------
  // The probes are admissible
  // ---------------------------------------------------------------------------------------------

  lemma ProbeRespectsKinds<R>(P: Plan<R>, s: R, l: Option<R>, x: string, good: seq<int>)
    ensures KindRespecting(P, Probe(P, s, l, x, good))
  {
  }

  /** In the plan as built, `l` finds under the name `x` what it expects. */
  ghost predicate Expects<R>(P: Plan<R>, s: R, l: Option<R>, x: string, good: seq<int>)
    requires Closed(P)
  {
    l.Some? ==>
      && l.value in Ops(P) && l.value in P.graph && Registered(P.graph, P.graph[l.value].bcvars, x)
      && var o := Resolve(P.graph, P.graph[l.value].bcvars, x);
         o.Some? && o.value in Ops(P) && good == Val(P, s, o.value)
  }

  lemma ProbeReadsOwn<R>(P: Plan<R>, s: R, l: Option<R>, x: string, good: seq<int>)
    requires Closed(P) && Expects(P, s, l, x, good)
    ensures ReadsOwn(P, Probe(P, s, l, x, good))
  {
  }

  lemma ProbeNodeSolved<R>(P: Plan<R>, s: R, l: Option<R>, x: string, good: seq<int>, n: R)
    requires Closed(P) && Fresh(P) && Expects(P, s, l, x, good) && n in Ops(P)
    ensures n in P.graph && HeadOut(Probe(P, s, l, x, good), P.graph, n, Vals(P, s)) == Val(P, s, n)
  {
    var I, v := Probe(P, s, l, x, good), Vals(P, s);
    var env := EnvOf(P.graph, P.graph[n].bcvars, I.looksUp(n), v);
    assert !Bad(l, x, good, n, env);
    if n in P.sets {
      assert SetOk(P, n);
      assert Input(v, P.graph[n].parent) == Val(P, s, P.graph[n].parent.value);
    } else {
      assert SourceOk(P, n);
    }
  }

  lemma ProbeSolves<R>(P: Plan<R>, s: R, l: Option<R>, x: string, good: seq<int>)
    requires Closed(P) && Fresh(P) && Expects(P, s, l, x, good)
    ensures Solves(P, Probe(P, s, l, x, good), Vals(P, s))
  {
    var I, v := Probe(P, s, l, x, good), Vals(P, s);
    forall n | n in Ops(P)
      ensures n in P.graph && NodeSolved(P, I, v, n)
    {
      ProbeNodeSolved(P, s, l, x, good, n);
      FreshChain(P, n);
    }
  }

  // ---------------------------------------------------------------------------------------------
  // A broadcast variable that reads a fused parent
  // ---------------------------------------------------------------------------------------------

  /** The chain of a fused parent goes on to a later set. */
  lemma FusedParentIsNotLast<R>(P: Plan<R>, p: R, c: R)
    requires WellFormed(P) && c in Fused(P) && c in P.graph && P.graph[c].parent == Some(p)
    ensures p in Ops(P) && Head(P, Fused(P), p) in Ops(P)
    ensures Last(P, Fused(P), Head(P, Fused(P), p)) in Ops(P)
    ensures Last(P, Fused(P), Head(P, Fused(P), p)) != p
  {
    var M := Fused(P);
    NextOfParent(P, M, c);
    ChainSplit(P, M, p);
    assert Last(P, M, Head(P, M, p)) == Last(P, M, p);
    LinkRanks(P, M, p, |Links(P, M, p)| - 1);
  }

  lemma LiftedBroadcastInput<R>(P: Plan<R>, v: Valuation<R, int>, b: R)
    requires WellFormed(P) && Fresh(P) && Total(P, v) && b in P.broadcast && b in P.graph
    ensures P.graph[b].other.Some? && P.graph[b].other.value in Ops(P)
    ensures var e := Last(P, Fused(P), Head(P, Fused(P), P.graph[b].other.value));
            e in v && b in Pass(P).graph && Input(Lifted(Pass(P), v), Pass(P).graph[b].other) == v[e]
  {
    PassIsRewritten(P);
    LiftedAt(P, v, Head(P, Fused(P), P.graph[b].other.value));
  }

  /** If a broadcast variable reads a set into which another set is merged, it may receive the
      records of that other set instead. */
  lemma FusedSourceBreaks<R>(P: Plan<R>, b: R, c: R) returns (I: Interp<R, int, ()>, v: Valuation<R, int>)
    requires WellFormed(P) && Fresh(P)
    requires b in P.broadcast && c in Fused(P) && b in P.graph && c in P.graph
    requires P.graph[b].other == P.graph[c].parent
    ensures KindRespecting(P, I) && ReadsOwn(P, I) && Solves(P, I, v)
    ensures !Preserves(P, Pass(P), I, v)
  {
    var p := P.graph[b].other.value;
    FusedParentIsNotLast(P, p, c);
    var e := Last(P, Fused(P), Head(P, Fused(P), p));
    var s := if Rank(P.sets, p) <= Rank(P.sets, e) then e else p;
    Separated(P, p, e);
    I, v := Probe(P, s, None, "", []), Vals(P, s);
    ProbeRespectsKinds(P, s, None, "", []);
    ProbeReadsOwn(P, s, None, "", []);
    ProbeSolves(P, s, None, "", []);
    LiftedBroadcastInput(P, v, b);
    assert Input(v, P.graph[b].other) == Val(P, s, p);
  }

  // ---------------------------------------------------------------------------------------------
  // Broadcast names that clash within a chain
  // ---------------------------------------------------------------------------------------------

  lemma {:induction false} OwnBcvarsInChain<R>(g: Graph<R>, links: seq<R>, i: nat, b: R)
    requires i < |links| && forall j :: 0 <= j < |links| ==> links[j] in g
    requires b in g[links[i]].bcvars
    ensures b in ChainBcvars(g, links)
  {
    if i > 0 {
      OwnBcvarsInChain(g, links[1..], i - 1, b);
    }
  }

  /** A clash: the name resolves to one node for the set itself and to another for its chain. */
  lemma ClashResolves<R>(P: Plan<R>, n: R, b: R) returns (own: R, other: R, b': R)
    requires WellFormed(P) && n in Ops(P) && n in P.graph && b in P.graph[n].bcvars && b in P.graph
    requires !NameKept(P, n, P.graph[b].name)
    ensures own != other && own in Ops(P) && other in Ops(P)
    ensures Registered(P.graph, P.graph[n].bcvars, P.graph[b].name)
    ensures Resolve(P.graph, P.graph[n].bcvars, P.graph[b].name) == Some(own)
    ensures Resolve(P.graph, OptimisedBcvars(P, n), P.graph[b].name) == Some(other)
    ensures b' in P.broadcast && b' in P.graph && P.graph[b'].other == Some(other)
  {
    var M, x := Fused(P), P.graph[b].name;
    var h := Head(P, M, n);
    assert OutEdgesOk(P, n);
    ChainBcvarsAreBroadcast(P, Links(P, M, h));
    ChainSplit(P, M, n);
    assert Links(P, M, h)[|Before(P, M, n)|] == n;
    OwnBcvarsInChain(P.graph, Links(P, M, h), |Before(P, M, n)|, b);
    ResolveRegistered(P.graph, P.graph[n].bcvars, x);
    ResolveRegistered(P.graph, OptimisedBcvars(P, n), x);
    own := Resolve(P.graph, P.graph[n].bcvars, x).value;
    other := Resolve(P.graph, OptimisedBcvars(P, n), x).value;
    b' :| b' in OptimisedBcvars(P, n) && P.graph[b'].other == Some(other);
  }

  /** Once a link of the chain misbehaves, the output of the chain is big. */
  lemma {:induction false} BadLinkSpoilsChain<R>(P: Plan<R>, I: Interp<R, int, ()>, g: Graph<R>, links: seq<R>,
                                                 k: nat, w: Valuation<R, int>,
                                                 s: R, l: R, x: string, good: seq<int>, j: nat)
    requires I == Probe(P, s, Some(l), x, good)
    requires k <= j < |links| && links[0] in g && links[k] == l
    requires forall i :: 0 <= i < |links| ==> links[i] in P.graph && links[i] in g
    requires forall i :: k < i < |links| ==> links[i] != l
    requires g[links[0]].identifier == P.graph[links[0]].identifier
    requires Bad(Some(l), x, good, l, EnvOf(g, g[links[0]].bcvars, {x}, w))
    ensures Big(ChainOut(I, g, links[..j + 1], w))
    decreases j
  {
    if j == 0 {
      assert links[..1] == [l];
      BadIsBig(P.graph[l].identifier, (), Input(w, g[l].parent));
    } else {
      assert links[..j + 1][..j] == links[..j];
      var xs := ChainOut(I, g, links[..j], w);
      if j == k {
        BadIsBig(P.graph[l].identifier, (), xs);
      } else {
        BadLinkSpoilsChain(P, I, g, links, k, w, s, l, x, good, j - 1);
        GoodKeepsBig(P.graph[links[j]].identifier, links[j] == s, (), xs);
      }
    }
  }

  /** In the optimised plan the clashing name delivers the records of the other node. */
  lemma ClashingEnv<R>(P: Plan<R>, s: R, n: R, x: string, own: R, other: R, b: R)
    requires WellFormed(P) && NoFusedSource(P) && n in Ops(P) && n in P.graph
    requires own in Ops(P) && other in Ops(P) && Val(P, s, own) != Val(P, s, other)
    requires Resolve(P.graph, OptimisedBcvars(P, n), x) == Some(other)
    requires b in P.broadcast && b in P.graph && P.graph[b].other == Some(other)
    ensures var Q := Rewritten(P, Fused(P));
            Bad(Some(n), x, Val(P, s, own), n, EnvOf(Q.graph, OptimisedBcvars(P, n), {x}, Lifted(Q, Vals(P, s))))
  {
    var M := Fused(P);
    ChainBcvarsAreBroadcast(P, Links(P, M, Head(P, M, n)));
    ResolveRewritten(P, M, OptimisedBcvars(P, n), x);
    BroadcastSourceIsLast(P, b);
    LiftedInput(P, Vals(P, s), other);
  }

  /** The position of `n` in its chain. */
  lemma LinkAt<R>(P: Plan<R>, M: set<R>, n: R) returns (k: nat)
    requires Merges(P, M) && n in Ops(P)
    ensures var links := Links(P, M, Head(P, M, n));
            k < |links| && links[k] == n && forall i :: k < i < |links| ==> links[i] != n
  {
    var links := Links(P, M, Head(P, M, n));
    k := |Before(P, M, n)|;
    ChainSplit(P, M, n);
    LinksDistinct(P, M, Head(P, M, n));
    assert links[k] == n;
  }

  /** What the chain of `n` looks like to the user functions in the optimised plan. */
  lemma ClashedChain<R>(P: Plan<R>, s: R, n: R, x: string, own: R, other: R, b: R, h: R, links: seq<R>, g: Graph<R>,
                        w: Valuation<R, int>)
    requires WellFormed(P) && NoFusedSource(P) && n in Ops(P) && n in P.graph
    requires own in Ops(P) && other in Ops(P) && Val(P, s, own) != Val(P, s, other)
    requires Resolve(P.graph, OptimisedBcvars(P, n), x) == Some(other)
    requires b in P.broadcast && b in P.graph && P.graph[b].other == Some(other)
    requires h == Head(P, Fused(P), n) && links == Links(P, Fused(P), h) && g == RewrittenGraph(P, Fused(P))
    requires w == Lifted(Rewritten(P, Fused(P)), Vals(P, s))
    ensures links != [] && links[0] == h && forall i :: 0 <= i < |links| ==> links[i] in P.graph && links[i] in g
    ensures h in P.graph && h in g && g[h].identifier == P.graph[h].identifier
    ensures Bad(Some(n), x, Val(P, s, own), n, EnvOf(g, g[h].bcvars, {x}, w))
  {
    ClashingEnv(P, s, n, x, own, other, b);
    RewrittenOpFields(P, h);
  }

  lemma ClashSpoils<R>(P: Plan<R>, s: R, n: R, x: string, good: seq<int>, h: R, links: seq<R>, g: Graph<R>,
                       w: Valuation<R, int>, k: nat)
    requires links != [] && links[0] == h && forall i :: 0 <= i < |links| ==> links[i] in P.graph && links[i] in g
    requires g[h].identifier == P.graph[h].identifier
    requires k < |links| && links[k] == n && forall i :: k < i < |links| ==> links[i] != n
    requires Bad(Some(n), x, good, n, EnvOf(g, g[h].bcvars, {x}, w))
    ensures Big(ChainOut(Probe(P, s, Some(n), x, good), g, links, w))
  {
    BadLinkSpoilsChain(P, Probe(P, s, Some(n), x, good), g, links, k, w, s, n, x, good, |links| - 1);
    assert links[..|links|] == links;
  }

  lemma ClashedChainIsBig<R>(P: Plan<R>, s: R, n: R, x: string, own: R, other: R, b: R, h: R, links: seq<R>,
                             g: Graph<R>, w: Valuation<R, int>)
    requires WellFormed(P) && NoFusedSource(P) && n in Ops(P) && n in P.graph
    requires own in Ops(P) && other in Ops(P) && Val(P, s, own) != Val(P, s, other)
    requires Resolve(P.graph, OptimisedBcvars(P, n), x) == Some(other)
    requires b in P.broadcast && b in P.graph && P.graph[b].other == Some(other)
    requires h == Head(P, Fused(P), n) && links == Links(P, Fused(P), h) && g == RewrittenGraph(P, Fused(P))
    requires w == Lifted(Rewritten(P, Fused(P)), Vals(P, s))
    ensures h in g && Big(ChainOut(Probe(P, s, Some(n), x, Val(P, s, own)), g, links, w))
  {
    ClashedChain(P, s, n, x, own, other, b, h, links, g, w);
    var k := LinkAt(P, Fused(P), n);
    ClashSpoils(P, s, n, x, Val(P, s, own), h, links, g, w, k);
  }

  lemma NotSolvedAt<R>(Q: Plan<R>, I: Interp<R, int, ()>, w: Valuation<R, int>, h: R)
    requires h in Ops(Q) && h in Q.graph && h in w && Small(w[h])
    requires ChainFrom(Q.graph, h) != [] && Big(ChainOut(I, Q.graph, ChainFrom(Q.graph, h), w))
    ensures !Solves(Q, I, w)
  {
    assert w[h][0] < 10;
    assert w[h] != ChainOut(I, Q.graph, ChainFrom(Q.graph, h), w);
    assert !NodeSolved(Q, I, w, h);
  }

  lemma BigIsNotSolved<R>(P: Plan<R>, I: Interp<R, int, ()>, s: R, h: R)
    requires WellFormed(P) && Fresh(P) && h in Ops(P) && h !in Fused(P) && s in Ops(P)
    requires h in Rewritten(P, Fused(P)).graph
    requires Big(ChainOut(I, Rewritten(P, Fused(P)).graph, Links(P, Fused(P), h),
             Lifted(Rewritten(P, Fused(P)), Vals(P, s))))
    ensures !Preserves(P, Pass(P), I, Vals(P, s))
  {
    PassIsRewritten(P);
    var Q, v := Rewritten(P, Fused(P)), Vals(P, s);
    LiftedAt(P, v, h);
    OptimisedChain(P, Fused(P), h);
    ValSmall(P, s, Last(P, Fused(P), h));
    NotSolvedAt(Q, I, Lifted(Q, v), h);
  }

  /** If a broadcast name of one link means another node for its chain, the link may see the wrong
      records. */
  lemma NameClashBreaks<R>(P: Plan<R>, n: R, b: R) returns (I: Interp<R, int, ()>, v: Valuation<R, int>)
    requires WellFormed(P) && Fresh(P) && NoFusedSource(P)
    requires n in Ops(P) && n in P.graph && b in P.graph[n].bcvars && b in P.graph
    requires !NameKept(P, n, P.graph[b].name)
    ensures KindRespecting(P, I) && ReadsOwn(P, I) && Solves(P, I, v)
    ensures !Preserves(P, Pass(P), I, v)
  {
    var x := P.graph[b].name;
    var own, other, b' := ClashResolves(P, n, b);
    var s := if Rank(P.sets, own) <= Rank(P.sets, other) then other else own;
    Separated(P, own, other);
    var good := Val(P, s, own);
    I, v := Probe(P, s, Some(n), x, good), Vals(P, s);
    ProbeRespectsKinds(P, s, Some(n), x, good);
    ProbeReadsOwn(P, s, Some(n), x, good);
    ProbeSolves(P, s, Some(n), x, good);
    var h, Q := Head(P, Fused(P), n), Rewritten(P, Fused(P));
    ClashedChainIsBig(P, s, n, x, own, other, b', h, Links(P, Fused(P), h), Q.graph, Lifted(Q, v));
    BigIsNotSolved(P, I, s, h);
  }

  /** MAIN: the pass preserves the meaning of a well formed plan for all user functions exactly when
      no broadcast variable reads a set into which another one is merged, and no chain gives a
      broadcast name of one of its links another meaning. */
  lemma PassPreservesMeaningIff<R(!new)>(P: Plan<R>)
    requires WellFormed(P) && Fresh(P)
    ensures AlwaysPreserved(P) <==> NoFusedSource(P) && NamesApart(P)
  {
    if NoFusedSource(P) && NamesApart(P) {
      forall I: Interp<R, int, ()>, v: Valuation<R, int> | KindRespecting(P, I) && ReadsOwn(P, I) && Solves(P, I, v)
        ensures Preserves(P, Pass(P), I, v)
      {
        PassPreservesMeaning(P, I, v);
      }
    } else if !NoFusedSource(P) {
      var b, c :|
        b in P.broadcast && c in Fused(P) && b in P.graph && c in P.graph && P.graph[b].other == P.graph[c].parent;
      var I, v := FusedSourceBreaks(P, b, c);
    } else {
      var n, b :|
        n in Ops(P) && n in P.graph && b in P.graph[n].bcvars && b in P.graph && !NameKept(P, n, P.graph[b].name);
      var I, v := NameClashBreaks(P, n, b);
    }
  }
}
