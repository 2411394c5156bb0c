/** The meaning of a chain in an optimised plan is what its operators compute at run time, pushing
    records one by one. */
module ChainRuntime {
  import opened Common
  import opened Stages
  import opened PlanGraph
  import opened ChainResults
  import opened PlanMeaning
  import opened FusedChain

  /** The merged links of a chain run the user functions `us` from states `ss`, each with the broadcast
      variables of the head. */
  ghost predicate RunAs<R, D, S>(I: Interp<R, D, S>, g: Graph<R>, links: seq<R>, v: Valuation<R, D>,
                                 us: seq<Udf<D, S>>, ss: seq<S>)
    requires links != [] && links[0] in g
  {
    && |us| == |ss| == |links| - 1
    && forall i :: 0 < i < |links| ==>
         I.stage(links[i], EnvOf(g, g[links[0]].bcvars, I.looksUp(links[i]), v)) == AsStage(us[i - 1], ss[i - 1])
  }

  /** One more operator at the end of a chain runs on the whole output of the others. */
  lemma {:induction false} StagedSnoc<D, S>(us: seq<Udf<D, S>>, ss: seq<S>, u: Udf<D, S>, s: S, xs: seq<D>)
    requires |us| == |ss|
    ensures Staged(us + [u], ss + [s], xs).1 == Run(AsStage(u, s), Staged(us, ss, xs).1)
    decreases |us|
  {
    if us == [] {
      assert ([u] + [])[1..] == [];
      assert us + [u] == [u] && ss + [s] == [s];
    } else {
      assert (us + [u])[1..] == us[1..] + [u] && (ss + [s])[1..] == ss[1..] + [s];
      StagedSnoc(us[1..], ss[1..], u, s, RunFrom(AsStage(us[0], ss[0]), ss[0], xs).1);
    }
  }

  lemma {:induction false} ChainOutIsStaged<R, D, S>(I: Interp<R, D, S>, g: Graph<R>, links: seq<R>, v: Valuation<R, D>,
                                                     us: seq<Udf<D, S>>, ss: seq<S>)
    requires links != [] && links[0] in g && RunAs(I, g, links, v, us, ss)
    ensures ChainOut(I, g, links, v) == Staged(us, ss, HeadOut(I, g, links[0], v)).1
    decreases |links|
  {
    var k := |us|;
    if k > 0 {
      assert us == us[..k - 1] + [us[k - 1]] && ss == ss[..k - 1] + [ss[k - 1]];
      ChainOutIsStaged(I, g, links[..k], v, us[..k - 1], ss[..k - 1]);
      StagedSnoc(us[..k - 1], ss[..k - 1], us[k - 1], ss[k - 1], HeadOut(I, g, links[0], v));
    }
  }

  /** MAIN: in a plan with chains, the records of a node are what the operators merged into it push to
      the collector when the records of its own function are pushed into them. */
  lemma ChainIsPushed<R, D, S>(Q: Plan<R>, I: Interp<R, D, S>, v: Valuation<R, D>, n: R, us: seq<Udf<D, S>>, ss: seq<S>)
    requires Solves(Q, I, v) && n in Ops(Q) && n in Q.graph
    requires ChainFrom(Q.graph, n) != [] && RunAs(I, Q.graph, ChainFrom(Q.graph, n), v, us, ss)
    ensures n in v && v[n] == PushAll(us, ss, HeadOut(I, Q.graph, n, v)).1
  {
    assert NodeSolved(Q, I, v, n);
    ChainOutIsStaged(I, Q.graph, ChainFrom(Q.graph, n), v, us, ss);
    PushedIsStaged(us, ss, HeadOut(I, Q.graph, n, v));
  }
}
