/** A program whose co-group goes wrong. */
module CoGroupExample {
  import opened Common
  import opened PlanGraph
  import opened PlanBuilders
  import opened CoGroupPlans
  import opened BuiltPlans

  const MAP_INFO := Info(Map, Some(0), "map", 0)
  const SOURCE_INFO := Info(SourceText, None, "", 0)
  const CO_GROUP_INFO := Info(CoGroup, Some(1), "co-group", 0)

  const SINK_INFO := Info(SinkText, None, "", 0)

  /** A source 0 and a map 1 of it. */
  function OneMap(): Plan<nat> {
    AddSet(AddSource(Empty<nat>(), 0, 0, SOURCE_INFO), 1, 1, MAP_INFO, 0)
  }

  /** The same with a map 2 of the map. */
  function TwoMaps(): Plan<nat> {
    AddSet(OneMap(), 2, 2, MAP_INFO, 1)
  }

  lemma OneMapBuilt()
    ensures Built(OneMap(), 2)
  {
    EmptyIsBuilt<nat>();
    AddSourceKeepsBuilt(Empty<nat>(), 0, 0, SOURCE_INFO);
    AddSetKeepsBuilt(AddSource(Empty<nat>(), 0, 0, SOURCE_INFO), 1, 1, MAP_INFO, 0);
  }

  lemma TwoMapsAre()
    ensures TwoMaps().graph.Keys == {0, 1, 2} && TwoMaps().broadcast == [] && Ops(TwoMaps()) == [0, 1, 2]
    ensures TwoMaps().graph[1] == NewNode(1, MAP_INFO, Some(0), None).(children := [2])
    ensures TwoMaps().graph[2] == NewNode(2, MAP_INFO, Some(1), None)
  {
  }

  lemma TwoMapsBuilt()
    ensures Built(TwoMaps(), 3)
  {
    OneMapBuilt();
    AddSetKeepsBuilt(OneMap(), 2, 2, MAP_INFO, 1);
  }

  lemma SecondMapPasses(P: Plan<nat>, Q: Plan<nat>)
    requires P.graph.Keys == {0, 1, 2} && P.broadcast == []
    requires P.graph[1] == NewNode(1, MAP_INFO, Some(0), None).(children := [2])
    requires P.graph[2] == NewNode(2, MAP_INFO, Some(1), None)
    requires Q == AddCoGroup(P, 5, 3, 4, 3, MAP_INFO, MAP_INFO, CO_GROUP_INFO, 0, 2)
    ensures 1 in Q.graph && 2 in Q.graph && Guard(Q, 2) && Q.graph[2].parent == Some(1) && Q.broadcast == []
  {
    CoGroupAt(P, 5, 3, 4, 3, MAP_INFO, MAP_INFO, CO_GROUP_INFO, 0, 2, 1);
    CoGroupAt(P, 5, 3, 4, 3, MAP_INFO, MAP_INFO, CO_GROUP_INFO, 0, 2, 2);
    CoGroupIs(P, 5, 3, 4, 3, MAP_INFO, MAP_INFO, CO_GROUP_INFO, 0, 2);
  }

  /** Adds a co-group 5 of the source with the second map, by the key maps 3 and 4. */
  function WithCoGroup(P: Plan<nat>): Plan<nat>
    requires 0 in P.graph && 2 in P.graph
  {
    AddCoGroup(P, 5, 3, 4, 3, MAP_INFO, MAP_INFO, CO_GROUP_INFO, 0, 2)
  }

  /** Adds a sink 6 of the co-group. */
  function WithSink(P: Plan<nat>): Plan<nat>
    requires 5 in P.graph
  {
    AddSink(P, 6, 6, SINK_INFO, 5)
  }

  lemma SinkAdded(Q: Plan<nat>)
    requires Built(Q, 6) && Q.graph.Keys == {0, 1, 2, 3, 4, 5} && 5 in Q.sets && Guard(Q, 2)
    requires Q.graph[2].parent == Some(1) && Q.graph[5].identifier == CoGroup && Q.graph[5].other == Some(4)
    requires CoGroupOther(Q, 5) == Some(2)
    ensures var P := WithSink(Q);
            && Built(P, 7) && 5 in P.graph && P.graph[5].other == Some(4)
            && 5 in Pass(P).graph && Pass(P).graph[5].other != Some(4)
  {
    var P := WithSink(Q);
    assert 5 in Ops(Q);
    AddSinkKeepsBuilt(Q, 6, 6, SINK_INFO, 5);
    assert CoGroupOther(P, 5) == Some(2) && Guard(P, 2);
    CoGroupKeepsInputIff(P, 7, 5);
  }

  lemma CoGroupAdded(P: Plan<nat>, Q: Plan<nat>)
    requires P.graph.Keys == {0, 1, 2} && P.broadcast == [] && Q == WithCoGroup(P)
    requires P.graph[1] == NewNode(1, MAP_INFO, Some(0), None).(children := [2])
    requires P.graph[2] == NewNode(2, MAP_INFO, Some(1), None)
    ensures Q.graph.Keys == {0, 1, 2, 3, 4, 5} && 5 in Q.sets && Guard(Q, 2)
    ensures Q.graph[2].parent == Some(1) && Q.graph[5].identifier == CoGroup && Q.graph[5].other == Some(4)
    ensures CoGroupOther(Q, 5) == Some(2)
  {
    CoGroupReads(P, 5, 3, 4, 3, MAP_INFO, MAP_INFO, CO_GROUP_INFO, 0, 2);
    CoGroupIs(P, 5, 3, 4, 3, MAP_INFO, MAP_INFO, CO_GROUP_INFO, 0, 2);
    SecondMapPasses(P, Q);
  }

  lemma CoGroupBuilt(P: Plan<nat>, Q: Plan<nat>)
    requires Built(P, 3) && P.graph.Keys == {0, 1, 2} && 0 in Ops(P) && 2 in Ops(P) && Q == WithCoGroup(P)
    ensures Built(Q, 6)
  {
    CoGroupKeepsBuilt(P, 5, 3, 4, 3, MAP_INFO, MAP_INFO, CO_GROUP_INFO, 0, 2);
  }

  /** A program whose co-group goes wrong: a source, two maps, a co-group of the source with the second map,
      and a sink. The pass merges the second map into the first, and the co-group does not read its key map 4
      any more. */
  lemma CoGroupGoesWrong()
    ensures 0 in TwoMaps().graph && 2 in TwoMaps().graph && 5 in WithCoGroup(TwoMaps()).graph
    ensures var P := WithSink(WithCoGroup(TwoMaps()));
            && Built(P, 7) && 5 in P.graph && P.graph[5].other == Some(4)
            && 5 in Pass(P).graph && Pass(P).graph[5].other != Some(4)
  {
    TwoMapsBuilt();
    TwoMapsAre();
    CoGroupBuilt(TwoMaps(), WithCoGroup(TwoMaps()));
    CoGroupAdded(TwoMaps(), WithCoGroup(TwoMaps()));
    SinkAdded(WithCoGroup(TwoMaps()));
  }
}
