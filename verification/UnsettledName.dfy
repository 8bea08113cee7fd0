/**
 What becomes of valid graphs whose planner and injector name a block
 differently: one can never be loaded, another loads with its endpoints crossed.
 */
module UnsettledName {
  import opened Wrappers
  import opened PropertyValues
  import opened SessionStream
  import opened GraphRewrite
  import opened EndpointInjection

  /** A block with an `id` and an `instance_name` but no `block` key. */
  function UnsettledBlock(id: string, name: string): PropertyMap {
    map["id" := Value.Text(id), "instance_name" := Value.Text(name), "parameters" := Map(StreamParameters(name))]
  }

  function StreamParameters(streamId: string): PropertyMap {
    map["stream_id" := Value.Text(streamId),
        "transport" := Value.Text("websocket"),
        "payload_format" := Value.Text("float32")]
  }

  /** It declares a stream under its `instance_name`, and injection knows it by its `id`. */
  lemma UnsettledNames(id: string, name: string)
    requires id != "" && name != ""
    ensures var block := UnsettledBlock(id, name);
      && NormalizedStreamBlock(block)
           == Some(NormalizedBlock(id, name, StreamIntent(true, Some(name), Some("websocket"), Some("float32"))))
      && (forall other :: BearsName(Map(block), other) <==> other == id)
  {
    var block, parameters := UnsettledBlock(id, name), StreamParameters(name);
    RewrittenParameters(block);
    assert MapAt(block, "raw_parameters") == map[];
    assert MergedParameters(block) == parameters;
    assert "name" !in parameters && "stream" !in parameters;
    assert NamedParameters(block)["name"] == Value.Text(id);
  }

  // ------------------------------------------------------ a graph never loaded

  const LONE_GRAPH: PropertyMap := map["blocks" := Tensor([Map(UnsettledBlock("node7", "sink"))])]

  /**
   A graph of one such block passes validation and has a plan, but no block
   bears the planned name: whatever ports its plan is bound to, it cannot be loaded.
   */
  lemma UnsettledNameExample(sessionId: string, text: string, bindings: seq<StreamBinding>)
    ensures var grc := Document(text, Some(LONE_GRAPH));
      && DerivedPlan(sessionId, grc).Some?
      && (BindsPlan(bindings, DerivedPlan(sessionId, grc).value) ==>
            RewrittenGraph(LONE_GRAPH, bindings) == Err(BindingsNotInjected))
  {
    var grc, block := Document(text, Some(LONE_GRAPH)), Map(UnsettledBlock("node7", "sink"));
    hide BearsName, NormalizedStreamBlock, DerivedPlan, LoadedByName;
    UnsettledNames("node7", "sink");
    OneIsPlanned(sessionId, grc, block);
    if BindsPlan(bindings, DerivedPlan(sessionId, grc).value) {
      assert bindings[0].plan.blockInstanceName == "sink";
      assert !NameBorne([block], "sink");
      assert !PlannedNamesBorne([block], bindings);
      BoundStreamsDiffer(sessionId, grc, bindings);
      GraphLoadsIff(LONE_GRAPH, bindings);
      NoConnections(LONE_GRAPH);
    }
  }

  lemma OneIsPlanned(sessionId: string, grc: Document, block: Value)
    requires HasBlocks(grc) && BlocksOf(grc) == [block] && Declares(block) && WellFormed(DeclaredOf(block))
    ensures DerivedPlan(sessionId, grc) == Some([PlanOf(sessionId, DeclaredOf(block))])
  {
    hide NormalizedStreamBlock;
    var declared := [DeclaredOf(block)];
    assert [block][..0] == [] && DeclaredBlocks([block]) == declared == DocumentStreams(grc);
    assert ContractHolds(declared);
    assert PlansOf(sessionId, declared) == [PlanOf(sessionId, declared[0])];
  }

  lemma NoConnections(root: PropertyMap)
    requires "connections" !in root
    ensures WithRewrittenConnections(WithRewrittenBlocks(root)) == Ok(WithRewrittenBlocks(root))
  {
  }

  // --------------------------------------------------- a graph loaded crosswise

  const CROSSED_GRAPH: PropertyMap :=
    map["blocks" := Tensor([Map(UnsettledBlock("b", "a")), Map(UnsettledBlock("a", "b"))])]

  /**
   Two such blocks, each with the other's name for its `id`: the graph passes
   validation, has a plan and loads, but each block is given the endpoint of
   the other's stream.
   */
  lemma CrossedNamesExample(sessionId: string, text: string, bindings: seq<StreamBinding>)
    ensures var grc := Document(text, Some(CROSSED_GRAPH));
      && DerivedPlan(sessionId, grc).Some?
      && (BindsPlan(bindings, DerivedPlan(sessionId, grc).value) ==>
            && |bindings| == 2
            && bindings[0].plan.streamId == "a" && bindings[1].plan.streamId == "b"
            && RewrittenGraph(CROSSED_GRAPH, bindings).Ok?
            && var loaded := BlockList(RewrittenGraph(CROSSED_GRAPH, bindings).value);
               && loaded.Some? && |loaded.value| == 2
               && EndpointIn(loaded.value[0]) == Some(Value.Text(bindings[1].internal.endpoint))
               && EndpointIn(loaded.value[1]) == Some(Value.Text(bindings[0].internal.endpoint)))
  {
    var grc := Document(text, Some(CROSSED_GRAPH));
    var first, second := Map(UnsettledBlock("b", "a")), Map(UnsettledBlock("a", "b"));
    hide BearsName, RewrittenGraph, NormalizedStreamBlock, DerivedPlan;
    UnsettledNames("b", "a");
    UnsettledNames("a", "b");
    TwoArePlanned(sessionId, grc, first, second);
    if BindsPlan(bindings, DerivedPlan(sessionId, grc).value) {
      BoundStreamsDiffer(sessionId, grc, bindings);
      LoadedCrosswise(CROSSED_GRAPH, first, second, bindings);
    }
  }

  lemma LoadedCrosswise(root: PropertyMap, first: Value, second: Value, bindings: seq<StreamBinding>)
    requires BlockList(root) == Some([first, second]) && "connections" !in root
    requires DistinctStreams(bindings) && |bindings| == 2
    requires bindings[0].plan.blockInstanceName == "a" && bindings[1].plan.blockInstanceName == "b"
    requires BearsName(first, "b") && BearsName(second, "a")
    ensures RewrittenGraph(root, bindings).Ok?
    ensures var loaded := BlockList(RewrittenGraph(root, bindings).value);
      && loaded.Some? && |loaded.value| == 2
      && EndpointIn(loaded.value[0]) == Some(Value.Text(bindings[1].internal.endpoint))
      && EndpointIn(loaded.value[1]) == Some(Value.Text(bindings[0].internal.endpoint))
  {
    hide BearsName, RewrittenBlock, RewrittenGraph, PlannedNamesBorne, PlannedNamesDiffer;
    Crossed(first, second, bindings);
    NoConnections(root);
    GraphLoadsIff(root, bindings);
    var loaded := BlockList(RewrittenGraph(root, bindings).value).value;
    assert ServedByName(first, bindings, loaded[0]) && ServedByName(second, bindings, loaded[1]);
  }

  lemma Crossed(first: Value, second: Value, bindings: seq<StreamBinding>)
    requires |bindings| == 2 && bindings[0].plan.blockInstanceName == "a" && bindings[1].plan.blockInstanceName == "b"
    requires BearsName(first, "b") && BearsName(second, "a")
    ensures PlannedNamesDiffer(bindings) && PlannedNamesBorne([first, second], bindings)
  {
    hide BearsName;
    assert [first, second][0] == first && [first, second][1] == second;
    assert NameBorne([first, second], "a") && NameBorne([first, second], "b");
  }

  lemma TwoArePlanned(sessionId: string, grc: Document, first: Value, second: Value)
    requires HasBlocks(grc) && BlocksOf(grc) == [first, second] && Declares(first) && Declares(second)
    requires WellFormed(DeclaredOf(first)) && WellFormed(DeclaredOf(second))
    requires StreamIdOf(DeclaredOf(first)) != StreamIdOf(DeclaredOf(second))
    ensures DerivedPlan(sessionId, grc)
      == Some([PlanOf(sessionId, DeclaredOf(first)), PlanOf(sessionId, DeclaredOf(second))])
  {
    hide NormalizedStreamBlock;
    var declared := [DeclaredOf(first), DeclaredOf(second)];
    assert [first, second][..1] == [first] && [first][..0] == [];
    assert DeclaredBlocks([first]) == [DeclaredOf(first)];
    assert DeclaredBlocks([first, second]) == declared == DocumentStreams(grc);
    assert ContractHolds(declared);
    assert PlansOf(sessionId, declared) == [PlanOf(sessionId, declared[0]), PlanOf(sessionId, declared[1])];
  }
}
