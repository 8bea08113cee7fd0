/**
 The planner (src/domain/session_stream.cpp) and the graph rewriter
 (src/runtime/gr4_runtime_manager.cpp) name blocks independently. This module
 says exactly when they agree, and what that means for endpoint injection.
 */
module EndpointInjection {
  import opened Wrappers
  import opened PropertyValues
  import opened SessionStream
  import opened GraphRewrite

  /** What a caller can check of a submitted block to know that both readers name it alike. */
  predicate NameSettled(block: PropertyMap) {
    var merged, id := MergedParameters(block), TextAt(block, "id");
    if NonEmpty(TextAt(merged, "name")) then true
    else if "name" in merged then
      if "block" in block && NonEmpty(id) then TextAt(block, "instance_name") == id
      else NonEmpty(TextAt(block, "instance_name")) || !NonEmpty(TextAt(block, "name"))
    else
      NonEmpty(id) ==> "block" in block || BlockLevelName(block) == id.value
  }

  function AsName(name: string): Option<string> {
    if name == "" then None else Some(name)
  }

  lemma RewrittenParameters(block: PropertyMap)
    ensures MapAt(RewrittenBlock(block), "parameters") == NamedParameters(block)
  {
    if NamedParameters(block) == map[] {
      assert MergedParameters(block) == map[];
      assert MapAt(block, "parameters").Keys <= MergedParameters(block).Keys;
      assert MapAt(block, "parameters") == map[];
    }
  }

  /** The two readers agree on a block's name exactly when the name is settled. */
  lemma ReadersAgreeIffSettled(block: PropertyMap)
    ensures InjectionName(RewrittenBlock(block)) == AsName(PlannedName(block)) <==> NameSettled(block)
  {
    RewrittenParameters(block);
    RewriteFrame(block);
    assert TextAt(RewrittenBlock(block), "instance_name") == TextAt(block, "instance_name");
  }

  /** Number of declaring blocks before position `i`: the place of block `i` in the plan. */
  function Ordinal(blocks: seq<Value>, i: nat): nat
    requires i <= |blocks|
  {
    |DeclaredBlocks(blocks[..i])|
  }

  lemma OrdinalOf(blocks: seq<Value>, i: nat)
    requires i < |blocks| && Declares(blocks[i])
    ensures Ordinal(blocks, i) < |DeclaredBlocks(blocks)|
    ensures DeclaredBlocks(blocks)[Ordinal(blocks, i)] == DeclaredOf(blocks[i])
  {
    var upTo := blocks[..i + 1];
    assert upTo[..i] == blocks[..i];
    DeclaredPrefix(blocks, i + 1);
  }

  lemma {:induction false} BlockAt(blocks: seq<Value>, k: nat) returns (i: nat)
    requires k < |DeclaredBlocks(blocks)|
    ensures i < |blocks| && Declares(blocks[i]) && Ordinal(blocks, i) == k
  {
    var front := blocks[..|blocks| - 1];
    if k < |DeclaredBlocks(front)| {
      i := BlockAt(front, k);
      assert front[..i] == blocks[..i];
    } else {
      i := |blocks| - 1;
    }
  }

  /** The bindings of a prepared session, as far as injection looks at them. */
  ghost predicate BindsPlan(bindings: seq<StreamBinding>, plan: seq<StreamPlan>) {
    && |bindings| == |plan|
    && forall k :: 0 <= k < |plan| ==> bindings[k].plan == plan[k]
  }

  predicate HasBlocks(grc: Document) {
    grc.root.Some? && BlockList(grc.root.value).Some?
  }

  function BlocksOf(grc: Document): seq<Value>
    requires HasBlocks(grc)
  {
    BlockList(grc.root.value).value
  }

  /** The document has a plan, and these are bindings of it. */
  ghost predicate BindsPlanOf(sessionId: string, grc: Document, bindings: seq<StreamBinding>) {
    HasBlocks(grc) && DerivedPlan(sessionId, grc).Some? && BindsPlan(bindings, DerivedPlan(sessionId, grc).value)
  }

  predicate PlannedNamesDiffer(bindings: seq<StreamBinding>) {
    forall j, k :: 0 <= j < k < |bindings| ==> bindings[j].plan.blockInstanceName != bindings[k].plan.blockInstanceName
  }

  predicate DeclaredNamesSettled(blocks: seq<Value>) {
    forall i :: 0 <= i < |blocks| && Declares(blocks[i]) ==> NameSettled(blocks[i].entries)
  }

  /** Injection knows the submitted block, once rewritten, by this name. */
  predicate BearsName(value: Value, name: string) {
    value.Map? && InjectionName(RewrittenBlock(value.entries)) == Some(name)
  }

  /** Some block bears each planned name, be it the block that declared the stream or another. */
  ghost predicate PlannedNamesBorne(blocks: seq<Value>, bindings: seq<StreamBinding>) {
    forall k :: 0 <= k < |bindings| ==> NameBorne(blocks, bindings[k].plan.blockInstanceName)
  }

  ghost predicate NameBorne(blocks: seq<Value>, name: string) {
    exists i :: 0 <= i < |blocks| && BearsName(blocks[i], name)
  }

  // ------------------------------------------------------- when a graph loads

  /** Injection matches a block with a binding exactly if it bears its name and no earlier binding has that name. */
  lemma MatchIff(value: Value, bindings: seq<StreamBinding>, k: nat)
    requires k < |bindings|
    ensures MatchOf(RewrittenBlockValue(value), bindings) == Some(k) <==>
      && BearsName(value, bindings[k].plan.blockInstanceName)
      && forall j :: 0 <= j < k ==> bindings[j].plan.blockInstanceName != bindings[k].plan.blockInstanceName
  {
    hide RewrittenBlock, InjectionName;
  }

  /** Every binding reaches a block exactly when the planned names differ and each is borne by a block. */
  lemma AllReachedIff(blocks: seq<Value>, bindings: seq<StreamBinding>)
    ensures (forall k :: 0 <= k < |bindings| ==> Reached(RewrittenBlocks(blocks), bindings, k))
      <==> PlannedNamesDiffer(bindings) && PlannedNamesBorne(blocks, bindings)
  {
    hide MatchOf, RewrittenBlockValue, BearsName;
    var rewritten := RewrittenBlocks(blocks);
    forall k | 0 <= k < |bindings|
      ensures Reached(rewritten, bindings, k) <==>
        && NameBorne(blocks, bindings[k].plan.blockInstanceName)
        && forall j :: 0 <= j < k ==> bindings[j].plan.blockInstanceName != bindings[k].plan.blockInstanceName
    {
      forall i | 0 <= i < |blocks|
        ensures MatchOf(rewritten[i], bindings) == Some(k) <==>
          && BearsName(blocks[i], bindings[k].plan.blockInstanceName)
          && forall j :: 0 <= j < k ==> bindings[j].plan.blockInstanceName != bindings[k].plan.blockInstanceName
      {
        MatchIff(blocks[i], bindings, k);
      }
    }
  }

  lemma ConnectionsKeepBlocks(root: PropertyMap)
    requires WithRewrittenConnections(WithRewrittenBlocks(root)).Ok?
    ensures BlockList(WithRewrittenConnections(WithRewrittenBlocks(root)).value) == BlockList(WithRewrittenBlocks(root))
  {
  }

  /**
   What one loaded block looks like beside the submitted one: it carries the
   endpoint planned under the name it bears, or none if that name is not planned.
   */
  ghost predicate ServedByName(value: Value, bindings: seq<StreamBinding>, loaded: Value) {
    && (forall k :: 0 <= k < |bindings| && BearsName(value, bindings[k].plan.blockInstanceName) ==>
          loaded == Map(WithEndpoint(RewrittenBlock(value.entries), bindings[k].internal.endpoint)))
    && ((forall k :: 0 <= k < |bindings| ==> !BearsName(value, bindings[k].plan.blockInstanceName)) ==>
          loaded == RewrittenBlockValue(value))
  }

  lemma InjectedByName(value: Value, bindings: seq<StreamBinding>)
    requires PlannedNamesDiffer(bindings)
    ensures ServedByName(value, bindings, InjectedBlock(RewrittenBlockValue(value), bindings))
  {
    hide RewrittenBlock, InjectionName, MatchOf, WithEndpoint;
    forall k | 0 <= k < |bindings|
      ensures MatchOf(RewrittenBlockValue(value), bindings) == Some(k)
        <==> BearsName(value, bindings[k].plan.blockInstanceName)
    {
      MatchIff(value, bindings, k);
    }
  }

  /** The loaded graph has a list of the same length, each block served by the name it bears. */
  ghost predicate LoadedByName(blocks: seq<Value>, bindings: seq<StreamBinding>, loaded: PropertyMap) {
    && BlockList(loaded).Some? && |BlockList(loaded).value| == |blocks|
    && forall i :: 0 <= i < |blocks| ==> ServedByName(blocks[i], bindings, BlockList(loaded).value[i])
  }

  /**
   Rewrite, then inject, for every graph with a block list and every bindings of
   distinct streams. Loading succeeds exactly when no connection port overflows,
   the planned names differ, and each is borne by some block. Then endpoints
   follow the names that blocks bear, whoever declared the streams.
   */
  lemma GraphLoadsIff(root: PropertyMap, bindings: seq<StreamBinding>)
    requires BlockList(root).Some? && DistinctStreams(bindings)
    ensures RewrittenGraph(root, bindings).Ok? <==>
      && WithRewrittenConnections(WithRewrittenBlocks(root)).Ok?
      && PlannedNamesDiffer(bindings) && PlannedNamesBorne(BlockList(root).value, bindings)
    ensures RewrittenGraph(root, bindings).Ok? && bindings != [] ==>
      LoadedByName(BlockList(root).value, bindings, RewrittenGraph(root, bindings).value)
  {
    hide MatchOf, RewrittenBlockValue, BearsName, InjectedBlock, ServedByName, InjectedIds;
    var blocks := BlockList(root).value;
    if WithRewrittenConnections(WithRewrittenBlocks(root)).Ok? {
      var normalized := WithRewrittenConnections(WithRewrittenBlocks(root)).value;
      ConnectionsKeepBlocks(root);
      InjectionAllOrThrow(normalized, bindings);
      AllReachedIff(blocks, bindings);
      assert BlockList(normalized).value == RewrittenBlocks(blocks);
      if PlannedNamesDiffer(bindings) {
        forall i | 0 <= i < |blocks|
          ensures ServedByName(blocks[i], bindings, InjectedBlocks(RewrittenBlocks(blocks), bindings)[i])
        {
          InjectedByName(blocks[i], bindings);
        }
      }
    }
  }

  // ------------------------------------------- when endpoints reach their blocks

  /** The entry a declaring block has in the plan is planned under the name the planner gave it. */
  lemma PlannedUnderName(sessionId: string, grc: Document, bindings: seq<StreamBinding>, i: nat)
    requires BindsPlanOf(sessionId, grc, bindings) && i < |BlocksOf(grc)| && Declares(BlocksOf(grc)[i])
    ensures Ordinal(BlocksOf(grc), i) < |bindings|
    ensures var name := bindings[Ordinal(BlocksOf(grc), i)].plan.blockInstanceName;
      && name == PlannedName(BlocksOf(grc)[i].entries) != ""
      && (BearsName(BlocksOf(grc)[i], name) <==> NameSettled(BlocksOf(grc)[i].entries))
  {
    var blocks := BlocksOf(grc);
    PlanProperties(sessionId, grc);
    OrdinalOf(blocks, i);
    ReadersAgreeIffSettled(blocks[i].entries);
    var own := DerivedPlan(sessionId, grc).value[Ordinal(blocks, i)];
    assert own.blockInstanceName == DeclaredOf(blocks[i]).instanceName;
  }

  /** Injection matches every declaring block with its own plan entry. */
  ghost predicate OwnEntries(blocks: seq<Value>, bindings: seq<StreamBinding>) {
    forall i :: 0 <= i < |blocks| && Declares(blocks[i]) ==>
      MatchOf(RewrittenBlockValue(blocks[i]), bindings) == Some(Ordinal(blocks, i))
  }

  /** That is so exactly when the planned names differ and every declaring block's name is settled. */
  lemma OwnEntriesIff(sessionId: string, grc: Document, bindings: seq<StreamBinding>)
    requires BindsPlanOf(sessionId, grc, bindings)
    ensures OwnEntries(BlocksOf(grc), bindings) <==> PlannedNamesDiffer(bindings) && DeclaredNamesSettled(BlocksOf(grc))
  {
    hide MatchOf, RewrittenBlockValue, BearsName, NameSettled, NormalizedStreamBlock;
    var blocks := BlocksOf(grc);
    forall i | 0 <= i < |blocks| && Declares(blocks[i])
      ensures var k := Ordinal(blocks, i);
        && k < |bindings|
        && (MatchOf(RewrittenBlockValue(blocks[i]), bindings) == Some(k) <==>
              && NameSettled(blocks[i].entries)
              && forall j :: 0 <= j < k ==> bindings[j].plan.blockInstanceName != bindings[k].plan.blockInstanceName)
    {
      PlannedUnderName(sessionId, grc, bindings, i);
      MatchIff(blocks[i], bindings, Ordinal(blocks, i));
    }
    if OwnEntries(blocks, bindings) {
      forall j, k | 0 <= j < k < |bindings|
        ensures bindings[j].plan.blockInstanceName != bindings[k].plan.blockInstanceName
      {
        PlanProperties(sessionId, grc);
        var i := BlockAt(blocks, k);
      }
    }
  }

  lemma SettledNamesAreBorne(sessionId: string, grc: Document, bindings: seq<StreamBinding>)
    requires BindsPlanOf(sessionId, grc, bindings) && DeclaredNamesSettled(BlocksOf(grc))
    ensures PlannedNamesBorne(BlocksOf(grc), bindings)
  {
    hide BearsName, NameSettled;
    PlanProperties(sessionId, grc);
    forall k | 0 <= k < |bindings| ensures NameBorne(BlocksOf(grc), bindings[k].plan.blockInstanceName) {
      var i := BlockAt(BlocksOf(grc), k);
      PlannedUnderName(sessionId, grc, bindings, i);
    }
  }

  /** The endpoint a block carries among its parameters. */
  function EndpointIn(value: Value): Option<Value> {
    if value.Map? && "endpoint" in MapAt(value.entries, "parameters")
    then Some(MapAt(value.entries, "parameters")["endpoint"]) else None
  }

  /** Every declaring block carries the endpoint of its own plan entry. */
  ghost predicate OwnEndpoints(blocks: seq<Value>, bindings: seq<StreamBinding>, loaded: PropertyMap) {
    && BlockList(loaded).Some? && |BlockList(loaded).value| == |blocks|
    && forall i :: 0 <= i < |blocks| && Declares(blocks[i]) ==>
         && Ordinal(blocks, i) < |bindings|
         && EndpointIn(BlockList(loaded).value[i]) == Some(Value.Text(bindings[Ordinal(blocks, i)].internal.endpoint))
  }

  predicate EndpointsDistinct(bindings: seq<StreamBinding>) {
    forall j, k :: 0 <= j < k < |bindings| ==> bindings[j].internal.endpoint != bindings[k].internal.endpoint
  }

  /** No declaring block was submitted with one of the endpoints that are about to be handed out. */
  predicate EndpointsUnused(blocks: seq<Value>, bindings: seq<StreamBinding>) {
    forall i, k :: 0 <= i < |blocks| && 0 <= k < |bindings| && Declares(blocks[i]) ==>
      EndpointIn(RewrittenBlockValue(blocks[i])) != Some(Value.Text(bindings[k].internal.endpoint))
  }

  /** A served block carries its own endpoint exactly if its name is settled. */
  lemma OwnEndpointIff(sessionId: string, grc: Document, bindings: seq<StreamBinding>, i: nat, loaded: Value)
    requires BindsPlanOf(sessionId, grc, bindings) && i < |BlocksOf(grc)| && Declares(BlocksOf(grc)[i])
    requires EndpointsDistinct(bindings) && EndpointsUnused(BlocksOf(grc), bindings)
    requires ServedByName(BlocksOf(grc)[i], bindings, loaded)
    ensures Ordinal(BlocksOf(grc), i) < |bindings|
    ensures EndpointIn(loaded) == Some(Value.Text(bindings[Ordinal(BlocksOf(grc), i)].internal.endpoint))
      <==> NameSettled(BlocksOf(grc)[i].entries)
  {
    hide BearsName, NameSettled, RewrittenBlock, DerivedPlan;
    var block := BlocksOf(grc)[i];
    PlannedUnderName(sessionId, grc, bindings, i);
    var own := Ordinal(BlocksOf(grc), i);
    if k :| 0 <= k < |bindings| && BearsName(block, bindings[k].plan.blockInstanceName) {
      assert EndpointIn(loaded) == Some(Value.Text(bindings[k].internal.endpoint));
      if k != own && BearsName(block, bindings[own].plan.blockInstanceName) {
        assert EndpointIn(loaded) == Some(Value.Text(bindings[own].internal.endpoint));
      }
    }
  }

  /** So the declaring blocks of a loaded graph all carry their own endpoints exactly if all their names are settled. */
  lemma OwnEndpointsIff(sessionId: string, grc: Document, bindings: seq<StreamBinding>, loaded: PropertyMap)
    requires BindsPlanOf(sessionId, grc, bindings) && LoadedByName(BlocksOf(grc), bindings, loaded)
    requires EndpointsDistinct(bindings) && EndpointsUnused(BlocksOf(grc), bindings)
    ensures OwnEndpoints(BlocksOf(grc), bindings, loaded) <==> DeclaredNamesSettled(BlocksOf(grc))
  {
    hide BearsName, NameSettled, RewrittenBlock, NormalizedStreamBlock;
    hide ServedByName, EndpointIn, DerivedPlan, BindsPlan;
    var blocks := BlocksOf(grc);
    forall i | 0 <= i < |blocks| && Declares(blocks[i])
      ensures Ordinal(blocks, i) < |bindings|
      ensures EndpointIn(BlockList(loaded).value[i]) == Some(Value.Text(bindings[Ordinal(blocks, i)].internal.endpoint))
        <==> NameSettled(blocks[i].entries)
    {
      OwnEndpointIff(sessionId, grc, bindings, i, BlockList(loaded).value[i]);
    }
  }

  lemma BoundStreamsDiffer(sessionId: string, grc: Document, bindings: seq<StreamBinding>)
    requires BindsPlanOf(sessionId, grc, bindings)
    ensures DistinctStreams(bindings) && bindings != []
  {
    PlanProperties(sessionId, grc);
  }

  /**
   Plan, then rewrite, then inject. For distinct endpoints that no declaring
   block already carries, the graph loads with each endpoint in the block that
   declared the stream exactly when no connection port overflows, the planned
   names differ, and every declaring block's name is settled.
   */
  lemma EndpointsReachDeclaringBlocksIff(sessionId: string, grc: Document, bindings: seq<StreamBinding>)
    requires BindsPlanOf(sessionId, grc, bindings)
    requires EndpointsDistinct(bindings) && EndpointsUnused(BlocksOf(grc), bindings)
    ensures var root, blocks := grc.root.value, BlocksOf(grc);
      (RewrittenGraph(root, bindings).Ok? && OwnEndpoints(blocks, bindings, RewrittenGraph(root, bindings).value)) <==>
        && WithRewrittenConnections(WithRewrittenBlocks(root)).Ok?
        && PlannedNamesDiffer(bindings) && DeclaredNamesSettled(blocks)
  {
    hide DerivedPlan, BindsPlan, RewrittenGraph, LoadedByName, OwnEndpoints, DeclaredNamesSettled, PlannedNamesBorne;
    hide PlannedNamesDiffer, EndpointsUnused, EndpointsDistinct, DistinctStreams;
    var root := grc.root.value;
    BoundStreamsDiffer(sessionId, grc, bindings);
    GraphLoadsIff(root, bindings);
    if DeclaredNamesSettled(BlocksOf(grc)) {
      SettledNamesAreBorne(sessionId, grc, bindings);
    }
    if RewrittenGraph(root, bindings).Ok? {
      OwnEndpointsIff(sessionId, grc, bindings, RewrittenGraph(root, bindings).value);
    }
  }
}
