/**
 The rewriting of a submitted graph before it is loaded: block and connection
 normalisation, and injection of stream endpoints
 (src/runtime/gr4_runtime_manager.cpp).
 */
module GraphRewrite {
  import opened Integers
  import opened Wrappers
  import opened PropertyValues
  import opened SessionStream
  import opened Text

  datatype GraphError = PortOutOfRange | BindingsNotInjected

  // ---------------------------------------------------------------- blocks

  /** A block with its `id` replaced by its type, when it says what its type is. */
  function WithTypeId(block: PropertyMap): PropertyMap {
    if NonEmpty(TextAt(block, "block")) then block["id" := block["block"]]
    else if "id" !in block && NonEmpty(TextAt(block, "block_type")) then block["id" := block["block_type"]]
    else block
  }

  /** The name given to a block whose merged parameters have none. */
  function FallbackName(block: PropertyMap): string {
    if NonEmpty(TextAt(block, "id")) then TextAt(block, "id").value else BlockLevelName(block)
  }

  function NamedParameters(block: PropertyMap): PropertyMap {
    var merged := MergedParameters(block);
    if "name" !in merged && FallbackName(block) != "" then merged["name" := Value.Text(FallbackName(block))] else merged
  }

  function RewrittenBlock(block: PropertyMap): PropertyMap {
    var typed := WithTypeId(block);
    if NamedParameters(block) == map[] then typed else typed["parameters" := Map(NamedParameters(block))]
  }

  /** The search among the block-level names. */
  method FirstBlockName(block: PropertyMap) returns (name: string)
    ensures name == BlockLevelName(block)
  {
    var candidates := ["instance_name", "name"];
    var i := 0;
    while i < |candidates|
      invariant 0 <= i <= |candidates|
      invariant i > 0 ==> !NonEmpty(TextAt(block, "instance_name"))
      invariant i > 1 ==> !NonEmpty(TextAt(block, "name"))
    {
      if candidates[i] in block {
        var candidate := TextOf(block[candidates[i]]);
        if NonEmpty(candidate) {
          return candidate.value;
        }
      }
      i := i + 1;
    }
    return "";
  }

  method NormalizeTypeId(block: PropertyMap) returns (block': PropertyMap)
    ensures block' == WithTypeId(block)
  {
    block' := block;
    if "block" in block' {
      var blockType := TextOf(block'["block"]);
      if NonEmpty(blockType) {
        block' := block'["id" := Value.Text(blockType.value)];
      }
    }
    if "id" !in block' {
      if "block_type" in block' {
        var blockType := TextOf(block'["block_type"]);
        if NonEmpty(blockType) {
          block' := block'["id" := Value.Text(blockType.value)];
        }
      }
    }
  }

  method NameParameters(block: PropertyMap, studioNodeId: Option<string>)
    returns (parameters: PropertyMap, needsWrite: bool)
    requires studioNodeId == TextAt(block, "id")
    ensures parameters == NamedParameters(block)
    ensures needsWrite ==> parameters != map[]
  {
    parameters, needsWrite := MergeRawParameters(MapAt(block, "parameters"), MapAt(block, "raw_parameters"));
    assert needsWrite ==> parameters != map[];
    if "name" !in parameters && NonEmpty(studioNodeId) {
      parameters, needsWrite := parameters["name" := Value.Text(studioNodeId.value)], true;
      assert "name" in parameters;
    }
    if "name" !in parameters {
      var name := FirstBlockName(block);
      if name != "" {
        parameters, needsWrite := parameters["name" := Value.Text(name)], true;
        assert "name" in parameters;
      }
    }
  }

  method NormalizeBlock(block: PropertyMap) returns (block': PropertyMap)
    ensures block' == RewrittenBlock(block)
  {
    var studioNodeId := TextAt(block, "id");
    block' := NormalizeTypeId(block);
    var parameters, needsWrite := NameParameters(block, studioNodeId);
    if needsWrite || parameters != map[] {
      block' := block'["parameters" := Map(parameters)];
    }
  }

  /** Normalisation touches no key but `id` and `parameters`. */
  lemma RewriteFrame(block: PropertyMap)
    ensures forall key :: key != "id" && key != "parameters" ==>
      (key in RewrittenBlock(block) <==> key in block) && (key in block ==> RewrittenBlock(block)[key] == block[key])
    ensures block.Keys <= RewrittenBlock(block).Keys
  {
  }

  lemma MergeAfterRewrite(block: PropertyMap)
    ensures MergedParameters(RewrittenBlock(block)) == NamedParameters(block)
  {
    var once, named := RewrittenBlock(block), NamedParameters(block);
    assert MapAt(once, "raw_parameters") == MapAt(block, "raw_parameters");
    if named != map[] {
      assert MapAt(once, "parameters") == named;
      assert MapAt(block, "raw_parameters").Keys <= named.Keys;
    } else {
      assert MapAt(once, "parameters") == MapAt(block, "parameters");
    }
  }

  /** What a caller can check of a submitted block: something names it, or nothing will put a type in its `id`. */
  predicate NamedOrTypeless(block: PropertyMap) {
    || "name" in MergedParameters(block) || NonEmpty(TextAt(block, "id")) || BlockLevelName(block) != ""
    || !(NonEmpty(TextAt(block, "block")) || ("id" !in block && NonEmpty(TextAt(block, "block_type"))))
  }

  /**
   A second pass changes nothing exactly when the submitted block is named or
   typeless. Otherwise the first pass leaves the type in `id`, and the second
   one takes it for a name.
   */
  lemma BlockRewriteIdempotent(block: PropertyMap)
    ensures RewrittenBlock(RewrittenBlock(block)) == RewrittenBlock(block) <==> NamedOrTypeless(block)
  {
    var once, named := RewrittenBlock(block), NamedParameters(block);
    MergeAfterRewrite(block);
    assert WithTypeId(once) == once;
    if "name" !in named {
      assert BlockLevelName(once) == "";
      assert TextAt(once, "id") == TextAt(WithTypeId(block), "id");
      if NonEmpty(TextAt(once, "id")) {
        assert "name" in MapAt(RewrittenBlock(once), "parameters");
        assert "name" !in MapAt(once, "parameters");
      }
    }
  }

  /** A block that says nothing but its type is named after its type by the second pass. */
  lemma SecondPassExample()
    ensures var block: PropertyMap := map["block" := Value.Text("X")];
      && !NamedOrTypeless(block)
      && RewrittenBlock(block) == block["id" := Value.Text("X")]
      && RewrittenBlock(RewrittenBlock(block))
           == block["id" := Value.Text("X")]["parameters" := Map(map["name" := Value.Text("X")])]
  {
    var block: PropertyMap := map["block" := Value.Text("X")];
    var once := block["id" := Value.Text("X")];
    assert MergedParameters(block) == map[] && MergedParameters(once) == map[];
    assert NamedParameters(once) == map["name" := Value.Text("X")];
  }

  // ----------------------------------------------------------- connections

  function ParseInt64(digits: string): Result<Value, GraphError>
    requires AllDigits(digits)
  {
    if NumeralValue(digits) <= INT64_MAX then Ok(Int(NumeralValue(digits))) else Err(PortOutOfRange)
  }

  function NormalizePort(token: string): Result<Value, GraphError> {
    if token == "in" || token == "out" then Ok(Int(0))
    else if AllDigits(token) then ParseInt64(token)
    else if |token| > 2 && ("in" <= token || "out" <= token) then
      var suffix := token[LastIndexOf(token, 't') + 1..];
      if AllDigits(suffix) then ParseInt64(suffix) else Ok(Value.Text(token))
    else Ok(Value.Text(token))
  }

  /** A numbered output port becomes its index; a numbered input port keeps its text, having no `t` to cut at. */
  lemma NumberedPorts(digits: string)
    requires AllDigits(digits)
    ensures NormalizePort("out" + digits) == ParseInt64(digits)
    ensures NormalizePort("in" + digits) == Ok(Value.Text("in" + digits))
  {
    var output := "out" + digits;
    assert output[2] == 't' && forall i :: 3 <= i < |output| ==> IsDigit(output[i]);
    assert LastIndexOf(output, 't') == 2;
    assert output[3..] == digits;
    assert output[0] == 'o' && !AllDigits(output);

    var input := "in" + digits;
    assert input[0] == 'i' && !AllDigits(input);
    assert forall i :: 2 <= i < |input| ==> IsDigit(input[i]);
    assert input[1] == 'n';
    assert LastIndexOf(input, 't') == -1;
    assert input[0..] == input;
  }

  function PortElement(element: Value): Result<Value, GraphError> {
    if element.Text? then NormalizePort(element.text) else Ok(element)
  }

  predicate IsConnectionMap(connection: Value) {
    && connection.Map?
    && TextAt(connection.entries, "source_block").Some?
    && TextAt(connection.entries, "source_port_token").Some?
    && TextAt(connection.entries, "dest_block").Some?
    && TextAt(connection.entries, "dest_port_token").Some?
  }

  function RewrittenConnection(connection: Value): Result<Value, GraphError> {
    if connection.Tensor? && |connection.items| >= 4 then
      var source, dest := PortElement(connection.items[1]), PortElement(connection.items[3]);
      if source.Err? || dest.Err? then Err(PortOutOfRange)
      else Ok(Tensor(connection.items[1 := source.value][3 := dest.value]))
    else if IsConnectionMap(connection) then
      var source := NormalizePort(TextAt(connection.entries, "source_port_token").value);
      var dest := NormalizePort(TextAt(connection.entries, "dest_port_token").value);
      if source.Err? || dest.Err? then Err(PortOutOfRange)
      else Ok(Tensor([
        connection.entries["source_block"], source.value, connection.entries["dest_block"], dest.value]))
    else Ok(connection)
  }

  method NormalizeConnection(connection: Value) returns (result: Result<(Value, bool), GraphError>)
    ensures match RewrittenConnection(connection)
      case Err(error) => result == Err(error)
      case Ok(rewritten) => result == Ok((rewritten, rewritten != connection))
  {
    if connection.Tensor? {
      var items, changed := connection.items, false;
      if |items| >= 4 {
        var ports := [1, 3];
        var i := 0;
        while i < |ports|
          invariant 0 <= i <= |ports| && |items| == |connection.items|
          invariant i > 0 ==> PortElement(connection.items[1]).Ok?
          invariant i > 1 ==> PortElement(connection.items[3]).Ok?
          invariant i == 0 ==> items == connection.items
          invariant i == 1 ==> items == connection.items[1 := PortElement(connection.items[1]).value]
          invariant i == 2 ==> items == connection.items
            [1 := PortElement(connection.items[1]).value][3 := PortElement(connection.items[3]).value]
          invariant changed <==> items != connection.items
        {
          var index := ports[i];
          assert items[index] == connection.items[index];
          if items[index].Text? {
            var normalized := NormalizePort(items[index].text);
            if normalized.Err? {
              return Err(PortOutOfRange);
            }
            changed := changed || normalized.value != items[index];
            items := items[index := normalized.value];
          }
          i := i + 1;
        }
      }
      return Ok((Tensor(items), changed));
    }
    if !IsConnectionMap(connection) {
      return Ok((connection, false));
    }
    var source := NormalizePort(TextAt(connection.entries, "source_port_token").value);
    if source.Err? {
      return Err(PortOutOfRange);
    }
    var dest := NormalizePort(TextAt(connection.entries, "dest_port_token").value);
    if dest.Err? {
      return Err(PortOutOfRange);
    }
    return Ok((Tensor([
      connection.entries["source_block"], source.value, connection.entries["dest_block"], dest.value]), true));
  }

  /** Normalising a normalised connection is the identity. */
  lemma ConnectionRewriteIdempotent(connection: Value)
    requires RewrittenConnection(connection).Ok?
    ensures RewrittenConnection(RewrittenConnection(connection).value) == RewrittenConnection(connection)
  {
    var once := RewrittenConnection(connection).value;
    if once.Tensor? && |once.items| >= 4 {
      assert PortElement(once.items[1]) == Ok(once.items[1]);
      assert PortElement(once.items[3]) == Ok(once.items[3]);
      assert once.items[1 := once.items[1]][3 := once.items[3]] == once.items;
    }
  }

  // ------------------------------------------------------------- injection

  /** The name by which injection knows a block. */
  function InjectionName(block: PropertyMap): Option<string> {
    var name := TextAt(MapAt(block, "parameters"), "name");
    if NonEmpty(name) then name
    else if NonEmpty(TextAt(block, "instance_name")) then TextAt(block, "instance_name")
    else None
  }

  /** The first binding planned for a name; later ones with the same name are never reached. */
  function FirstMatch(bindings: seq<StreamBinding>, name: string): (k: Option<nat>)
    ensures k.Some? ==> k.value < |bindings| && bindings[k.value].plan.blockInstanceName == name
    ensures k.Some? ==> forall i :: 0 <= i < k.value ==> bindings[i].plan.blockInstanceName != name
    ensures k.None? ==> forall i :: 0 <= i < |bindings| ==> bindings[i].plan.blockInstanceName != name
  {
    if bindings == [] then None
    else
      var earlier := FirstMatch(bindings[..|bindings| - 1], name);
      if earlier.Some? then earlier
      else if bindings[|bindings| - 1].plan.blockInstanceName == name then Some(|bindings| - 1)
      else None
  }

  /** The binding injected into a list element, if any. */
  function MatchOf(value: Value, bindings: seq<StreamBinding>): (k: Option<nat>)
    ensures k.Some? ==> k.value < |bindings| && value.Map?
  {
    if value.Map? && InjectionName(value.entries).Some? then FirstMatch(bindings, InjectionName(value.entries).value)
    else None
  }

  function WithEndpoint(block: PropertyMap, endpoint: string): PropertyMap {
    block["parameters" := Map(MapAt(block, "parameters")["endpoint" := Value.Text(endpoint)])]
  }

  function InjectedBlock(value: Value, bindings: seq<StreamBinding>): Value {
    match MatchOf(value, bindings)
    case None => value
    case Some(k) => Map(WithEndpoint(value.entries, bindings[k].internal.endpoint))
  }

  function InjectedIds(blocks: seq<Value>, bindings: seq<StreamBinding>): set<string> {
    set i | 0 <= i < |blocks| && MatchOf(blocks[i], bindings).Some? ::
      bindings[MatchOf(blocks[i], bindings).value].plan.streamId
  }

  function InjectedBlocks(blocks: seq<Value>, bindings: seq<StreamBinding>): seq<Value> {
    seq(|blocks|, i requires 0 <= i < |blocks| => InjectedBlock(blocks[i], bindings))
  }

  function Injected(root: PropertyMap, bindings: seq<StreamBinding>): Result<PropertyMap, GraphError> {
    if bindings == [] || BlockList(root).None? then Ok(root)
    else
      var blocks := BlockList(root).value;
      if |InjectedIds(blocks, bindings)| != |bindings| then Err(BindingsNotInjected)
      else Ok(root["blocks" := Tensor(InjectedBlocks(blocks, bindings))])
  }

  /** The work of the injection loop on one block: the first binding with the block's name wins. */
  method InjectIntoBlock(block: PropertyMap, bindings: seq<StreamBinding>)
    returns (block': PropertyMap, matched: Option<nat>)
    ensures matched == MatchOf(Map(block), bindings)
    ensures Map(block') == InjectedBlock(Map(block), bindings)
  {
    var parameters := MapAt(block, "parameters");
    var name := TextAt(parameters, "name");
    if !NonEmpty(name) && "instance_name" in block {
      name := TextOf(block["instance_name"]);
    }
    if !NonEmpty(name) {
      return block, None;
    }
    assert InjectionName(block) == name;
    var k := 0;
    while k < |bindings|
      invariant 0 <= k <= |bindings|
      invariant forall m :: 0 <= m < k ==> bindings[m].plan.blockInstanceName != name.value
    {
      if bindings[k].plan.blockInstanceName == name.value {
        assert FirstMatch(bindings, name.value) == Some(k);
        parameters := parameters["endpoint" := Value.Text(bindings[k].internal.endpoint)];
        return block["parameters" := Map(parameters)], Some(k);
      }
      k := k + 1;
    }
    return block, None;
  }

  lemma NothingInjected(bindings: seq<StreamBinding>)
    ensures InjectedIds([], bindings) == {}
  {
  }

  lemma InjectedBlockOf(value: Value, bindings: seq<StreamBinding>)
    ensures MatchOf(value, bindings).None? ==> InjectedBlock(value, bindings) == value
    ensures !value.Map? ==> MatchOf(value, bindings).None?
  {
  }

  method InjectStreamBindings(root: PropertyMap, bindings: seq<StreamBinding>)
    returns (result: Result<(PropertyMap, bool), GraphError>)
    ensures match Injected(root, bindings)
      case Err(error) => result == Err(error)
      case Ok(injected) => result.Ok? && result.value.0 == injected && (!result.value.1 ==> injected == root)
  {
    hide MatchOf, InjectedBlock, InjectedIds;
    NothingInjected(bindings);
    if bindings == [] {
      return Ok((root, false));
    }
    if BlockList(root).None? {
      return Ok((root, false));
    }
    var original := BlockList(root).value;
    var blocks, changed := original, false;
    var injectedIds: set<string> := {};
    var i := 0;
    while i < |blocks|
      invariant 0 <= i <= |blocks| == |original|
      invariant forall j :: 0 <= j < i ==> blocks[j] == InjectedBlock(original[j], bindings)
      invariant forall j :: i <= j < |blocks| ==> blocks[j] == original[j]
      invariant injectedIds == InjectedIds(original[..i], bindings)
      invariant !changed ==> blocks == original
    {
      InjectedIdsStep(original, i, bindings);
      InjectedBlockOf(original[i], bindings);
      if blocks[i].Map? {
        var block, matched := InjectIntoBlock(blocks[i].entries, bindings);
        if matched.Some? {
          blocks := blocks[i := Map(block)];
          injectedIds := injectedIds + {bindings[matched.value].plan.streamId};
          changed := true;
        }
      }
      i := i + 1;
    }
    assert original[..i] == original;
    if |injectedIds| != |bindings| {
      return Err(BindingsNotInjected);
    }
    assert blocks == InjectedBlocks(original, bindings);
    assert root["blocks" := Tensor(original)] == root;
    return Ok((root["blocks" := Tensor(blocks)], changed));
  }

  lemma InjectedIdsStep(blocks: seq<Value>, i: nat, bindings: seq<StreamBinding>)
    requires i < |blocks|
    ensures InjectedIds(blocks[..i + 1], bindings)
      == InjectedIds(blocks[..i], bindings)
         + if MatchOf(blocks[i], bindings).Some?
           then {bindings[MatchOf(blocks[i], bindings).value].plan.streamId} else {}
  {
    var longer, shorter := blocks[..i + 1], blocks[..i];
    assert longer[i] == blocks[i];
    assert forall j :: 0 <= j < i ==> longer[j] == shorter[j] == blocks[j];
    forall id | id in InjectedIds(shorter, bindings) ensures id in InjectedIds(longer, bindings) {
      var j :| 0 <= j < i && MatchOf(shorter[j], bindings).Some?
        && bindings[MatchOf(shorter[j], bindings).value].plan.streamId == id;
      assert longer[j] == shorter[j];
    }
    if MatchOf(blocks[i], bindings).Some? {
      assert bindings[MatchOf(longer[i], bindings).value].plan.streamId in InjectedIds(longer, bindings);
    }
  }

  predicate DistinctStreams(bindings: seq<StreamBinding>) {
    forall i, j :: 0 <= i < j < |bindings| ==> bindings[i].plan.streamId != bindings[j].plan.streamId
  }

  function BindingIds(bindings: seq<StreamBinding>): (ids: set<string>)
    ensures forall id :: id in ids <==> exists k :: 0 <= k < |bindings| && bindings[k].plan.streamId == id
  {
    set k | 0 <= k < |bindings| :: bindings[k].plan.streamId
  }

  lemma BindingIdsAppend(bindings: seq<StreamBinding>, last: StreamBinding)
    ensures BindingIds(bindings + [last]) == BindingIds(bindings) + {last.plan.streamId}
  {
    var longer := bindings + [last];
    forall id ensures id in BindingIds(longer) <==> id in BindingIds(bindings) || id == last.plan.streamId {
      if id in BindingIds(bindings) {
        var k :| 0 <= k < |bindings| && bindings[k].plan.streamId == id;
        assert longer[k].plan.streamId == id;
      } else if id == last.plan.streamId {
        assert longer[|bindings|].plan.streamId == id;
      }
    }
  }

  lemma {:induction false} BindingIdCount(bindings: seq<StreamBinding>)
    requires DistinctStreams(bindings)
    ensures |BindingIds(bindings)| == |bindings|
  {
    if bindings != [] {
      var front, last := bindings[..|bindings| - 1], bindings[|bindings| - 1];
      assert bindings == front + [last];
      BindingIdCount(front);
      BindingIdsAppend(front, last);
      assert last.plan.streamId !in BindingIds(front);
    }
  }

  lemma SubsetOfSameSize(small: set<string>, large: set<string>)
    requires small <= large
    ensures |small| <= |large|
    ensures |small| == |large| ==> small == large
  {
    assert large == small + (large - small);
    assert |large| == |small| + |large - small|;
  }

  /** Binding `k` goes into some list element. */
  ghost predicate Reached(blocks: seq<Value>, bindings: seq<StreamBinding>, k: nat) {
    exists i :: 0 <= i < |blocks| && MatchOf(blocks[i], bindings) == Some(k)
  }

  /**
   Injection is all or throw. With distinct stream ids and a block list to work
   on, it returns normally exactly when every binding reached some block; the
   count of injected ids is the pigeonhole that decides.
   */
  lemma InjectionAllOrThrow(root: PropertyMap, bindings: seq<StreamBinding>)
    requires DistinctStreams(bindings) && BlockList(root).Some?
    ensures Injected(root, bindings).Ok?
      <==> forall k :: 0 <= k < |bindings| ==> Reached(BlockList(root).value, bindings, k)
  {
    var blocks := BlockList(root).value;
    var ids, all := InjectedIds(blocks, bindings), BindingIds(bindings);
    BindingIdCount(bindings);
    SubsetOfSameSize(ids, all);
    if |ids| == |bindings| {
      forall k | 0 <= k < |bindings| ensures Reached(blocks, bindings, k) {
        assert bindings[k].plan.streamId in all;
        var i :| 0 <= i < |blocks| && MatchOf(blocks[i], bindings).Some?
          && bindings[MatchOf(blocks[i], bindings).value].plan.streamId == bindings[k].plan.streamId;
        assert MatchOf(blocks[i], bindings) == Some(k);
      }
    }
    if forall k :: 0 <= k < |bindings| ==> Reached(blocks, bindings, k) {
      forall id | id in all ensures id in ids {
        var k :| 0 <= k < |bindings| && bindings[k].plan.streamId == id;
        assert Reached(blocks, bindings, k);
        var i :| 0 <= i < |blocks| && MatchOf(blocks[i], bindings) == Some(k);
      }
      assert ids == all;
    }
  }

  /** Injection changes matched blocks only, and in them only `parameters.endpoint`. */
  lemma InjectionFrame(root: PropertyMap, bindings: seq<StreamBinding>)
    requires Injected(root, bindings).Ok? && BlockList(root).Some?
    ensures var injected := Injected(root, bindings).value;
      && injected.Keys == root.Keys
      && (forall key :: key in root && key != "blocks" ==> injected[key] == root[key])
      && BlockList(injected).Some? && |BlockList(injected).value| == |BlockList(root).value|
      && forall i :: 0 <= i < |BlockList(root).value| ==>
           var before, after := BlockList(root).value[i], BlockList(injected).value[i];
           if bindings == [] || MatchOf(before, bindings).None? then after == before
           else
             && before.Map? && after.Map?
             && (forall key :: key != "parameters" ==>
                   (key in after.entries <==> key in before.entries)
                   && (key in before.entries ==> after.entries[key] == before.entries[key]))
             && MapAt(after.entries, "parameters")
                == MapAt(before.entries, "parameters")
                   ["endpoint" := Value.Text(bindings[MatchOf(before, bindings).value].internal.endpoint)]
  {
    var injected := Injected(root, bindings).value;
    var blocks := BlockList(root).value;
    if bindings != [] {
      assert BlockList(injected).value == InjectedBlocks(blocks, bindings);
      forall i | 0 <= i < |blocks|
        ensures BlockList(injected).value[i] == InjectedBlock(blocks[i], bindings)
      {
      }
    }
  }

  // ----------------------------------------------------------- whole graph

  function RewrittenBlockValue(value: Value): Value {
    if value.Map? then Map(RewrittenBlock(value.entries)) else value
  }

  function RewrittenBlocks(blocks: seq<Value>): seq<Value> {
    seq(|blocks|, i requires 0 <= i < |blocks| => RewrittenBlockValue(blocks[i]))
  }

  function WithRewrittenBlocks(root: PropertyMap): PropertyMap {
    if BlockList(root).Some? then root["blocks" := Tensor(RewrittenBlocks(BlockList(root).value))] else root
  }

  function ConnectionList(root: PropertyMap): Option<seq<Value>> {
    if "connections" in root && root["connections"].Tensor? then Some(root["connections"].items) else None
  }

  predicate ConnectionsConvert(connections: seq<Value>) {
    forall i :: 0 <= i < |connections| ==> RewrittenConnection(connections[i]).Ok?
  }

  function RewrittenConnections(connections: seq<Value>): seq<Value>
    requires ConnectionsConvert(connections)
  {
    seq(|connections|, i requires 0 <= i < |connections| => RewrittenConnection(connections[i]).value)
  }

  function WithRewrittenConnections(root: PropertyMap): Result<PropertyMap, GraphError> {
    match ConnectionList(root)
    case None => Ok(root)
    case Some(connections) =>
      if ConnectionsConvert(connections) then Ok(root["connections" := Tensor(RewrittenConnections(connections))])
      else Err(PortOutOfRange)
  }

  /** The tree that is loaded in place of a submitted one. */
  function RewrittenGraph(root: PropertyMap, bindings: seq<StreamBinding>): Result<PropertyMap, GraphError> {
    match WithRewrittenConnections(WithRewrittenBlocks(root))
    case Err(error) => Err(error)
    case Ok(normalized) => Injected(normalized, bindings)
  }

  /** The text handed to the graph loader: the submitted text, or a serialised tree. */
  datatype GraphText = Submitted(text: string) | Serialized(root: PropertyMap)

  /** The tree a graph text denotes, reading serialised text back as the tree it was made from. */
  function Denotes(graph: GraphText, grc: Document): Option<PropertyMap> {
    match graph
    case Submitted(_) => grc.root
    case Serialized(root) => Some(root)
  }

  method NormalizeBlockList(blocks: seq<Value>) returns (blocks': seq<Value>, changed: bool)
    ensures blocks' == RewrittenBlocks(blocks)
    ensures !changed ==> blocks' == blocks
  {
    blocks', changed := blocks, false;
    var i := 0;
    while i < |blocks'|
      invariant 0 <= i <= |blocks'| == |blocks|
      invariant forall j :: 0 <= j < i ==> blocks'[j] == RewrittenBlockValue(blocks[j])
      invariant forall j :: i <= j < |blocks| ==> blocks'[j] == blocks[j]
      invariant !changed ==> blocks' == blocks
    {
      if blocks'[i].Map? {
        var before := blocks'[i].entries;
        var block := NormalizeBlock(before);
        changed := changed || block != before;
        blocks' := blocks'[i := Map(block)];
      }
      i := i + 1;
    }
  }

  method NormalizeConnectionList(connections: seq<Value>) returns (result: Result<(seq<Value>, bool), GraphError>)
    ensures result.Ok? <==> ConnectionsConvert(connections)
    ensures result.Err? ==> result.error == PortOutOfRange
    ensures result.Ok? ==> result.value.0 == RewrittenConnections(connections)
    ensures result.Ok? && !result.value.1 ==> result.value.0 == connections
  {
    var connections', changed := connections, false;
    var i := 0;
    while i < |connections'|
      invariant 0 <= i <= |connections'| == |connections|
      invariant forall j :: 0 <= j < i ==>
        RewrittenConnection(connections[j]).Ok? && connections'[j] == RewrittenConnection(connections[j]).value
      invariant forall j :: i <= j < |connections| ==> connections'[j] == connections[j]
      invariant !changed ==> connections' == connections
    {
      var normalized := NormalizeConnection(connections'[i]);
      if normalized.Err? {
        return Err(normalized.error);
      }
      connections' := connections'[i := normalized.value.0];
      changed := normalized.value.1 || changed;
      i := i + 1;
    }
    return Ok((connections', changed));
  }

  /** The `changed` shortcut never drops a change: the text returned denotes the rewritten tree. */
  method NormalizeGraphContent(grc: Document, bindings: seq<StreamBinding>)
    returns (result: Result<GraphText, GraphError>)
    ensures grc.root.None? ==> result == Ok(Submitted(grc.text))
    ensures grc.root.Some? ==>
      match RewrittenGraph(grc.root.value, bindings)
      case Err(error) => result == Err(error)
      case Ok(rewritten) => result.Ok? && Denotes(result.value, grc) == Some(rewritten)
    ensures result.Ok? && result.value.Submitted? ==> result.value.text == grc.text
  {
    if grc.root.None? {
      return Ok(Submitted(grc.text));
    }
    ghost var submitted := grc.root.value;
    var root, changed := grc.root.value, false;

    if BlockList(root).Some? {
      var blocks, blocksChanged := NormalizeBlockList(BlockList(root).value);
      root, changed := root["blocks" := Tensor(blocks)], blocksChanged;
    }
    assert root == WithRewrittenBlocks(submitted);
    assert !changed ==> root == submitted;

    if ConnectionList(root).Some? {
      var connections := NormalizeConnectionList(ConnectionList(root).value);
      if connections.Err? {
        return Err(connections.error);
      }
      root, changed := root["connections" := Tensor(connections.value.0)], connections.value.1 || changed;
    }
    assert WithRewrittenConnections(WithRewrittenBlocks(submitted)) == Ok(root);
    assert !changed ==> root == submitted;

    var injected := InjectStreamBindings(root, bindings);
    if injected.Err? {
      return Err(injected.error);
    }
    changed := injected.value.1 || changed;
    return Ok(if changed then Serialized(injected.value.0) else Submitted(grc.text));
  }
}
