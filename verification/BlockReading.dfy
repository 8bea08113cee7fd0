/**
 Which key of a submitted block each reader takes each datum from: the planner
 (src/domain/session_stream.cpp), the rewriter and the injector
 (src/runtime/gr4_runtime_manager.cpp). Everything here is said on the keys of
 the block as it was submitted.
 */
module BlockReading {
  import opened Wrappers
  import opened PropertyValues
  import opened SessionStream
  import opened GraphRewrite
  import opened EndpointInjection

  /** What is stored under a key. */
  function Under(entries: PropertyMap, key: string): Option<Value> {
    if key in entries then Some(entries[key]) else None
  }

  /** The text, if it is one. */
  function TextIn(value: Option<Value>): Option<string> {
    match value
    case Some(Text(text)) => Some(text)
    case _ => None
  }

  /** What the map under the outer key, if it is one, stores under the inner key. */
  function Within(entries: PropertyMap, outer: string, inner: string): Option<Value> {
    match Under(entries, outer)
    case Some(Map(nested)) => Under(nested, inner)
    case _ => None
  }

  /** A parameter of a block: `parameters` is asked first, then `raw_parameters`. */
  function Parameter(block: PropertyMap, key: string): Option<Value> {
    if Within(block, "parameters", key).Some? then Within(block, "parameters", key)
    else Within(block, "raw_parameters", key)
  }

  /** The first text of the list that is there and not empty, or the empty text. */
  function FirstNonEmpty(candidates: seq<Option<string>>): string {
    if candidates == [] then ""
    else if candidates[0].Some? && candidates[0].value != "" then candidates[0].value
    else FirstNonEmpty(candidates[1..])
  }

  lemma FirstOf(head: Option<string>, rest: seq<Option<string>>)
    ensures FirstNonEmpty([head] + rest) == if NonEmpty(head) then head.value else FirstNonEmpty(rest)
  {
    assert ([head] + rest)[1..] == rest;
  }

  lemma FirstOfTwo(a: Option<string>, b: Option<string>)
    ensures FirstNonEmpty([a, b]) == if NonEmpty(a) then a.value else if NonEmpty(b) then b.value else ""
  {
    assert [a, b][1..] == [b] && [b][1..] == [];
    assert FirstNonEmpty([b]) == if NonEmpty(b) then b.value else FirstNonEmpty([]);
  }

  lemma FirstOfThree(a: Option<string>, b: Option<string>, c: Option<string>)
    ensures FirstNonEmpty([a, b, c]) == if NonEmpty(a) then a.value else FirstNonEmpty([b, c])
  {
    assert [a, b, c][1..] == [b, c];
  }

  lemma FirstOfFour(a: Option<string>, b: Option<string>, c: Option<string>, d: Option<string>)
    ensures FirstNonEmpty([a, b, c, d]) == if NonEmpty(a) then a.value else FirstNonEmpty([b, c, d])
  {
    assert [a, b, c, d][1..] == [b, c, d];
  }

  /** Both readers merge the two parameter maps to the same effect. */
  lemma MergedAt(block: PropertyMap, key: string)
    ensures Under(MergedParameters(block), key) == Parameter(block, key)
  {
  }

  lemma TextUnder(entries: PropertyMap, key: string)
    ensures TextAt(entries, key) == TextIn(Under(entries, key))
  {
  }

  // -------------------------------------------------------------- the planner

  /** What gives a block its type: the first of these keys that holds a text, even an empty one. */
  function TypeText(block: PropertyMap): Option<string> {
    if TextIn(Under(block, "block")).Some? then TextIn(Under(block, "block"))
    else if TextIn(Under(block, "id")).Some? then TextIn(Under(block, "id"))
    else TextIn(Under(block, "block_type"))
  }

  /** The texts a block may be named by for the planner, in order of preference. */
  function PlannerNames(block: PropertyMap): seq<Option<string>> {
    [ TextIn(Parameter(block, "name")),
      if "block" in block then TextIn(Under(block, "id")) else None,
      TextIn(Under(block, "instance_name")),
      TextIn(Under(block, "name"))]
  }

  /** A datum of the stream: under `nested` in the `stream` parameter if there is one, else the parameter `flat`. */
  function StreamText(block: PropertyMap, nested: string, flat: string): Option<string> {
    match Parameter(block, "stream")
    case Some(Map(stream)) => TextIn(Under(stream, nested))
    case Some(_) => None
    case None => TextIn(Parameter(block, flat))
  }

  /** The block declares a stream: it has a `stream` parameter of any kind, or a text for one of the flat keys. */
  predicate DeclaresStream(block: PropertyMap) {
    || Parameter(block, "stream").Some?
    || TextIn(Parameter(block, "stream_id")).Some?
    || TextIn(Parameter(block, "transport")).Some?
    || TextIn(Parameter(block, "payload_format")).Some?
  }

  lemma NameIsFirst(block: PropertyMap)
    ensures PlannedName(block) == FirstNonEmpty(PlannerNames(block))
  {
    MergedAt(block, "name");
    TextUnder(MergedParameters(block), "name");
    TextUnder(block, "id");
    var names := PlannerNames(block);
    FirstOfFour(names[0], names[1], names[2], names[3]);
    FirstOfThree(names[1], names[2], names[3]);
    FirstOfTwo(names[2], names[3]);
  }

  lemma IntentFields(block: PropertyMap)
    ensures var stream := NormalizeStreamIntent(MergedParameters(block));
      && (stream.declared <==> DeclaresStream(block))
      && stream.streamId == StreamText(block, "id", "stream_id")
      && stream.transport == StreamText(block, "transport", "transport")
      && stream.payloadFormat == StreamText(block, "payload_format", "payload_format")
  {
    MergedAt(block, "stream");
    MergedAt(block, "stream_id");
    MergedAt(block, "transport");
    MergedAt(block, "payload_format");
  }

  /**
   What the planner reads from a block, datum by datum. A block is read exactly
   if it has a non-empty type; it declares a stream exactly if one of the stream
   keys is there; with a `stream` parameter the flat keys are ignored.
   */
  lemma PlannerReads(block: PropertyMap)
    ensures NormalizedStreamBlock(block).Some? <==> NonEmpty(TypeText(block))
    ensures NormalizedStreamBlock(block).Some? ==>
      var read := NormalizedStreamBlock(block).value;
      && read.typeId == TypeText(block).value
      && read.instanceName == FirstNonEmpty(PlannerNames(block))
      && (read.stream.declared <==> DeclaresStream(block))
      && read.stream.streamId == StreamText(block, "id", "stream_id")
      && read.stream.transport == StreamText(block, "transport", "transport")
      && read.stream.payloadFormat == StreamText(block, "payload_format", "payload_format")
  {
    hide NormalizeStreamIntent, PlannedName, MergedParameters, StreamText, DeclaresStream, FirstNonEmpty, PlannerNames;
    NameIsFirst(block);
    IntentFields(block);
  }

  /** A block of a list is planned for exactly if it is a map with a type that declares a stream. */
  lemma DeclaresIff(value: Value)
    ensures Declares(value) <==> value.Map? && NonEmpty(TypeText(value.entries)) && DeclaresStream(value.entries)
  {
    if value.Map? {
      PlannerReads(value.entries);
    }
  }

  /** What the contract asks of a declaring block, on its keys. */
  predicate SoundStream(block: PropertyMap) {
    && FirstNonEmpty(PlannerNames(block)) != ""
    && NonEmpty(StreamText(block, "payload_format", "payload_format"))
    && StreamText(block, "transport", "transport").Some?
    && TransportSupported(StreamText(block, "transport", "transport").value)
  }

  /** The stream id: the declared one if there is one and it is not empty, else the name of the block. */
  function StreamIdIn(block: PropertyMap): string {
    FirstNonEmpty([StreamText(block, "id", "stream_id")] + PlannerNames(block))
  }

  lemma DeclaredReads(value: Value)
    requires Declares(value)
    ensures WellFormed(DeclaredOf(value)) <==> SoundStream(value.entries)
    ensures StreamIdOf(DeclaredOf(value)) == StreamIdIn(value.entries)
  {
    hide NormalizedStreamBlock, StreamText, FirstNonEmpty, PlannerNames;
    PlannerReads(value.entries);
    FirstOf(StreamText(value.entries, "id", "stream_id"), PlannerNames(value.entries));
  }

  /** The contract holds exactly when every declaring block is sound and no two have the same stream id. */
  lemma ContractIff(grc: Document)
    requires HasBlocks(grc)
    ensures ContractHolds(DocumentStreams(grc)) <==>
      var blocks := BlocksOf(grc);
      && (forall i :: 0 <= i < |blocks| && Declares(blocks[i]) ==> SoundStream(blocks[i].entries))
      && (forall i, j :: 0 <= i < j < |blocks| && Declares(blocks[i]) && Declares(blocks[j]) ==>
            StreamIdIn(blocks[i].entries) != StreamIdIn(blocks[j].entries))
  {
    hide NormalizedStreamBlock, SoundStream, StreamIdIn, WellFormed, StreamIdOf, DeclaredBlocks;
    var blocks, declared := BlocksOf(grc), DocumentStreams(grc);
    assert declared == DeclaredBlocks(blocks);
    forall i | 0 <= i < |blocks| && Declares(blocks[i])
      ensures Ordinal(blocks, i) < |declared|
      ensures WellFormed(declared[Ordinal(blocks, i)]) <==> SoundStream(blocks[i].entries)
      ensures StreamIdOf(declared[Ordinal(blocks, i)]) == StreamIdIn(blocks[i].entries)
    {
      OrdinalOf(blocks, i);
      DeclaredReads(blocks[i]);
    }
    if ContractHolds(declared) {
      forall i, j | 0 <= i < j < |blocks| && Declares(blocks[i]) && Declares(blocks[j])
        ensures StreamIdIn(blocks[i].entries) != StreamIdIn(blocks[j].entries)
      {
        OrdinalsGrow(blocks, i, j);
      }
    } else if k, l :| 0 <= k < l < |declared| && StreamIdOf(declared[k]) == StreamIdOf(declared[l]) {
      var i := BlockAt(blocks, k);
      var j := BlockAt(blocks, l);
      if j < i {
        OrdinalsGrow(blocks, j, i);
      }
    } else {
      var k :| 0 <= k < |declared| && !WellFormed(declared[k]);
      var i := BlockAt(blocks, k);
    }
  }

  /** A document has a plan exactly when it has a block list, some block declares, and the contract holds. */
  lemma PlanIff(sessionId: string, grc: Document)
    ensures DerivedPlan(sessionId, grc).Some? <==>
      && HasBlocks(grc) && ContractHolds(DocumentStreams(grc))
      && exists i :: 0 <= i < |BlocksOf(grc)| && Declares(BlocksOf(grc)[i])
  {
    hide NormalizedStreamBlock, ContractHolds;
    if HasBlocks(grc) {
      var blocks := BlocksOf(grc);
      if DocumentStreams(grc) != [] {
        var i := BlockAt(blocks, 0);
      }
      if i :| 0 <= i < |blocks| && Declares(blocks[i]) {
        OrdinalOf(blocks, i);
      }
    }
  }

  lemma OrdinalsGrow(blocks: seq<Value>, i: nat, j: nat)
    requires i < j < |blocks| && Declares(blocks[i])
    ensures Ordinal(blocks, i) < Ordinal(blocks, j)
  {
    hide Declares;
    assert blocks[..j][..i] == blocks[..i] && blocks[..j][i] == blocks[i];
    OrdinalOf(blocks[..j], i);
  }

  /**
   Each entry of a plan, against the block that declared it: every field of the
   entry, on the keys of the block as submitted.
   */
  lemma PlanEntryReads(sessionId: string, grc: Document, i: nat)
    requires HasBlocks(grc) && DerivedPlan(sessionId, grc).Some?
    requires i < |BlocksOf(grc)| && Declares(BlocksOf(grc)[i])
    ensures Ordinal(BlocksOf(grc), i) < |DerivedPlan(sessionId, grc).value|
    ensures var block := BlocksOf(grc)[i].entries;
      var entry := DerivedPlan(sessionId, grc).value[Ordinal(BlocksOf(grc), i)];
      && entry.streamId == StreamIdIn(block)
      && entry.blockInstanceName == FirstNonEmpty(PlannerNames(block))
      && Some(entry.transport) == StreamText(block, "transport", "transport")
      && Some(entry.payloadFormat) == StreamText(block, "payload_format", "payload_format")
      && entry.path == "/sessions/" + sessionId + "/streams/" + entry.streamId
           + (if entry.transport == "websocket" then "/ws" else "/http")
      && entry.ready
  {
    hide NormalizedStreamBlock, SoundStream, StreamIdIn, StreamText, FirstNonEmpty, PlannerNames, DeclaredBlocks;
    var value := BlocksOf(grc)[i];
    OrdinalOf(BlocksOf(grc), i);
    PlannerReads(value.entries);
    DeclaredReads(value);
  }

  // ------------------------------------------------------------- the rewriter

  /** The texts a rewritten block gets its name from if no parameter called `name` is there. */
  function RewriterNames(block: PropertyMap): seq<Option<string>> {
    [TextIn(Under(block, "id")), TextIn(Under(block, "instance_name")), TextIn(Under(block, "name"))]
  }

  lemma FallbackIsFirst(block: PropertyMap)
    ensures FallbackName(block) == FirstNonEmpty(RewriterNames(block))
  {
    var names := RewriterNames(block);
    FirstOfThree(names[0], names[1], names[2]);
    FirstOfTwo(names[1], names[2]);
  }

  /** What a rewritten block has for its `id`: its type, if it says what its type is. */
  function RewrittenId(block: PropertyMap): Option<Value> {
    if NonEmpty(TextIn(Under(block, "block"))) then Under(block, "block")
    else if Under(block, "id").Some? then Under(block, "id")
    else if NonEmpty(TextIn(Under(block, "block_type"))) then Under(block, "block_type")
    else None
  }

  /** What a rewritten block has for its parameter `name`. */
  function RewrittenName(block: PropertyMap): Option<Value> {
    if Parameter(block, "name").Some? then Parameter(block, "name")
    else if FirstNonEmpty(RewriterNames(block)) != "" then Some(Value.Text(FirstNonEmpty(RewriterNames(block))))
    else None
  }

  /**
   A rewritten block, key by key: `id`, the parameters one by one, the name
   among them, and every other key as submitted.
   */
  lemma RewriterWrites(block: PropertyMap, key: string)
    ensures Under(RewrittenBlock(block), "id") == RewrittenId(block)
    ensures Within(RewrittenBlock(block), "parameters", key)
      == if key == "name" then RewrittenName(block) else Parameter(block, key)
    ensures key != "id" && key != "parameters" ==> Under(RewrittenBlock(block), key) == Under(block, key)
  {
    FallbackIsFirst(block);
    MergedAt(block, key);
    MergedAt(block, "name");
    RewrittenParameters(block);
    assert Within(RewrittenBlock(block), "parameters", key) == Under(NamedParameters(block), key);
  }

  /** A graph loaded without streams has every block of the submitted list, rewritten, in its place. */
  lemma LoadedWithoutStreams(root: PropertyMap)
    requires BlockList(root).Some? && RewrittenGraph(root, []).Ok?
    ensures var before, loaded := BlockList(root).value, BlockList(RewrittenGraph(root, []).value);
      && loaded.Some? && |loaded.value| == |before|
      && forall i :: 0 <= i < |before| ==>
           loaded.value[i] == if before[i].Map? then Map(RewrittenBlock(before[i].entries)) else before[i]
  {
    hide RewrittenBlock, RewrittenConnection;
    ConnectionsKeepBlocks(root);
  }

  // ------------------------------------------------------------- the injector

  /** The texts injection may know a block by once it is rewritten, on the submitted keys. */
  function InjectorNames(block: PropertyMap): seq<Option<string>> {
    if Parameter(block, "name").Some?
    then [TextIn(Parameter(block, "name")), TextIn(Under(block, "instance_name"))]
    else RewriterNames(block)
  }

  /** Injection knows a submitted block by the first of these texts. */
  lemma InjectorReads(block: PropertyMap)
    ensures InjectionName(RewrittenBlock(block)) == AsName(FirstNonEmpty(InjectorNames(block)))
  {
    RewriterWrites(block, "name");
    RewriterWrites(block, "instance_name");
    var rewritten, names := RewrittenBlock(block), RewriterNames(block);
    TextUnder(rewritten, "instance_name");
    assert TextAt(MapAt(rewritten, "parameters"), "name") == TextIn(Within(rewritten, "parameters", "name"));
    FirstOfTwo(TextIn(Parameter(block, "name")), TextIn(Under(block, "instance_name")));
    FirstOfThree(names[0], names[1], names[2]);
    FirstOfTwo(names[1], names[2]);
  }

  /** Where the endpoint goes: into the parameter `endpoint`, and nothing else of a matched block is different. */
  lemma InjectorWrites(block: PropertyMap, endpoint: string, key: string)
    ensures Within(WithEndpoint(block, endpoint), "parameters", key)
      == if key == "endpoint" then Some(Value.Text(endpoint)) else Within(block, "parameters", key)
    ensures key != "parameters" ==> Under(WithEndpoint(block, endpoint), key) == Under(block, key)
  {
  }

  // --------------------------------------------------------------- an example

  /** A sink that declares its stream in the nested form. */
  function NestedSink(name: string, streamId: string, transport: string, format: string): PropertyMap {
    map["id" := Value.Text("sink"),
        "parameters" := Map(map["name" := Value.Text(name),
                                "stream" := Map(map["id" := Value.Text(streamId),
                                                    "transport" := Value.Text(transport),
                                                    "payload_format" := Value.Text(format)])])]
  }

  /** Each of its four texts ends up where it belongs. */
  lemma NestedSinkReads(name: string, streamId: string, transport: string, format: string)
    requires name != ""
    ensures NormalizedStreamBlock(NestedSink(name, streamId, transport, format))
      == Some(NormalizedBlock("sink", name, StreamIntent(true, Some(streamId), Some(transport), Some(format))))
  {
    hide NormalizedStreamBlock;
    var block := NestedSink(name, streamId, transport, format);
    PlannerReads(block);
    assert Parameter(block, "name") == Some(Value.Text(name));
    FirstOfFour(PlannerNames(block)[0], PlannerNames(block)[1], PlannerNames(block)[2], PlannerNames(block)[3]);
  }
}
