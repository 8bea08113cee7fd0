/**
 How the stored graph of a session declares its managed streams, and the plan
 derived from them (src/domain/session_stream.cpp).
 */
module SessionStream {
  import opened Wrappers
  import opened PropertyValues

  datatype StreamIntent = StreamIntent(
    declared: bool,
    streamId: Option<string>,
    transport: Option<string>,
    payloadFormat: Option<string>)

  datatype NormalizedBlock = NormalizedBlock(typeId: string, instanceName: string, stream: StreamIntent)

  datatype StreamPlan = StreamPlan(
    streamId: string,
    blockInstanceName: string,
    transport: string,
    payloadFormat: string,
    path: string,
    ready: bool)

  /** Where a stream is served inside the process. */
  datatype InternalBinding = InternalBinding(protocol: string, host: string, port: nat, path: string, endpoint: string)

  datatype BrowserDescriptor = BrowserDescriptor(
    id: string,
    blockInstanceName: string,
    transport: string,
    payloadFormat: string,
    path: string,
    ready: bool)

  datatype StreamBinding = StreamBinding(plan: StreamPlan, internal: InternalBinding, browser: BrowserDescriptor)

  function ToBrowserDescriptor(plan: StreamPlan): BrowserDescriptor {
    BrowserDescriptor(plan.streamId, plan.blockInstanceName, plan.transport, plan.payloadFormat, plan.path, plan.ready)
  }

  datatype ContractError =
    | MissingInstanceName
    | MissingStreamId
    | MissingTransport
    | UnsupportedTransport
    | MissingPayloadFormat
    | DuplicateStreamId

  const SUPPORTED_TRANSPORTS := ["http_snapshot", "http_poll", "websocket"]

  function MakeStreamPath(sessionId: string, streamId: string, transport: string): string {
    "/sessions/" + sessionId + "/streams/" + streamId + if transport == "websocket" then "/ws" else "/http"
  }

  function NormalizeStreamIntent(parameters: PropertyMap): StreamIntent {
    if "stream" in parameters then
      if parameters["stream"].Map? then
        var stream := parameters["stream"].entries;
        StreamIntent(true, TextAt(stream, "id"), TextAt(stream, "transport"), TextAt(stream, "payload_format"))
      else
        StreamIntent(true, None, None, None)
    else
      var streamId := TextAt(parameters, "stream_id");
      var transport := TextAt(parameters, "transport");
      var payloadFormat := TextAt(parameters, "payload_format");
      StreamIntent(streamId.Some? || transport.Some? || payloadFormat.Some?, streamId, transport, payloadFormat)
  }

  /** The type id: `block`, else `id`, else `block_type`, each only when it is a string. */
  function BlockTypeId(block: PropertyMap): Option<string> {
    if TextAt(block, "block").Some? then TextAt(block, "block")
    else if TextAt(block, "id").Some? then TextAt(block, "id")
    else TextAt(block, "block_type")
  }

  /** The first non-empty string among the block-level names. */
  function BlockLevelName(block: PropertyMap): string {
    if NonEmpty(TextAt(block, "instance_name")) then TextAt(block, "instance_name").value
    else if NonEmpty(TextAt(block, "name")) then TextAt(block, "name").value
    else ""
  }

  /** The name the planner gives a block; empty when nothing names it. */
  function PlannedName(block: PropertyMap): string {
    var parameters := MergedParameters(block);
    if NonEmpty(TextAt(parameters, "name")) then TextAt(parameters, "name").value
    else if "block" in block && NonEmpty(TextAt(block, "id")) then TextAt(block, "id").value
    else BlockLevelName(block)
  }

  function NormalizedStreamBlock(block: PropertyMap): Option<NormalizedBlock> {
    if NonEmpty(BlockTypeId(block)) then
      var stream := NormalizeStreamIntent(MergedParameters(block));
      Some(NormalizedBlock(BlockTypeId(block).value, PlannedName(block), stream))
    else None
  }

  method NormalizeStreamBlock(block: PropertyMap) returns (normalized: Option<NormalizedBlock>)
    ensures normalized == NormalizedStreamBlock(block)
  {
    var studioNodeId := TextAt(block, "id");

    var blockTypeId := TextAt(block, "block");
    if blockTypeId.None? {
      blockTypeId := TextAt(block, "id");
    }
    if blockTypeId.None? {
      blockTypeId := TextAt(block, "block_type");
    }
    if !NonEmpty(blockTypeId) {
      return None;
    }

    var parameters, _ := MergeRawParameters(MapAt(block, "parameters"), MapAt(block, "raw_parameters"));

    var instanceName := TextAt(parameters, "name");
    if !NonEmpty(instanceName) && NonEmpty(studioNodeId) && "block" in block {
      instanceName := studioNodeId;
    }
    if !NonEmpty(instanceName) {
      var candidates := ["instance_name", "name"];
      var i := 0;
      while i < |candidates|
        invariant 0 <= i <= |candidates|
        invariant i > 0 ==> !NonEmpty(TextAt(block, "instance_name"))
        invariant i > 1 ==> !NonEmpty(TextAt(block, "name"))
        invariant !NonEmpty(instanceName)
      {
        if candidates[i] in block {
          instanceName := TextOf(block[candidates[i]]);
          if NonEmpty(instanceName) {
            break;
          }
        }
        i := i + 1;
      }
    }

    normalized := Some(NormalizedBlock(
      blockTypeId.value,
      if instanceName.Some? then instanceName.value else "",
      NormalizeStreamIntent(parameters)));
  }

  function StreamIdOf(block: NormalizedBlock): string {
    if NonEmpty(block.stream.streamId) then block.stream.streamId.value else block.instanceName
  }

  /** What the contract asks of one declared block, apart from the uniqueness of its stream id. */
  predicate WellFormed(block: NormalizedBlock) {
    && block.instanceName != ""
    && NonEmpty(block.stream.transport)
    && block.stream.transport.value in SUPPORTED_TRANSPORTS
    && NonEmpty(block.stream.payloadFormat)
  }

  /** The error one block earns after blocks with the ids in `seen` were accepted. */
  function BlockError(block: NormalizedBlock, seen: set<string>): (error: Option<ContractError>)
    ensures error.None? <==> WellFormed(block) && StreamIdOf(block) !in seen
    ensures error != Some(MissingStreamId)
  {
    if block.instanceName == "" then Some(MissingInstanceName)
    else if !NonEmpty(block.stream.transport) then Some(MissingTransport)
    else if block.stream.transport.value !in SUPPORTED_TRANSPORTS then Some(UnsupportedTransport)
    else if !NonEmpty(block.stream.payloadFormat) then Some(MissingPayloadFormat)
    else if StreamIdOf(block) in seen then Some(DuplicateStreamId)
    else None
  }

  predicate TransportSupported(transport: string) {
    transport == "http_snapshot" || transport == "http_poll" || transport == "websocket"
  }

  /** Which rule a block is blamed for: the first it breaks in this order. */
  lemma FirstBrokenRule(block: NormalizedBlock, seen: set<string>)
    ensures var error, stream := BlockError(block, seen), block.stream;
      var named, carried := block.instanceName != "", NonEmpty(stream.transport);
      var supported := carried && TransportSupported(stream.transport.value);
      var formatted := NonEmpty(stream.payloadFormat);
      && (error == Some(MissingInstanceName) <==> !named)
      && (error == Some(MissingTransport) <==> named && !carried)
      && (error == Some(UnsupportedTransport) <==> named && carried && !supported)
      && (error == Some(MissingPayloadFormat) <==> named && supported && !formatted)
      && (error == Some(DuplicateStreamId) <==> named && supported && formatted && StreamIdOf(block) in seen)
      && (error == None <==> named && supported && formatted && StreamIdOf(block) !in seen)
  {
  }

  /** `seen` plays the by-reference set of the source: it grows only when the block is accepted. */
  method ValidateStreamBlock(block: NormalizedBlock, seen: set<string>)
    returns (error: Option<ContractError>, seen': set<string>)
    ensures !block.stream.declared ==> error.None? && seen' == seen
    ensures block.stream.declared ==> error == BlockError(block, seen)
    ensures block.stream.declared ==> seen' == if error.None? then seen + {StreamIdOf(block)} else seen
  {
    seen' := seen;
    if !block.stream.declared {
      return None, seen';
    }
    if block.instanceName == "" {
      return Some(MissingInstanceName), seen';
    }
    var streamId := StreamIdOf(block);
    if streamId == "" {
      return Some(MissingStreamId), seen';
    }
    if !NonEmpty(block.stream.transport) {
      return Some(MissingTransport), seen';
    }
    if block.stream.transport.value !in SUPPORTED_TRANSPORTS {
      return Some(UnsupportedTransport), seen';
    }
    if !NonEmpty(block.stream.payloadFormat) {
      return Some(MissingPayloadFormat), seen';
    }
    if streamId in seen {
      return Some(DuplicateStreamId), seen';
    }
    return None, seen + {streamId};
  }

  /** Whether a list element is a block that declares a managed stream. */
  predicate Declares(value: Value) {
    && value.Map?
    && NormalizedStreamBlock(value.entries).Some?
    && NormalizedStreamBlock(value.entries).value.stream.declared
  }

  function DeclaredOf(value: Value): NormalizedBlock
    requires Declares(value)
  {
    NormalizedStreamBlock(value.entries).value
  }

  /** The blocks that declare a stream, in list order. */
  function DeclaredBlocks(blocks: seq<Value>): seq<NormalizedBlock> {
    if blocks == [] then []
    else
      var last := blocks[|blocks| - 1];
      DeclaredBlocks(blocks[..|blocks| - 1]) + if Declares(last) then [DeclaredOf(last)] else []
  }

  function StreamIds(declared: seq<NormalizedBlock>): set<string> {
    set i | 0 <= i < |declared| :: StreamIdOf(declared[i])
  }

  /** The stream contract, said without a running set: every block is well formed and all ids differ. */
  ghost predicate ContractHolds(declared: seq<NormalizedBlock>) {
    && (forall i :: 0 <= i < |declared| ==> WellFormed(declared[i]))
    && (forall i, j :: 0 <= i < j < |declared| ==> StreamIdOf(declared[i]) != StreamIdOf(declared[j]))
  }

  function PlanOf(sessionId: string, block: NormalizedBlock): StreamPlan
    requires WellFormed(block)
  {
    StreamPlan(
      StreamIdOf(block),
      block.instanceName,
      block.stream.transport.value,
      block.stream.payloadFormat.value,
      MakeStreamPath(sessionId, StreamIdOf(block), block.stream.transport.value),
      true)
  }

  ghost function PlansOf(sessionId: string, declared: seq<NormalizedBlock>): seq<StreamPlan>
    requires ContractHolds(declared)
  {
    seq(|declared|, i requires 0 <= i < |declared| => PlanOf(sessionId, declared[i]))
  }

  /** The blocks of a document that declare streams; none when it has no block list. */
  function DocumentStreams(grc: Document): seq<NormalizedBlock> {
    if grc.root.Some? && BlockList(grc.root.value).Some? then DeclaredBlocks(BlockList(grc.root.value).value) else []
  }

  /** The plan a session has: one entry per declared block when the contract holds, else none. */
  ghost function DerivedPlan(sessionId: string, grc: Document): Option<seq<StreamPlan>> {
    var declared := DocumentStreams(grc);
    if declared != [] && ContractHolds(declared) then Some(PlansOf(sessionId, declared)) else None
  }

  lemma AppendBlock(declared: seq<NormalizedBlock>, block: NormalizedBlock)
    requires ContractHolds(declared)
    ensures StreamIds(declared + [block]) == StreamIds(declared) + {StreamIdOf(block)}
    ensures ContractHolds(declared + [block]) <==> BlockError(block, StreamIds(declared)).None?
  {
    var longer := declared + [block];
    assert longer[|declared|] == block;
    assert forall i :: 0 <= i < |declared| ==> longer[i] == declared[i];
    if StreamIdOf(block) in StreamIds(declared) {
      var i :| 0 <= i < |declared| && StreamIdOf(declared[i]) == StreamIdOf(block);
      assert longer[i] == declared[i];
    }
    forall i | 0 <= i < |longer| ensures StreamIdOf(longer[i]) in StreamIds(declared) + {StreamIdOf(block)} {
      if i < |declared| {
        assert longer[i] == declared[i];
      }
    }
    forall id | id in StreamIds(declared) + {StreamIdOf(block)} ensures id in StreamIds(longer) {
      if id in StreamIds(declared) {
        var i :| 0 <= i < |declared| && StreamIdOf(declared[i]) == id;
        assert StreamIdOf(longer[i]) == id;
      } else {
        assert StreamIdOf(longer[|declared|]) == id;
      }
    }
  }

  lemma AppendPlan(sessionId: string, declared: seq<NormalizedBlock>, block: NormalizedBlock)
    requires ContractHolds(declared) && ContractHolds(declared + [block])
    ensures WellFormed(block)
    ensures PlansOf(sessionId, declared + [block]) == PlansOf(sessionId, declared) + [PlanOf(sessionId, block)]
  {
    assert (declared + [block])[|declared|] == block;
  }

  lemma {:induction false} DeclaredPrefix(blocks: seq<Value>, k: nat)
    requires k <= |blocks|
    ensures DeclaredBlocks(blocks[..k]) <= DeclaredBlocks(blocks)
    decreases |blocks|
  {
    if k < |blocks| {
      var front := blocks[..|blocks| - 1];
      assert front[..k] == blocks[..k];
      DeclaredPrefix(front, k);
    } else {
      assert blocks[..k] == blocks;
    }
  }

  lemma ContractOfPrefix(declared: seq<NormalizedBlock>, prefix: seq<NormalizedBlock>)
    requires prefix <= declared
    ensures ContractHolds(declared) ==> ContractHolds(prefix)
  {
  }

  method DeriveStreamRuntimePlan(sessionId: string, grc: Document) returns (plan: Option<seq<StreamPlan>>)
    ensures plan == DerivedPlan(sessionId, grc)
  {
    if grc.root.None? || BlockList(grc.root.value).None? {
      return None;
    }
    var blocks := BlockList(grc.root.value).value;
    var streams: seq<StreamPlan> := [];
    var seen: set<string> := {};
    ghost var declared: seq<NormalizedBlock> := [];
    var i := 0;
    while i < |blocks|
      invariant 0 <= i <= |blocks|
      invariant declared == DeclaredBlocks(blocks[..i])
      invariant ContractHolds(declared)
      invariant seen == StreamIds(declared)
      invariant streams == PlansOf(sessionId, declared)
    {
      assert blocks[..i + 1][..i] == blocks[..i];
      if blocks[i].Map? {
        var normalized := NormalizeStreamBlock(blocks[i].entries);
        if normalized.Some? && normalized.value.stream.declared {
          AppendBlock(declared, normalized.value);
          DeclaredPrefix(blocks, i + 1);
          ContractOfPrefix(DeclaredBlocks(blocks), declared + [normalized.value]);
          var error, seen' := ValidateStreamBlock(normalized.value, seen);
          if error.Some? {
            return None;
          }
          seen := seen';
          AppendPlan(sessionId, declared, normalized.value);
          streams := streams + [PlanOf(sessionId, normalized.value)];
          declared := declared + [normalized.value];
        }
      }
      i := i + 1;
    }
    assert blocks[..i] == blocks;
    plan := if streams == [] then None else Some(streams);
  }

  lemma NothingDeclared()
    ensures ContractHolds([]) && StreamIds([]) == {}
  {
  }

  /** The first error: the shortest prefix of declared blocks that breaks the contract ends in the block blamed. */
  method ValidateStreamRuntimeContract(grc: Document) returns (error: Option<ContractError>)
    ensures error.None? <==> ContractHolds(DocumentStreams(grc))
    ensures error.Some? ==> exists k ::
      && 0 <= k < |DocumentStreams(grc)|
      && ContractHolds(DocumentStreams(grc)[..k])
      && error == BlockError(DocumentStreams(grc)[k], StreamIds(DocumentStreams(grc)[..k]))
  {
    hide ContractHolds, StreamIds, NormalizedStreamBlock, BlockError;
    NothingDeclared();
    if grc.root.None? || BlockList(grc.root.value).None? {
      return None;
    }
    var blocks := BlockList(grc.root.value).value;
    var seen: set<string> := {};
    ghost var declared: seq<NormalizedBlock> := [];
    var i := 0;
    while i < |blocks|
      invariant 0 <= i <= |blocks|
      invariant declared == DeclaredBlocks(blocks[..i])
      invariant ContractHolds(declared)
      invariant seen == StreamIds(declared)
    {
      assert blocks[..i + 1][..i] == blocks[..i];
      if blocks[i].Map? {
        var normalized := NormalizeStreamBlock(blocks[i].entries);
        if normalized.Some? && normalized.value.stream.declared {
          AppendBlock(declared, normalized.value);
          DeclaredPrefix(blocks, i + 1);
          ContractOfPrefix(DeclaredBlocks(blocks), declared + [normalized.value]);
          error, seen := ValidateStreamBlock(normalized.value, seen);
          if error.Some? {
            assert DocumentStreams(grc)[..|declared|] == declared;
            assert DocumentStreams(grc)[|declared|] == normalized.value;
            return;
          }
          declared := declared + [normalized.value];
        }
      }
      i := i + 1;
    }
    assert blocks[..i] == blocks;
    error := None;
  }

  /** Plans carry distinct non-empty ids and supported transports, and keep the order of the declaring blocks. */
  lemma PlanProperties(sessionId: string, grc: Document)
    requires DerivedPlan(sessionId, grc).Some?
    ensures var plan, declared := DerivedPlan(sessionId, grc).value, DocumentStreams(grc);
      && |plan| == |declared| > 0
      && (forall i :: 0 <= i < |plan| ==>
            && plan[i].streamId != "" && plan[i].transport in SUPPORTED_TRANSPORTS && plan[i].ready
            && plan[i].blockInstanceName == declared[i].instanceName != ""
            && plan[i].path == MakeStreamPath(sessionId, plan[i].streamId, plan[i].transport))
      && (forall i, j :: 0 <= i < j < |plan| ==> plan[i].streamId != plan[j].streamId)
  {
    var plan, declared := DerivedPlan(sessionId, grc).value, DocumentStreams(grc);
    forall i | 0 <= i < |plan| ensures WellFormed(declared[i]) && plan[i] == PlanOf(sessionId, declared[i]) {
    }
  }
}
