/** The JSON payload in which a reflected block crosses a pipe (src/catalog/gr4_block_catalog_provider.cpp). */
module ReflectionCodec {
  import opened Wrappers
  import opened JsonValues
  import opened Text
  import opened BlockCatalog

  datatype PayloadError = InvalidPayload

  type Members = map<string, Json>

  // --------------------------------------------------------------- writing

  function BoolJson(flag: Option<bool>): Option<Json> {
    if flag.Some? then Some(JBool(flag.value)) else None
  }

  /** One line of the writer: a key, and the value stored under it if there is one. */
  datatype Field = Field(key: string, value: Option<Json>)

  /** An object built field by field. */
  function Object(fields: seq<Field>): Members {
    if fields == [] then map[]
    else
      var earlier, last := Object(fields[..|fields| - 1]), fields[|fields| - 1];
      if last.value.Some? then earlier[last.key := last.value.value] else earlier
  }

  predicate DistinctKeys(fields: seq<Field>) {
    forall i, j :: 0 <= i < j < |fields| ==> fields[i].key != fields[j].key
  }

  lemma {:induction false} ObjectKeys(fields: seq<Field>, key: string)
    requires forall i :: 0 <= i < |fields| ==> fields[i].key != key
    ensures key !in Object(fields)
  {
    if fields != [] {
      ObjectKeys(fields[..|fields| - 1], key);
    }
  }

  /** Under distinct keys an object holds exactly what its fields say. */
  lemma {:induction false} FieldOf(fields: seq<Field>, i: nat)
    requires DistinctKeys(fields) && i < |fields|
    ensures Member(JObject(Object(fields)), fields[i].key) == fields[i].value
  {
    var front := fields[..|fields| - 1];
    if i < |front| {
      assert front[i] == fields[i];
      FieldOf(front, i);
    } else {
      ObjectKeys(front, fields[i].key);
    }
  }

  function TextJson(text: Option<string>): Option<Json> {
    if text.Some? then Some(JText(text.value)) else None
  }

  function IntJson(number: Option<Int32>): Option<Json> {
    if number.Some? then Some(JInt(number.value)) else None
  }

  function CardinalityText(kind: CardinalityKind): string {
    match kind
    case Fixed => "fixed"
    case Dynamic => "dynamic"
  }

  function DefaultJson(value: ParameterDefault): Json {
    match value
    case NullDefault => JNull
    case BoolDefault(flag) => JBool(flag)
    case IntDefault(number) => JInt(number)
    case FloatDefault(amount) => JFloat(amount)
    case TextDefault(text) => JText(text)
  }

  function PortFields(port: PortDescriptor): seq<Field> {
    [ Field("name", Some(JText(port.name))),
      Field("type", Some(JText(port.typeName))),
      Field("cardinality_kind", Some(JText(CardinalityText(port.cardinalityKind)))),
      Field("current_port_count", IntJson(port.currentPortCount)),
      Field("render_port_count", IntJson(port.renderPortCount)),
      Field("min_port_count", IntJson(port.minPortCount)),
      Field("max_port_count", IntJson(port.maxPortCount)),
      Field("size_parameter", TextJson(port.sizeParameter)),
      Field("handle_name_template", TextJson(port.handleNameTemplate))]
  }

  function PortJson(port: PortDescriptor): Json {
    JObject(Object(PortFields(port)))
  }

  function TextsJson(texts: seq<string>): Json {
    JArray(seq(|texts|, i requires 0 <= i < |texts| => JText(texts[i])))
  }

  function LabelsJson(labels: map<string, string>): Json {
    JObject(map key | key in labels :: JText(labels[key]))
  }

  function ChoicesField(choices: Option<seq<string>>): Field {
    Field("enum_choices", if choices.Some? then Some(TextsJson(choices.value)) else None)
  }

  function LabelsField(labels: map<string, string>): Field {
    Field("enum_labels", if labels != map[] then Some(LabelsJson(labels)) else None)
  }

  function ParameterFields(parameter: ParameterDescriptor): seq<Field> {
    [ Field("name", Some(JText(parameter.name))),
      Field("type", Some(JText(parameter.typeName))),
      Field("required", Some(JBool(parameter.required))),
      Field("default_value", Some(DefaultJson(parameter.defaultValue))),
      Field("summary", Some(JText(parameter.summary))),
      Field("runtime_mutability", TextJson(parameter.runtimeMutability)),
      Field("value_kind", TextJson(parameter.valueKind)),
      ChoicesField(parameter.enumChoices),
      Field("enum_type", TextJson(parameter.enumType)),
      LabelsField(parameter.enumLabels),
      Field("enum_source", TextJson(parameter.enumSource)),
      Field("ui_hint", TextJson(parameter.uiHint)),
      Field("allow_custom_value", BoolJson(parameter.allowCustomValue))]
  }

  function ParameterJson(parameter: ParameterDescriptor): Json {
    JObject(Object(ParameterFields(parameter)))
  }

  function PortsJson(ports: seq<PortDescriptor>): Json {
    JArray(seq(|ports|, i requires 0 <= i < |ports| => PortJson(ports[i])))
  }

  function ParametersJson(parameters: seq<ParameterDescriptor>): Json {
    JArray(seq(|parameters|, i requires 0 <= i < |parameters| => ParameterJson(parameters[i])))
  }

  function BlockFields(block: BlockDescriptor): seq<Field> {
    [ Field("id", Some(JText(block.id))),
      Field("name", Some(JText(block.name))),
      Field("category", Some(JText(block.category))),
      Field("summary", Some(JText(block.summary))),
      Field("inputs", Some(PortsJson(block.inputs))),
      Field("outputs", Some(PortsJson(block.outputs))),
      Field("parameters", Some(ParametersJson(block.parameters))),
      Field("canonical_type", TextJson(block.canonicalType))]
  }

  function BlockJson(block: BlockDescriptor): Json {
    JObject(Object(BlockFields(block)))
  }

  method PortsToJson(ports: seq<PortDescriptor>) returns (elements: seq<Json>)
    ensures JArray(elements) == PortsJson(ports)
  {
    elements := [];
    for i := 0 to |ports|
      invariant |elements| == i
      invariant forall j :: 0 <= j < i ==> elements[j] == PortJson(ports[j])
    {
      elements := elements + [PortJson(ports[i])];
    }
  }

  method BlockToJson(block: BlockDescriptor) returns (json: Json)
    ensures json == BlockJson(block)
  {
    var inputs := PortsToJson(block.inputs);
    var outputs := PortsToJson(block.outputs);
    var parameters: seq<Json> := [];
    for i := 0 to |block.parameters|
      invariant |parameters| == i
      invariant forall j :: 0 <= j < i ==> parameters[j] == ParameterJson(block.parameters[j])
    {
      parameters := parameters + [ParameterJson(block.parameters[i])];
    }
    assert JArray(parameters) == ParametersJson(block.parameters);
    json := JObject(Object([
      Field("id", Some(JText(block.id))),
      Field("name", Some(JText(block.name))),
      Field("category", Some(JText(block.category))),
      Field("summary", Some(JText(block.summary))),
      Field("inputs", Some(JArray(inputs))),
      Field("outputs", Some(JArray(outputs))),
      Field("parameters", Some(JArray(parameters))),
      Field("canonical_type", TextJson(block.canonicalType))]));
  }

  // --------------------------------------------------------------- reading

  function Member(json: Json, key: string): Option<Json> {
    if json.JObject? && key in json.members then Some(json.members[key]) else None
  }

  function TextMember(json: Json, key: string): Option<string> {
    match Member(json, key)
    case Some(JText(text)) => Some(text)
    case _ => None
  }

  function BoolMember(json: Json, key: string): Option<bool> {
    match Member(json, key)
    case Some(JBool(flag)) => Some(flag)
    case _ => None
  }

  /** A cast to `int`: the low 32 bits, read as signed. */
  function ToInt32(number: int): Int32 {
    var low := number % 0x1_0000_0000;
    if low < 0x8000_0000 then low else low - 0x1_0000_0000
  }

  /** Signed and unsigned numbers both count as integers. */
  function IntMember(json: Json, key: string): Option<Int32> {
    match Member(json, key)
    case Some(JInt(number)) => Some(ToInt32(number))
    case Some(JUnsigned(magnitude)) => Some(ToInt32(magnitude))
    case _ => None
  }

  function ParseDefault(json: Json): Result<ParameterDefault, PayloadError> {
    match json
    case JNull => Ok(NullDefault)
    case JBool(flag) => Ok(BoolDefault(flag))
    case JInt(number) => Ok(IntDefault(ToInt32(number)))
    case JUnsigned(magnitude) => Ok(IntDefault(ToInt32(magnitude)))
    case JFloat(amount) => Ok(FloatDefault(amount))
    case JText(text) => Ok(TextDefault(text))
    case _ => Err(InvalidPayload)
  }

  function ParsePort(json: Json): Result<PortDescriptor, PayloadError> {
    if TextMember(json, "name").None? || TextMember(json, "type").None? then Err(InvalidPayload)
    else Ok(PortDescriptor(
      TextMember(json, "name").value,
      TextMember(json, "type").value,
      if TextMember(json, "cardinality_kind") == Some("dynamic") then Dynamic else Fixed,
      IntMember(json, "current_port_count"),
      IntMember(json, "render_port_count"),
      IntMember(json, "min_port_count"),
      IntMember(json, "max_port_count"),
      TextMember(json, "size_parameter"),
      TextMember(json, "handle_name_template")))
  }

  predicate AllTexts(elements: seq<Json>) {
    forall i :: 0 <= i < |elements| ==> elements[i].JText?
  }

  /** An array member must hold strings only; a member of another kind is ignored. */
  function ParseChoices(json: Json): Result<Option<seq<string>>, PayloadError> {
    match Member(json, "enum_choices")
    case Some(JArray(elements)) =>
      if AllTexts(elements) then Ok(Some(seq(|elements|, i requires 0 <= i < |elements| => elements[i].text)))
      else Err(InvalidPayload)
    case _ => Ok(None)
  }

  function ParseLabels(json: Json): Result<map<string, string>, PayloadError> {
    match Member(json, "enum_labels")
    case Some(JObject(members)) =>
      if forall key :: key in members ==> members[key].JText? then Ok(map key | key in members :: members[key].text)
      else Err(InvalidPayload)
    case _ => Ok(map[])
  }

  function ParseParameter(json: Json): Result<ParameterDescriptor, PayloadError> {
    if || TextMember(json, "name").None? || TextMember(json, "type").None? || BoolMember(json, "required").None?
       || Member(json, "default_value").None? || ParseDefault(Member(json, "default_value").value).Err?
       || TextMember(json, "summary").None? || ParseChoices(json).Err? || ParseLabels(json).Err?
    then Err(InvalidPayload)
    else Ok(ParameterDescriptor(
      TextMember(json, "name").value,
      TextMember(json, "type").value,
      BoolMember(json, "required").value,
      ParseDefault(Member(json, "default_value").value).value,
      TextMember(json, "summary").value,
      TextMember(json, "runtime_mutability"),
      TextMember(json, "value_kind"),
      ParseChoices(json).value,
      TextMember(json, "enum_type"),
      ParseLabels(json).value,
      TextMember(json, "enum_source"),
      TextMember(json, "ui_hint"),
      BoolMember(json, "allow_custom_value")))
  }

  /** What a range-for over a list member visits: of an object, its values in key order; a plain value visits itself. */
  function Elements(json: Json, key: string): Result<seq<Json>, PayloadError> {
    match Member(json, key)
    case None => Err(InvalidPayload)
    case Some(JArray(elements)) => Ok(elements)
    case Some(JNull) => Ok([])
    case Some(JObject(members)) =>
      var keys := Ascending(members.Keys);
      Ok(seq(|keys|, i requires 0 <= i < |keys| => members[keys[i]]))
    case Some(other) => Ok([other])
  }

  function ParsePorts(elements: seq<Json>): Result<seq<PortDescriptor>, PayloadError> {
    if exists i :: 0 <= i < |elements| && ParsePort(elements[i]).Err? then Err(InvalidPayload)
    else Ok(seq(|elements|, i requires 0 <= i < |elements| => ParsePort(elements[i]).value))
  }

  function ParseParameters(elements: seq<Json>): Result<seq<ParameterDescriptor>, PayloadError> {
    if exists i :: 0 <= i < |elements| && ParseParameter(elements[i]).Err? then Err(InvalidPayload)
    else Ok(seq(|elements|, i requires 0 <= i < |elements| => ParseParameter(elements[i]).value))
  }

  function PortsMember(json: Json, key: string): Result<seq<PortDescriptor>, PayloadError> {
    if Elements(json, key).Ok? then ParsePorts(Elements(json, key).value) else Err(InvalidPayload)
  }

  function ParametersMember(json: Json, key: string): Result<seq<ParameterDescriptor>, PayloadError> {
    if Elements(json, key).Ok? then ParseParameters(Elements(json, key).value) else Err(InvalidPayload)
  }

  function ParsedBlock(json: Json): Result<BlockDescriptor, PayloadError> {
    if || TextMember(json, "id").None? || TextMember(json, "name").None? || TextMember(json, "category").None?
       || TextMember(json, "summary").None? || PortsMember(json, "inputs").Err? || PortsMember(json, "outputs").Err?
       || ParametersMember(json, "parameters").Err?
    then Err(InvalidPayload)
    else Ok(BlockDescriptor(
      TextMember(json, "id").value,
      if TextMember(json, "canonical_type") == Some("") then None else TextMember(json, "canonical_type"),
      TextMember(json, "name").value,
      TextMember(json, "category").value,
      TextMember(json, "summary").value,
      PortsMember(json, "inputs").value,
      PortsMember(json, "outputs").value,
      ParametersMember(json, "parameters").value))
  }

  method ParsePortList(json: Json, key: string) returns (result: Result<seq<PortDescriptor>, PayloadError>)
    ensures result == PortsMember(json, key)
  {
    var elements := Elements(json, key);
    if elements.Err? {
      return Err(InvalidPayload);
    }
    var ports: seq<PortDescriptor> := [];
    for i := 0 to |elements.value|
      invariant |ports| == i
      invariant forall j :: 0 <= j < i ==> ParsePort(elements.value[j]) == Ok(ports[j])
    {
      var port := ParsePort(elements.value[i]);
      if port.Err? {
        return Err(InvalidPayload);
      }
      ports := ports + [port.value];
    }
    assert forall j :: 0 <= j < |elements.value| ==> ParsePort(elements.value[j]).Ok?;
    assert ParsePorts(elements.value).value == ports;
    return Ok(ports);
  }

  method ParseParameterList(json: Json, key: string) returns (result: Result<seq<ParameterDescriptor>, PayloadError>)
    ensures result == ParametersMember(json, key)
  {
    var elements := Elements(json, key);
    if elements.Err? {
      return Err(InvalidPayload);
    }
    var parameters: seq<ParameterDescriptor> := [];
    for i := 0 to |elements.value|
      invariant |parameters| == i
      invariant forall j :: 0 <= j < i ==> ParseParameter(elements.value[j]) == Ok(parameters[j])
    {
      var parameter := ParseParameter(elements.value[i]);
      if parameter.Err? {
        return Err(InvalidPayload);
      }
      parameters := parameters + [parameter.value];
    }
    assert forall j :: 0 <= j < |elements.value| ==> ParseParameter(elements.value[j]).Ok?;
    assert ParseParameters(elements.value).value == parameters;
    return Ok(parameters);
  }

  method ParseBlock(json: Json) returns (result: Result<BlockDescriptor, PayloadError>)
    ensures result == ParsedBlock(json)
  {
    if TextMember(json, "id").None? {
      return Err(InvalidPayload);
    }
    var canonicalType := TextMember(json, "canonical_type");
    if canonicalType == Some("") {
      canonicalType := None;
    }
    if TextMember(json, "name").None? || TextMember(json, "category").None? || TextMember(json, "summary").None? {
      return Err(InvalidPayload);
    }
    var inputs := ParsePortList(json, "inputs");
    if inputs.Err? {
      return Err(InvalidPayload);
    }
    var outputs := ParsePortList(json, "outputs");
    if outputs.Err? {
      return Err(InvalidPayload);
    }
    var parameters := ParseParameterList(json, "parameters");
    if parameters.Err? {
      return Err(InvalidPayload);
    }
    return Ok(BlockDescriptor(
      TextMember(json, "id").value,
      canonicalType,
      TextMember(json, "name").value,
      TextMember(json, "category").value,
      TextMember(json, "summary").value,
      inputs.value,
      outputs.value,
      parameters.value));
  }

  // ------------------------------------------------------------ round trip

  /** What writing a payload as text and reading it again does: non-negative integers come back unsigned. */
  function Reread(json: Json): Json
    decreases json
  {
    match json
    case JInt(number) => if number >= 0 then JUnsigned(number) else json
    case JArray(elements) => JArray(seq(|elements|, i requires 0 <= i < |elements| => Reread(elements[i])))
    case JObject(members) => JObject(map key | key in members :: Reread(members[key]))
    case _ => json
  }

  lemma RereadMembers(json: Json, key: string)
    ensures TextMember(Reread(json), key) == TextMember(json, key)
    ensures BoolMember(Reread(json), key) == BoolMember(json, key)
    ensures IntMember(Reread(json), key) == IntMember(json, key)
    ensures Member(Reread(json), key).None? <==> Member(json, key).None?
    ensures Member(json, key).Some? ==> Member(Reread(json), key).value == Reread(Member(json, key).value)
  {
  }

  /** The key lists of the three writers have no repeats. */
  lemma KeysAreDistinct()
    ensures forall port :: DistinctKeys(PortFields(port))
    ensures forall parameter :: DistinctKeys(ParameterFields(parameter))
    ensures forall block :: DistinctKeys(BlockFields(block))
  {
  }

  /** The object reads, after a trip through text, as its fields say. */
  ghost predicate Carries(json: Json, fields: seq<Field>) {
    forall i {:trigger CarriesField(json, fields[i])} :: 0 <= i < |fields| ==> CarriesField(json, fields[i])
  }

  predicate CarriesField(json: Json, field: Field) {
    Member(json, field.key) == if field.value.Some? then Some(Reread(field.value.value)) else None
  }

  lemma WrittenObjectCarries(fields: seq<Field>)
    requires DistinctKeys(fields)
    ensures Carries(Reread(JObject(Object(fields))), fields)
  {
    forall i | 0 <= i < |fields| ensures CarriesField(Reread(JObject(Object(fields))), fields[i]) {
      FieldOf(fields, i);
      RereadMembers(JObject(Object(fields)), fields[i].key);
    }
  }

  lemma MemberRead(json: Json, fields: seq<Field>, i: nat)
    requires Carries(json, fields) && i < |fields|
    ensures CarriesField(json, fields[i])
  {
  }

  lemma TextRead(json: Json, fields: seq<Field>, i: nat, text: Option<string>)
    requires Carries(json, fields) && i < |fields| && fields[i].value == TextJson(text)
    ensures TextMember(json, fields[i].key) == text
  {
    MemberRead(json, fields, i);
  }

  lemma IntRead(json: Json, fields: seq<Field>, i: nat, number: Option<Int32>)
    requires Carries(json, fields) && i < |fields| && fields[i].value == IntJson(number)
    ensures IntMember(json, fields[i].key) == number
  {
    MemberRead(json, fields, i);
  }

  lemma BoolRead(json: Json, fields: seq<Field>, i: nat, flag: Option<bool>)
    requires Carries(json, fields) && i < |fields| && fields[i].value == BoolJson(flag)
    ensures BoolMember(json, fields[i].key) == flag
  {
    MemberRead(json, fields, i);
  }

  lemma PortReads(json: Json, port: PortDescriptor)
    requires Carries(json, PortFields(port))
    ensures ParsePort(json) == Ok(port)
  {
    var fields := PortFields(port);
    TextRead(json, fields, 0, Some(port.name));
    TextRead(json, fields, 1, Some(port.typeName));
    TextRead(json, fields, 2, Some(CardinalityText(port.cardinalityKind)));
    IntRead(json, fields, 3, port.currentPortCount);
    IntRead(json, fields, 4, port.renderPortCount);
    IntRead(json, fields, 5, port.minPortCount);
    IntRead(json, fields, 6, port.maxPortCount);
    TextRead(json, fields, 7, port.sizeParameter);
    TextRead(json, fields, 8, port.handleNameTemplate);
  }

  lemma PortSurvives(port: PortDescriptor)
    ensures ParsePort(Reread(PortJson(port))) == Ok(port)
  {
    KeysAreDistinct();
    WrittenObjectCarries(PortFields(port));
    PortReads(Reread(PortJson(port)), port);
  }

  lemma TextsReread(texts: seq<string>)
    ensures Reread(TextsJson(texts)) == TextsJson(texts)
  {
    var json := TextsJson(texts);
    forall i | 0 <= i < |texts| ensures Reread(json.elements[i]) == json.elements[i] {
    }
    assert Reread(json).elements == json.elements;
  }

  lemma LabelsReread(labels: map<string, string>)
    ensures Reread(LabelsJson(labels)) == LabelsJson(labels)
  {
    var json := LabelsJson(labels);
    forall key | key in labels ensures Reread(json.members[key]) == json.members[key] {
    }
    assert Reread(json).members == json.members;
  }

  lemma ChoicesRead(json: Json, fields: seq<Field>, i: nat, choices: Option<seq<string>>)
    requires Carries(json, fields) && i < |fields| && fields[i] == ChoicesField(choices)
    ensures ParseChoices(json) == Ok(choices)
  {
    MemberRead(json, fields, i);
    if choices.Some? {
      TextsReread(choices.value);
      assert ParseChoices(json).Ok? && ParseChoices(json).value.value == choices.value;
    }
  }

  lemma LabelsRead(json: Json, fields: seq<Field>, i: nat, labels: map<string, string>)
    requires Carries(json, fields) && i < |fields| && fields[i] == LabelsField(labels)
    ensures ParseLabels(json) == Ok(labels)
  {
    MemberRead(json, fields, i);
    if labels != map[] {
      LabelsReread(labels);
      assert ParseLabels(json).Ok? && ParseLabels(json).value == labels;
    }
  }

  lemma DefaultRead(json: Json, fields: seq<Field>, i: nat, value: ParameterDefault)
    requires Carries(json, fields) && i < |fields| && fields[i].value == Some(DefaultJson(value))
    ensures Member(json, fields[i].key).Some? && ParseDefault(Member(json, fields[i].key).value) == Ok(value)
  {
    MemberRead(json, fields, i);
  }

  lemma ParameterHeadReads(json: Json, parameter: ParameterDescriptor)
    requires Carries(json, ParameterFields(parameter))
    ensures TextMember(json, "name") == Some(parameter.name)
    ensures TextMember(json, "type") == Some(parameter.typeName)
    ensures BoolMember(json, "required") == Some(parameter.required)
    ensures Member(json, "default_value").Some?
    ensures ParseDefault(Member(json, "default_value").value) == Ok(parameter.defaultValue)
    ensures TextMember(json, "summary") == Some(parameter.summary)
  {
    var fields := ParameterFields(parameter);
    TextRead(json, fields, 0, Some(parameter.name));
    TextRead(json, fields, 1, Some(parameter.typeName));
    BoolRead(json, fields, 2, Some(parameter.required));
    DefaultRead(json, fields, 3, parameter.defaultValue);
    TextRead(json, fields, 4, Some(parameter.summary));
  }

  lemma ParameterKindReads(json: Json, parameter: ParameterDescriptor)
    requires Carries(json, ParameterFields(parameter))
    ensures TextMember(json, "runtime_mutability") == parameter.runtimeMutability
    ensures TextMember(json, "value_kind") == parameter.valueKind
    ensures ParseChoices(json) == Ok(parameter.enumChoices)
    ensures TextMember(json, "enum_type") == parameter.enumType
  {
    var fields := ParameterFields(parameter);
    TextRead(json, fields, 5, parameter.runtimeMutability);
    TextRead(json, fields, 6, parameter.valueKind);
    ChoicesRead(json, fields, 7, parameter.enumChoices);
    TextRead(json, fields, 8, parameter.enumType);
  }

  lemma ParameterTailReads(json: Json, parameter: ParameterDescriptor)
    requires Carries(json, ParameterFields(parameter))
    ensures ParseLabels(json) == Ok(parameter.enumLabels)
    ensures TextMember(json, "enum_source") == parameter.enumSource
    ensures TextMember(json, "ui_hint") == parameter.uiHint
    ensures BoolMember(json, "allow_custom_value") == parameter.allowCustomValue
  {
    var fields := ParameterFields(parameter);
    LabelsRead(json, fields, 9, parameter.enumLabels);
    TextRead(json, fields, 10, parameter.enumSource);
    TextRead(json, fields, 11, parameter.uiHint);
    BoolRead(json, fields, 12, parameter.allowCustomValue);
  }

  lemma ParameterReads(json: Json, parameter: ParameterDescriptor)
    requires Carries(json, ParameterFields(parameter))
    ensures ParseParameter(json) == Ok(parameter)
  {
    ParameterHeadReads(json, parameter);
    ParameterKindReads(json, parameter);
    ParameterTailReads(json, parameter);
  }

  lemma ParameterSurvives(parameter: ParameterDescriptor)
    ensures ParseParameter(Reread(ParameterJson(parameter))) == Ok(parameter)
  {
    KeysAreDistinct();
    WrittenObjectCarries(ParameterFields(parameter));
    ParameterReads(Reread(ParameterJson(parameter)), parameter);
  }

  lemma PortsSurvive(ports: seq<PortDescriptor>)
    ensures Reread(PortsJson(ports)).JArray?
    ensures ParsePorts(Reread(PortsJson(ports)).elements) == Ok(ports)
  {
    var elements := Reread(PortsJson(ports)).elements;
    forall i | 0 <= i < |ports| ensures ParsePort(elements[i]) == Ok(ports[i]) {
      PortSurvives(ports[i]);
    }
    assert ParsePorts(elements).Ok? && ParsePorts(elements).value == ports;
  }

  lemma ParametersSurvive(parameters: seq<ParameterDescriptor>)
    ensures Reread(ParametersJson(parameters)).JArray?
    ensures ParseParameters(Reread(ParametersJson(parameters)).elements) == Ok(parameters)
  {
    var elements := Reread(ParametersJson(parameters)).elements;
    forall i | 0 <= i < |parameters| ensures ParseParameter(elements[i]) == Ok(parameters[i]) {
      ParameterSurvives(parameters[i]);
    }
    assert ParseParameters(elements).Ok? && ParseParameters(elements).value == parameters;
  }

  lemma PortsRead(json: Json, fields: seq<Field>, i: nat, ports: seq<PortDescriptor>)
    requires Carries(json, fields) && i < |fields| && fields[i].value == Some(PortsJson(ports))
    ensures PortsMember(json, fields[i].key) == Ok(ports)
  {
    MemberRead(json, fields, i);
    PortsSurvive(ports);
  }

  lemma ParametersRead(json: Json, fields: seq<Field>, i: nat, parameters: seq<ParameterDescriptor>)
    requires Carries(json, fields) && i < |fields| && fields[i].value == Some(ParametersJson(parameters))
    ensures ParametersMember(json, fields[i].key) == Ok(parameters)
  {
    MemberRead(json, fields, i);
    ParametersSurvive(parameters);
  }

  lemma BlockReads(json: Json, block: BlockDescriptor)
    requires Carries(json, BlockFields(block))
    ensures ParsedBlock(json) == Ok(if block.canonicalType == Some("") then block.(canonicalType := None) else block)
  {
    var fields := BlockFields(block);
    TextRead(json, fields, 0, Some(block.id));
    TextRead(json, fields, 1, Some(block.name));
    TextRead(json, fields, 2, Some(block.category));
    TextRead(json, fields, 3, Some(block.summary));
    PortsRead(json, fields, 4, block.inputs);
    PortsRead(json, fields, 5, block.outputs);
    ParametersRead(json, fields, 6, block.parameters);
    TextRead(json, fields, 7, block.canonicalType);
  }

  /** A block survives the pipe exactly when its canonical type is not the empty string; that alone is lost. */
  lemma BlockSurvivesIff(block: BlockDescriptor)
    ensures ParsedBlock(Reread(BlockJson(block))) == Ok(block) <==> block.canonicalType != Some("")
    ensures block.canonicalType == Some("") ==>
      ParsedBlock(Reread(BlockJson(block))) == Ok(block.(canonicalType := None))
  {
    KeysAreDistinct();
    WrittenObjectCarries(BlockFields(block));
    BlockReads(Reread(BlockJson(block)), block);
  }

  // ---------------------------------------------------------- the wire format

  lemma FieldsOf(fields: seq<Field>)
    requires DistinctKeys(fields)
    ensures forall i :: 0 <= i < |fields| ==> Member(JObject(Object(fields)), fields[i].key) == fields[i].value
  {
    forall i | 0 <= i < |fields| ensures Member(JObject(Object(fields)), fields[i].key) == fields[i].value {
      FieldOf(fields, i);
    }
  }

  /** Under which key each datum of a block is written. */
  lemma BlockKeys(block: BlockDescriptor)
    ensures var json := BlockJson(block);
      && Member(json, "id") == Some(JText(block.id)) && Member(json, "name") == Some(JText(block.name))
      && Member(json, "category") == Some(JText(block.category))
      && Member(json, "summary") == Some(JText(block.summary))
      && Member(json, "inputs") == Some(PortsJson(block.inputs))
      && Member(json, "outputs") == Some(PortsJson(block.outputs))
      && Member(json, "parameters") == Some(ParametersJson(block.parameters))
      && Member(json, "canonical_type") == TextJson(block.canonicalType)
  {
    hide Object;
    var fields := BlockFields(block);
    KeysAreDistinct();
    FieldsOf(fields);
    assert fields[0].key == "id" && fields[1].key == "name" && fields[2].key == "category";
    assert fields[3].key == "summary" && fields[4].key == "inputs" && fields[5].key == "outputs";
    assert fields[6].key == "parameters" && fields[7].key == "canonical_type";
  }

  /** Under which key each datum of a port is written. */
  lemma PortKeys(port: PortDescriptor)
    ensures var json := PortJson(port);
      && Member(json, "name") == Some(JText(port.name)) && Member(json, "type") == Some(JText(port.typeName))
      && Member(json, "cardinality_kind") == Some(JText(if port.cardinalityKind.Dynamic? then "dynamic" else "fixed"))
      && Member(json, "current_port_count") == IntJson(port.currentPortCount)
      && Member(json, "render_port_count") == IntJson(port.renderPortCount)
      && Member(json, "min_port_count") == IntJson(port.minPortCount)
      && Member(json, "max_port_count") == IntJson(port.maxPortCount)
      && Member(json, "size_parameter") == TextJson(port.sizeParameter)
      && Member(json, "handle_name_template") == TextJson(port.handleNameTemplate)
  {
    hide Object;
    var fields := PortFields(port);
    KeysAreDistinct();
    FieldsOf(fields);
    assert fields[0].key == "name" && fields[1].key == "type" && fields[2].key == "cardinality_kind";
    assert fields[3].key == "current_port_count" && fields[4].key == "render_port_count";
    assert fields[5].key == "min_port_count" && fields[6].key == "max_port_count";
    assert fields[7].key == "size_parameter" && fields[8].key == "handle_name_template";
  }

  /** Under which key each datum of a parameter is written. */
  lemma ParameterKeys(parameter: ParameterDescriptor)
    ensures var json := ParameterJson(parameter);
      && Member(json, "name") == Some(JText(parameter.name))
      && Member(json, "type") == Some(JText(parameter.typeName))
      && Member(json, "required") == Some(JBool(parameter.required))
      && Member(json, "default_value") == Some(DefaultJson(parameter.defaultValue))
      && Member(json, "summary") == Some(JText(parameter.summary))
      && Member(json, "runtime_mutability") == TextJson(parameter.runtimeMutability)
      && Member(json, "value_kind") == TextJson(parameter.valueKind)
      && (parameter.enumChoices.None? <==> Member(json, "enum_choices").None?)
      && (parameter.enumChoices.Some? ==> Member(json, "enum_choices") == Some(TextsJson(parameter.enumChoices.value)))
      && Member(json, "enum_type") == TextJson(parameter.enumType)
      && (parameter.enumLabels == map[] <==> Member(json, "enum_labels").None?)
      && (parameter.enumLabels != map[] ==> Member(json, "enum_labels") == Some(LabelsJson(parameter.enumLabels)))
      && Member(json, "enum_source") == TextJson(parameter.enumSource)
      && Member(json, "ui_hint") == TextJson(parameter.uiHint)
      && Member(json, "allow_custom_value") == BoolJson(parameter.allowCustomValue)
  {
    hide Object;
    var fields := ParameterFields(parameter);
    KeysAreDistinct();
    FieldsOf(fields);
    assert fields[0].key == "name" && fields[1].key == "type" && fields[2].key == "required";
    assert fields[3].key == "default_value" && fields[4].key == "summary";
    assert fields[5].key == "runtime_mutability" && fields[6].key == "value_kind";
    assert fields[7].key == "enum_choices" && fields[8].key == "enum_type" && fields[9].key == "enum_labels";
    assert fields[10].key == "enum_source" && fields[11].key == "ui_hint" && fields[12].key == "allow_custom_value";
  }

  /** A port is read exactly if it has a text for its name and one for its type; whatever else is there. */
  lemma PortReadIff(json: Json)
    ensures ParsePort(json).Ok? <==>
      && Member(json, "name").Some? && Member(json, "name").value.JText?
      && Member(json, "type").Some? && Member(json, "type").value.JText?
  {
  }

  /** An optional text: the one under the key, and none if there is no text there. */
  predicate ReadsText(json: Json, key: string, text: Option<string>) {
    match Member(json, key)
    case Some(JText(found)) => text == Some(found)
    case _ => text == None
  }

  /** An optional integer: the one under the key, cut to 32 bits, and none if there is no integer there. */
  predicate ReadsInt(json: Json, key: string, number: Option<Int32>) {
    match Member(json, key)
    case Some(JInt(found)) => number.Some? && (number.value - found) % 0x1_0000_0000 == 0
    case Some(JUnsigned(found)) => number.Some? && (number.value - found) % 0x1_0000_0000 == 0
    case _ => number == None
  }

  /** Integers are cut to 32 bits. */
  lemma CutTo32Bits(number: int)
    ensures (ToInt32(number) - number) % 0x1_0000_0000 == 0
  {
  }

  lemma IntIsRead(json: Json, key: string)
    ensures ReadsInt(json, key, IntMember(json, key))
  {
    hide ToInt32;
    match Member(json, key)
    case Some(JInt(found)) => CutTo32Bits(found);
    case Some(JUnsigned(found)) => CutTo32Bits(found);
    case _ =>
  }

  /** What each field of a port is read from; it is dynamic exactly if the text says so. */
  lemma PortFromMembers(json: Json)
    requires ParsePort(json).Ok?
    ensures var port := ParsePort(json).value;
      && ReadsText(json, "name", Some(port.name)) && ReadsText(json, "type", Some(port.typeName))
      && (port.cardinalityKind.Dynamic? <==> Member(json, "cardinality_kind") == Some(JText("dynamic")))
      && ReadsInt(json, "current_port_count", port.currentPortCount)
      && ReadsInt(json, "render_port_count", port.renderPortCount)
      && ReadsInt(json, "min_port_count", port.minPortCount)
      && ReadsInt(json, "max_port_count", port.maxPortCount)
      && ReadsText(json, "size_parameter", port.sizeParameter)
      && ReadsText(json, "handle_name_template", port.handleNameTemplate)
  {
    hide ReadsInt, IntMember;
    IntIsRead(json, "current_port_count");
    IntIsRead(json, "render_port_count");
    IntIsRead(json, "min_port_count");
    IntIsRead(json, "max_port_count");
  }

  /** What each field of a block is read from; its lists are read element by element. */
  lemma BlockFromMembers(json: Json)
    requires ParsedBlock(json).Ok?
    ensures var block := ParsedBlock(json).value;
      && ReadsText(json, "id", Some(block.id)) && ReadsText(json, "name", Some(block.name))
      && ReadsText(json, "category", Some(block.category)) && ReadsText(json, "summary", Some(block.summary))
      && (if Member(json, "canonical_type") == Some(JText("")) then block.canonicalType == None
          else ReadsText(json, "canonical_type", block.canonicalType))
      && ReadsPorts(json, "inputs", block.inputs) && ReadsPorts(json, "outputs", block.outputs)
      && (match Member(json, "parameters")
          case Some(JArray(elements)) =>
            && |block.parameters| == |elements|
            && forall i :: 0 <= i < |elements| ==> ParseParameter(elements[i]) == Ok(block.parameters[i])
          case _ => true)
  {
    hide ParsePort, ParseParameter;
  }

  ghost predicate ReadsPorts(json: Json, key: string, ports: seq<PortDescriptor>) {
    match Member(json, key)
    case Some(JArray(elements)) =>
      |ports| == |elements| && forall i :: 0 <= i < |elements| ==> ParsePort(elements[i]) == Ok(ports[i])
    case _ => true
  }

  /** What each plain field of a parameter is read from. */
  lemma ParameterFromMembers(json: Json)
    requires ParseParameter(json).Ok?
    ensures var parameter := ParseParameter(json).value;
      && ReadsText(json, "name", Some(parameter.name)) && ReadsText(json, "type", Some(parameter.typeName))
      && Member(json, "required") == Some(JBool(parameter.required))
      && ReadsText(json, "summary", Some(parameter.summary))
      && ReadsText(json, "runtime_mutability", parameter.runtimeMutability)
      && ReadsText(json, "value_kind", parameter.valueKind) && ReadsText(json, "enum_type", parameter.enumType)
      && ReadsText(json, "enum_source", parameter.enumSource) && ReadsText(json, "ui_hint", parameter.uiHint)
      && (match Member(json, "allow_custom_value")
          case Some(JBool(flag)) => parameter.allowCustomValue == Some(flag)
          case _ => parameter.allowCustomValue == None)
      && (match Member(json, "enum_choices")
          case Some(JArray(elements)) =>
            && parameter.enumChoices.Some? && |parameter.enumChoices.value| == |elements|
            && forall i :: 0 <= i < |elements| ==> elements[i] == JText(parameter.enumChoices.value[i])
          case _ => parameter.enumChoices == None)
      && (match Member(json, "enum_labels")
          case Some(JObject(members)) =>
            && parameter.enumLabels.Keys == members.Keys
            && forall key :: key in members ==> members[key] == JText(parameter.enumLabels[key])
          case _ => parameter.enumLabels == map[])
      && Member(json, "default_value").Some?
      && ReadsDefault(Member(json, "default_value").value, parameter.defaultValue)
  {
    hide ToInt32;
    DefaultIsRead(Member(json, "default_value").value);
  }

  /** A default is read as the same scalar, integers cut to 32 bits. */
  predicate ReadsDefault(json: Json, value: ParameterDefault) {
    match value
    case NullDefault => json == JNull
    case BoolDefault(flag) => json == JBool(flag)
    case IntDefault(number) =>
      || (json.JInt? && (number - json.number) % 0x1_0000_0000 == 0)
      || (json.JUnsigned? && (number - json.magnitude) % 0x1_0000_0000 == 0)
    case FloatDefault(amount) => json == JFloat(amount)
    case TextDefault(text) => json == JText(text)
  }

  lemma DefaultIsRead(json: Json)
    ensures ParseDefault(json).Ok? ==> ReadsDefault(json, ParseDefault(json).value)
  {
    hide ToInt32;
    match json
    case JInt(number) => CutTo32Bits(number);
    case JUnsigned(magnitude) => CutTo32Bits(magnitude);
    case _ =>
  }

  /** The texts a block cannot do without. */
  lemma BlockNeeds(json: Json, key: string)
    requires key == "id" || key == "name" || key == "category" || key == "summary"
    requires Member(json, key).None? || !Member(json, key).value.JText?
    ensures ParsedBlock(json) == Err(InvalidPayload)
  {
  }

  /** The lists it cannot do without, in which every element must be readable. */
  lemma BlockNeedsLists(json: Json, key: string)
    requires key == "inputs" || key == "outputs" || key == "parameters"
    requires Member(json, key).None? || (Member(json, key).value.JArray? &&
      exists i :: 0 <= i < |Member(json, key).value.elements| &&
        if key == "parameters" then ParseParameter(Member(json, key).value.elements[i]).Err?
        else ParsePort(Member(json, key).value.elements[i]).Err?)
    ensures ParsedBlock(json) == Err(InvalidPayload)
  {
  }
}
