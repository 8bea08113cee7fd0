/** Conversion of block settings between JSON and property maps (src/app/block_settings_service.cpp). */
module SettingsCodec {
  import opened Integers
  import opened Wrappers
  import opened PropertyValues
  import opened JsonValues

  datatype SettingsError = ValidationError | RuntimeError

  /** What `get<std::int64_t>()` makes of an unsigned number: the low 64 bits, read as signed. */
  function WrapToInt64(magnitude: UInt64): Int64 {
    if magnitude <= INT64_MAX then magnitude else magnitude - TWO_TO_64
  }

  /** How the JSON library holds an integer; one that fits in 64 signed bits is the same number either way. */
  function JsonOfInteger(number: Integer): Json {
    if number <= INT64_MAX then JInt(number) else JUnsigned(number)
  }

  function PmtOfJson(json: Json): Result<Value, SettingsError>
    decreases json
  {
    match json
    case JNull => Ok(Null)
    case JBool(flag) => Ok(Bool(flag))
    case JInt(number) => Ok(Int(number))
    case JUnsigned(magnitude) => Ok(Int(WrapToInt64(magnitude)))
    case JFloat(amount) => Ok(Float(amount))
    case JText(text) => Ok(Value.Text(text))
    case JArray(_) => Err(ValidationError)
    case JObject(members) =>
      if exists key :: key in members && PmtOfJson(members[key]).Err? then Err(ValidationError)
      else Ok(Map(map key | key in members :: PmtOfJson(members[key]).value))
  }

  function PropertyMapOfJson(json: Json): Result<PropertyMap, SettingsError> {
    if !json.JObject? then Err(ValidationError)
    else match PmtOfJson(json)
         case Ok(value) => Ok(value.entries)
         case Err(error) => Err(error)
  }

  function JsonOfPmt(value: Value): Result<Json, SettingsError>
    decreases value
  {
    match value
    case Null => Ok(JNull)
    case Bool(flag) => Ok(JBool(flag))
    case Int(number) => Ok(JsonOfInteger(number))
    case Float(amount) => Ok(JFloat(amount))
    case Text(text) => Ok(JText(text))
    case Complex(_, _) => Err(RuntimeError)
    case Tensor(_) => Err(RuntimeError)
    case Map(entries) =>
      if exists key :: key in entries && JsonOfPmt(entries[key]).Err? then Err(RuntimeError)
      else Ok(JObject(map key | key in entries :: JsonOfPmt(entries[key]).value))
  }

  function JsonOfPropertyMap(entries: PropertyMap): Result<Json, SettingsError> {
    JsonOfPmt(Map(entries))
  }

  method JsonToPropertyMap(json: Json) returns (result: Result<PropertyMap, SettingsError>)
    ensures result == PropertyMapOfJson(json)
    decreases json, 0
  {
    if !json.JObject? {
      return Err(ValidationError);
    }
    var converted: PropertyMap := map[];
    var pending := json.members.Keys;
    while pending != {}
      invariant pending <= json.members.Keys
      invariant converted.Keys == json.members.Keys - pending
      invariant forall key :: key in converted ==> PmtOfJson(json.members[key]) == Ok(converted[key])
    {
      var key :| key in pending;
      pending := pending - {key};
      var item := JsonToPmtValue(json.members[key]);
      if item.Err? {
        return Err(item.error);
      }
      converted := converted[key := item.value];
    }
    assert forall key :: key in json.members ==> PmtOfJson(json.members[key]) == Ok(converted[key]);
    assert PmtOfJson(json).Ok? && PmtOfJson(json).value.entries == converted;
    return Ok(converted);
  }

  method JsonToPmtValue(json: Json) returns (result: Result<Value, SettingsError>)
    ensures result == PmtOfJson(json)
    decreases json, 1
  {
    match json
    case JNull => result := Ok(Null);
    case JBool(flag) => result := Ok(Bool(flag));
    case JInt(number) => result := Ok(Int(number));
    case JUnsigned(magnitude) => result := Ok(Int(WrapToInt64(magnitude)));
    case JFloat(amount) => result := Ok(Float(amount));
    case JText(text) => result := Ok(Value.Text(text));
    case JArray(_) => result := Err(ValidationError);
    case JObject(members) =>
      var entries := JsonToPropertyMap(json);
      result := match entries
                case Ok(converted) => Ok(Map(converted))
                case Err(error) => Err(error);
  }

  method PropertyMapToJson(entries: PropertyMap) returns (result: Result<Json, SettingsError>)
    ensures result == JsonOfPropertyMap(entries)
    decreases Map(entries), 0
  {
    var converted: map<string, Json> := map[];
    var pending := entries.Keys;
    while pending != {}
      invariant pending <= entries.Keys
      invariant converted.Keys == entries.Keys - pending
      invariant forall key :: key in converted ==> JsonOfPmt(entries[key]) == Ok(converted[key])
    {
      var key :| key in pending;
      pending := pending - {key};
      var item := PmtValueToJson(entries[key]);
      if item.Err? {
        return Err(RuntimeError);
      }
      converted := converted[key := item.value];
    }
    assert forall key :: key in entries ==> JsonOfPmt(entries[key]) == Ok(converted[key]);
    assert JsonOfPmt(Map(entries)).Ok? && JsonOfPmt(Map(entries)).value.members == converted;
    return Ok(JObject(converted));
  }

  method PmtValueToJson(value: Value) returns (result: Result<Json, SettingsError>)
    ensures result == JsonOfPmt(value)
    decreases value, 1
  {
    match value
    case Null => result := Ok(JNull);
    case Bool(flag) => result := Ok(JBool(flag));
    case Int(number) => result := Ok(JsonOfInteger(number));
    case Float(amount) => result := Ok(JFloat(amount));
    case Text(text) => result := Ok(JText(text));
    case Map(entries) => result := PropertyMapToJson(entries);
    case Complex(_, _) => result := Err(RuntimeError);
    case Tensor(_) => result := Err(RuntimeError);
  }

  // ------------------------------------------------------------ properties

  /** The value reached by following member names, if every name exists. */
  function At(json: Json, path: seq<string>): Option<Json>
    decreases |path|
  {
    if path == [] then Some(json)
    else if json.JObject? && path[0] in json.members then At(json.members[path[0]], path[1..])
    else None
  }

  /** The value reached by following entry names, if every name exists. */
  function Inside(value: Value, path: seq<string>): Option<Value>
    decreases |path|
  {
    if path == [] then Some(value)
    else if value.Map? && path[0] in value.entries then Inside(value.entries[path[0]], path[1..])
    else None
  }

  /** An array occurs somewhere among the members, at any depth. */
  ghost predicate HasArray(json: Json) {
    exists path :: At(json, path).Some? && At(json, path).value.JArray?
  }

  predicate IsWide(json: Json) {
    json.JUnsigned? && json.magnitude > INT64_MAX
  }

  /** An unsigned number that does not fit in 64 signed bits occurs at some depth. */
  ghost predicate HasWideNumber(json: Json) {
    exists path :: At(json, path).Some? && IsWide(At(json, path).value)
  }

  /** The same JSON text, with each integer held as signed when it fits. */
  function Normal(json: Json): Json
    decreases json
  {
    match json
    case JUnsigned(magnitude) => JsonOfInteger(magnitude)
    case JObject(members) => JObject(map key | key in members :: Normal(members[key]))
    case _ => json
  }

  lemma AtMember(json: Json, key: string, path: seq<string>)
    requires json.JObject? && key in json.members
    ensures At(json, [key] + path) == At(json.members[key], path)
  {
    assert ([key] + path)[1..] == path;
  }

  lemma ArrayInMember(json: Json)
    requires json.JObject?
    ensures HasArray(json) <==> exists key :: key in json.members && HasArray(json.members[key])
  {
    if HasArray(json) {
      var path :| At(json, path).Some? && At(json, path).value.JArray?;
      assert path != [];
      assert At(json.members[path[0]], path[1..]) == At(json, path);
      assert HasArray(json.members[path[0]]);
    }
    if key :| key in json.members && HasArray(json.members[key]) {
      var path :| At(json.members[key], path).Some? && At(json.members[key], path).value.JArray?;
      AtMember(json, key, path);
    }
  }

  lemma WideInMember(json: Json)
    requires json.JObject?
    ensures HasWideNumber(json) <==> exists key :: key in json.members && HasWideNumber(json.members[key])
  {
    if HasWideNumber(json) {
      var path :| At(json, path).Some? && IsWide(At(json, path).value);
      assert path != [];
      assert At(json.members[path[0]], path[1..]) == At(json, path);
      assert HasWideNumber(json.members[path[0]]);
    }
    if key :| key in json.members && HasWideNumber(json.members[key]) {
      var path :| At(json.members[key], path).Some? && IsWide(At(json.members[key], path).value);
      AtMember(json, key, path);
    }
  }

  lemma OnlyPathOfLeaf(json: Json)
    requires !json.JObject?
    ensures forall path :: At(json, path).Some? ==> path == [] && At(json, path) == Some(json)
  {
  }

  lemma {:induction false} ConvertsIffNoArray(json: Json)
    ensures PmtOfJson(json).Ok? <==> !HasArray(json)
    decreases json
  {
    if json.JObject? {
      ArrayInMember(json);
      forall key | key in json.members ensures PmtOfJson(json.members[key]).Ok? <==> !HasArray(json.members[key]) {
        ConvertsIffNoArray(json.members[key]);
      }
    } else {
      OnlyPathOfLeaf(json);
      assert At(json, []) == Some(json);
    }
  }

  /** A settings body converts exactly when it is an object with no array at any depth. */
  lemma SettingsConvertIff(json: Json)
    ensures PropertyMapOfJson(json).Ok? <==> json.JObject? && !HasArray(json)
  {
    ConvertsIffNoArray(json);
  }

  lemma {:induction false} ValueRoundTripIff(json: Json)
    requires PmtOfJson(json).Ok?
    ensures JsonOfPmt(PmtOfJson(json).value).Ok?
    ensures JsonOfPmt(PmtOfJson(json).value) == Ok(Normal(json)) <==> !HasWideNumber(json)
    decreases json
  {
    if json.JObject? {
      WideInMember(json);
      var entries := PmtOfJson(json).value.entries;
      forall key | key in json.members
        ensures JsonOfPmt(entries[key]).Ok?
        ensures JsonOfPmt(entries[key]) == Ok(Normal(json.members[key])) <==> !HasWideNumber(json.members[key])
      {
        ValueRoundTripIff(json.members[key]);
      }
      var back := JsonOfPmt(Map(entries)).value.members;
      var signed := Normal(json).members;
      assert back.Keys == signed.Keys == json.members.Keys;
      if back == signed {
        forall key | key in json.members ensures !HasWideNumber(json.members[key]) {
          assert back[key] == signed[key];
        }
      }
    } else {
      OnlyPathOfLeaf(json);
      assert At(json, []) == Some(json);
    }
  }

  /** A body that is no object is refused as invalid, and so is one with an array anywhere in it. */
  lemma RefusedSettings(json: Json)
    ensures !json.JObject? || HasArray(json) ==> PropertyMapOfJson(json) == Err(ValidationError)
  {
    ConvertsIffNoArray(json);
    OneErrorOnly(json);
  }

  lemma OneErrorOnly(json: Json)
    ensures PmtOfJson(json).Err? ==> PmtOfJson(json) == Err(ValidationError)
  {
  }

  /** What one JSON value becomes, apart from the members of an object. */
  ghost predicate BecomesValue(json: Json, value: Value) {
    match json
    case JNull => value == Null
    case JBool(flag) => value == Bool(flag)
    case JInt(number) => value == Int(number)
    case JUnsigned(magnitude) =>
      value.Int? && INT64_MIN <= value.number <= INT64_MAX && (value.number - magnitude) % TWO_TO_64 == 0
    case JFloat(amount) => value == Float(amount)
    case JText(text) => value == Value.Text(text)
    case JArray(_) => false
    case JObject(members) => value.Map? && value.entries.Keys == members.Keys
  }

  /** Settings are converted in place: at every path of names stands what the value at that path becomes. */
  lemma {:induction false} ConvertedAtPath(json: Json, path: seq<string>)
    requires PmtOfJson(json).Ok?
    ensures var value := PmtOfJson(json).value;
      && (Inside(value, path).Some? <==> At(json, path).Some?)
      && (At(json, path).Some? ==> BecomesValue(At(json, path).value, Inside(value, path).value))
    decreases |path|
  {
    if path != [] && json.JObject? && path[0] in json.members {
      assert PmtOfJson(json).value.entries[path[0]] == PmtOfJson(json.members[path[0]]).value;
      ConvertedAtPath(json.members[path[0]], path[1..]);
    }
  }

  /**
   Converting settings to a property map and back gives the same settings
   exactly when no unsigned number exceeds the signed 64-bit range.
   */
  lemma SettingsRoundTripIff(json: Json)
    requires PropertyMapOfJson(json).Ok?
    ensures JsonOfPropertyMap(PropertyMapOfJson(json).value) == Ok(Normal(json)) <==> !HasWideNumber(json)
  {
    ValueRoundTripIff(json);
  }

  /** The range check on unsigned numbers comes too late: a wide number is accepted and changes sign. */
  lemma WideNumberIsAcceptedAndWraps()
    ensures var json := JObject(map["gain" := JUnsigned(INT64_MAX + 1)]);
      && PropertyMapOfJson(json).Ok?
      && JsonOfPropertyMap(PropertyMapOfJson(json).value) == Ok(JObject(map["gain" := JInt(INT64_MIN)]))
  {
    var json := JObject(map["gain" := JUnsigned(INT64_MAX + 1)]);
    assert json.members["gain"] == JUnsigned(INT64_MAX + 1);
    assert PmtOfJson(json.members["gain"]) == Ok(Int(INT64_MIN));
    var entries := PropertyMapOfJson(json).value;
    assert entries == map["gain" := Int(INT64_MIN)];
    assert JsonOfPmt(entries["gain"]) == Ok(JInt(INT64_MIN));
    assert JsonOfPmt(Map(entries)).value.members == map["gain" := JInt(INT64_MIN)];
  }

  predicate IsWideInteger(value: Value) {
    value.Int? && value.number > INT64_MAX
  }

  /** An integer that does not fit in 64 signed bits occurs at some depth. */
  ghost predicate HasWideInteger(value: Value) {
    exists path :: Inside(value, path).Some? && IsWideInteger(Inside(value, path).value)
  }

  lemma WideInEntry(value: Value)
    requires value.Map?
    ensures HasWideInteger(value) <==> exists key :: key in value.entries && HasWideInteger(value.entries[key])
  {
    if HasWideInteger(value) {
      var path :| Inside(value, path).Some? && IsWideInteger(Inside(value, path).value);
      assert path != [];
      assert Inside(value.entries[path[0]], path[1..]) == Inside(value, path);
      assert HasWideInteger(value.entries[path[0]]);
    }
    if key :| key in value.entries && HasWideInteger(value.entries[key]) {
      var path :| Inside(value.entries[key], path).Some? && IsWideInteger(Inside(value.entries[key], path).value);
      assert ([key] + path)[1..] == path;
      assert Inside(value, [key] + path) == Inside(value.entries[key], path);
    }
  }

  lemma OnlyPathOfPlainValue(value: Value)
    requires !value.Map?
    ensures HasWideInteger(value) <==> IsWideInteger(value)
  {
    assert Inside(value, []) == Some(value);
  }

  /**
   What the runtime reports is given back by the conversion from JSON exactly
   when no integer in it exceeds the signed 64-bit range: a wider one is
   reported as it is and then read back with its sign changed.
   */
  lemma {:induction false} ReportRoundTripIff(value: Value)
    requires JsonOfPmt(value).Ok?
    ensures PmtOfJson(JsonOfPmt(value).value).Ok?
    ensures PmtOfJson(JsonOfPmt(value).value) == Ok(value) <==> !HasWideInteger(value)
    decreases value
  {
    if value.Map? {
      WideInEntry(value);
      var members := JsonOfPmt(value).value.members;
      forall key | key in value.entries
        ensures PmtOfJson(members[key]).Ok?
        ensures PmtOfJson(members[key]) == Ok(value.entries[key]) <==> !HasWideInteger(value.entries[key])
      {
        ReportRoundTripIff(value.entries[key]);
      }
      var back := PmtOfJson(JObject(members)).value.entries;
      assert back.Keys == value.entries.Keys;
      if back == value.entries {
        forall key | key in value.entries ensures !HasWideInteger(value.entries[key]) {
          assert back[key] == value.entries[key];
        }
      }
    } else {
      OnlyPathOfPlainValue(value);
    }
  }

  /** The smallest unsigned setting that the signed range misses is read back as the most negative number. */
  lemma WideReportWraps()
    ensures JsonOfPmt(Int(INT64_MAX + 1)) == Ok(JUnsigned(INT64_MAX + 1))
    ensures PmtOfJson(JUnsigned(INT64_MAX + 1)) == Ok(Int(INT64_MIN))
    ensures HasWideInteger(Int(INT64_MAX + 1))
  {
    OnlyPathOfPlainValue(Int(INT64_MAX + 1));
  }

  predicate IsListOrComplex(value: Value) {
    value.Tensor? || value.Complex?
  }

  /** A list or a complex number occurs at some depth. */
  ghost predicate HasListOrComplex(value: Value) {
    exists path :: Inside(value, path).Some? && IsListOrComplex(Inside(value, path).value)
  }

  lemma ListOrComplexInEntry(value: Value)
    requires value.Map?
    ensures HasListOrComplex(value) <==> exists key :: key in value.entries && HasListOrComplex(value.entries[key])
  {
    if HasListOrComplex(value) {
      var path :| Inside(value, path).Some? && IsListOrComplex(Inside(value, path).value);
      assert path != [];
      assert Inside(value.entries[path[0]], path[1..]) == Inside(value, path);
      assert HasListOrComplex(value.entries[path[0]]);
    }
    if key :| key in value.entries && HasListOrComplex(value.entries[key]) {
      var path :| Inside(value.entries[key], path).Some? && IsListOrComplex(Inside(value.entries[key], path).value);
      assert ([key] + path)[1..] == path;
      assert Inside(value, [key] + path) == Inside(value.entries[key], path);
    }
  }

  /** What a runtime block reports converts exactly when it holds no list and no complex number at any depth. */
  lemma {:induction false} ReportConvertsIff(value: Value)
    ensures JsonOfPmt(value).Ok? <==> !HasListOrComplex(value)
    decreases value
  {
    if value.Map? {
      ListOrComplexInEntry(value);
      forall key | key in value.entries
        ensures JsonOfPmt(value.entries[key]).Ok? <==> !HasListOrComplex(value.entries[key])
      {
        ReportConvertsIff(value.entries[key]);
      }
    } else {
      assert Inside(value, []) == Some(value);
    }
  }

  /** What one runtime value is reported as, apart from the entries of a map. */
  ghost predicate BecomesJson(value: Value, json: Json) {
    match value
    case Null => json == JNull
    case Bool(flag) => json == JBool(flag)
    case Int(number) => if number <= INT64_MAX then json == JInt(number) else json == JUnsigned(number)
    case Float(amount) => json == JFloat(amount)
    case Text(text) => json == JText(text)
    case Map(entries) => json.JObject? && json.members.Keys == entries.Keys
    case Complex(_, _) => false
    case Tensor(_) => false
  }

  /** Reports are converted in place as well. */
  lemma {:induction false} ReportedAtPath(value: Value, path: seq<string>)
    requires JsonOfPmt(value).Ok?
    ensures var json := JsonOfPmt(value).value;
      && (At(json, path).Some? <==> Inside(value, path).Some?)
      && (Inside(value, path).Some? ==> BecomesJson(Inside(value, path).value, At(json, path).value))
    decreases |path|
  {
    if path != [] && value.Map? && path[0] in value.entries {
      assert JsonOfPmt(value).value.members[path[0]] == JsonOfPmt(value.entries[path[0]]).value;
      ReportedAtPath(value.entries[path[0]], path[1..]);
    }
  }

  /** A report that cannot be made is a runtime error. */
  lemma RefusedReport(entries: PropertyMap)
    ensures HasListOrComplex(Map(entries)) ==> JsonOfPropertyMap(entries) == Err(RuntimeError)
  {
    ReportConvertsIff(Map(entries));
  }

  /** One complex setting, though a scalar, makes the whole report of its block fail. */
  lemma ComplexSettingIsRefused(entries: PropertyMap, key: string, re: real, im: real)
    ensures JsonOfPropertyMap(entries[key := Complex(re, im)]) == Err(RuntimeError)
  {
    var reported := entries[key := Complex(re, im)];
    assert JsonOfPmt(reported[key]).Err?;
  }
}
