/** The value trees that GNU Radio property maps hold once YAML text has been parsed. */
module PropertyValues {
  import opened Integers
  import opened Wrappers

  type PropertyMap = map<string, Value>

  datatype Value =
    | Null
    | Bool(flag: bool)
    | Int(number: Integer)
    | Float(amount: real)
    | Complex(re: real, im: real)
    | Text(text: string)
    | Map(entries: map<string, Value>)
    | Tensor(items: seq<Value>)

  /** The string a value holds, if it holds one. */
  function TextOf(value: Value): Option<string> {
    if value.Text? then Some(value.text) else None
  }

  /** The string stored under a key; a missing key and a non-string value look alike. */
  function TextAt(entries: PropertyMap, key: string): Option<string> {
    if key in entries then TextOf(entries[key]) else None
  }

  /** The map stored under a key, or the empty map. */
  function MapAt(entries: PropertyMap, key: string): PropertyMap {
    if key in entries && entries[key].Map? then entries[key].entries else map[]
  }

  predicate NonEmpty(text: Option<string>) {
    text.Some? && text.value != ""
  }

  /**
   Submitted graph text together with what the YAML library reads from it; the
   root is absent when the text does not parse to a map.
   */
  datatype Document = Document(text: string, root: Option<PropertyMap>)

  /** The list under `blocks`, when the document has one. */
  function BlockList(root: PropertyMap): Option<seq<Value>> {
    if "blocks" in root && root["blocks"].Tensor? then Some(root["blocks"].items) else None
  }

  /** Both graph readers let `parameters` win over `raw_parameters`. */
  function MergedParameters(block: PropertyMap): PropertyMap {
    MapAt(block, "raw_parameters") + MapAt(block, "parameters")
  }

  /** The merge loop the two graph readers share: raw entries fill in missing parameters. */
  method MergeRawParameters(parameters: PropertyMap, raw: PropertyMap) returns (merged: PropertyMap, added: bool)
    ensures merged == raw + parameters
    ensures added <==> exists key :: key in raw && key !in parameters
  {
    merged, added := parameters, false;
    var pending := raw.Keys;
    while pending != {}
      invariant pending <= raw.Keys
      invariant merged == (map key | key in raw && key !in pending :: raw[key]) + parameters
      invariant added <==> exists key :: key in raw && key !in pending && key !in parameters
    {
      var key :| key in pending;
      pending := pending - {key};
      if key !in merged {
        merged, added := merged[key := raw[key]], true;
      }
    }
  }
}
