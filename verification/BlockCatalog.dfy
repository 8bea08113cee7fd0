/** The block descriptors of the catalog (include/gr4cp/domain/block_catalog.hpp). */
module BlockCatalog {
  import opened Wrappers

  /** The C++ `int` of the descriptors. */
  type Int32 = n: int | -0x8000_0000 <= n < 0x8000_0000

  datatype ParameterDefault =
    | NullDefault
    | BoolDefault(flag: bool)
    | IntDefault(number: Int32)
    | FloatDefault(amount: real)
    | TextDefault(text: string)

  datatype CardinalityKind = Fixed | Dynamic

  datatype PortDescriptor = PortDescriptor(
    name: string,
    typeName: string,
    cardinalityKind: CardinalityKind,
    currentPortCount: Option<Int32>,
    renderPortCount: Option<Int32>,
    minPortCount: Option<Int32>,
    maxPortCount: Option<Int32>,
    sizeParameter: Option<string>,
    handleNameTemplate: Option<string>)

  datatype ParameterDescriptor = ParameterDescriptor(
    name: string,
    typeName: string,
    required: bool,
    defaultValue: ParameterDefault,
    summary: string,
    runtimeMutability: Option<string>,
    valueKind: Option<string>,
    enumChoices: Option<seq<string>>,
    enumType: Option<string>,
    enumLabels: map<string, string>,
    enumSource: Option<string>,
    uiHint: Option<string>,
    allowCustomValue: Option<bool>)

  datatype BlockDescriptor = BlockDescriptor(
    id: string,
    canonicalType: Option<string>,
    name: string,
    category: string,
    summary: string,
    inputs: seq<PortDescriptor>,
    outputs: seq<PortDescriptor>,
    parameters: seq<ParameterDescriptor>)
}
