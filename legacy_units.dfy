/**
 * The unit datatypes read by the older formatters of
 * `src/parser/formatters.rs`.  That generation names documentation
 * `documentation` (`document` on modules and files), keeps a function's
 * parameters and return type, a field's type, and an impl's trait name and
 * target type.  Only the fields the formatters read are kept.
 */
module LegacyUnits {
  import opened Wrappers
  import opened Units

  datatype ParameterItem = ParameterItem(name: string, parameterType: string, isSelf: bool)

  datatype FunctionItem = FunctionItem(
    name: string,
    visibility: Visibility,
    documentation: Option<string>,
    parameters: seq<ParameterItem>,
    returnType: Option<string>,
    source: Option<string>,
    signature: Option<string>,
    body: Option<string>,
    attributes: seq<string>)

  datatype FieldItem = FieldItem(
    name: string,
    visibility: Visibility,
    fieldType: string,
    documentation: Option<string>,
    attributes: seq<string>)

  datatype StructItem = StructItem(
    name: string,
    visibility: Visibility,
    documentation: Option<string>,
    fields: seq<FieldItem>,
    source: Option<string>,
    attributes: seq<string>)

  datatype TraitItem = TraitItem(
    name: string,
    visibility: Visibility,
    documentation: Option<string>,
    methods: seq<FunctionItem>,
    source: Option<string>,
    attributes: seq<string>)

  datatype ImplItem = ImplItem(
    documentation: Option<string>,
    traitName: Option<string>,
    targetType: string,
    methods: seq<FunctionItem>,
    source: Option<string>,
    attributes: seq<string>)

  datatype ModuleItem = ModuleItem(
    name: string,
    document: Option<string>,
    visibility: Visibility,
    functions: seq<FunctionItem>,
    structs: seq<StructItem>,
    traits: seq<TraitItem>,
    impls: seq<ImplItem>,
    submodules: seq<ModuleItem>,
    source: Option<string>,
    attributes: seq<string>)

  datatype FileItem = FileItem(
    modules: seq<ModuleItem>,
    functions: seq<FunctionItem>,
    structs: seq<StructItem>,
    traits: seq<TraitItem>,
    impls: seq<ImplItem>,
    source: Option<string>)
}
