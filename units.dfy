/**
 * The parsed unit tree that the formatters in `src/parser/formatter` render:
 * a file holds declarations, modules, functions, structs, traits and impls,
 * and a module holds the same kinds of items plus nested modules.
 */
module Units {
  import opened Wrappers

  datatype Visibility = Public | Private | Protected | Crate | Restricted(path: string)

  datatype DeclareKind = Import | Use | Mod | Other(kind: string)

  /** A top-level declaration (an import, a `use`, a prototype) kept as text. */
  datatype DeclareStatements = DeclareStatements(source: string, kind: DeclareKind)

  datatype FieldUnit = FieldUnit(
    name: string,
    doc: Option<string>,
    attributes: seq<string>,
    source: Option<string>)

  datatype FunctionUnit = FunctionUnit(
    name: string,
    visibility: Visibility,
    doc: Option<string>,
    signature: Option<string>,
    body: Option<string>,
    source: Option<string>,
    attributes: seq<string>)

  datatype StructUnit = StructUnit(
    name: string,
    head: string,
    visibility: Visibility,
    doc: Option<string>,
    source: Option<string>,
    attributes: seq<string>,
    fields: seq<FieldUnit>,
    methods: seq<FunctionUnit>)

  datatype TraitUnit = TraitUnit(
    name: string,
    visibility: Visibility,
    doc: Option<string>,
    source: Option<string>,
    attributes: seq<string>,
    methods: seq<FunctionUnit>)

  datatype ImplUnit = ImplUnit(
    head: string,
    doc: Option<string>,
    source: Option<string>,
    attributes: seq<string>,
    methods: seq<FunctionUnit>)

  datatype ModuleUnit = ModuleUnit(
    name: string,
    attributes: seq<string>,
    doc: Option<string>,
    declares: seq<DeclareStatements>,
    visibility: Visibility,
    functions: seq<FunctionUnit>,
    structs: seq<StructUnit>,
    traits: seq<TraitUnit>,
    impls: seq<ImplUnit>,
    submodules: seq<ModuleUnit>,
    source: Option<string>)

  datatype FileUnit = FileUnit(
    path: seq<string>,
    doc: Option<string>,
    declares: seq<DeclareStatements>,
    modules: seq<ModuleUnit>,
    functions: seq<FunctionUnit>,
    structs: seq<StructUnit>,
    traits: seq<TraitUnit>,
    impls: seq<ImplUnit>,
    source: Option<string>)
}
