# codebank, modelled in Dafny

codebank turns a source tree into one Markdown "code bank". Each Rust, Python, TypeScript/JavaScript, C/C++ or Go file is parsed into a tree of units: a file holds modules, functions, structs, traits and impls. The tree is then rendered under one of three strategies. `Default` keeps the source, `NoTests` drops test functions and test modules, and `Summary` keeps only public items, with their bodies reduced to signatures. The generator puts a title, an optional package file and one fenced section per file, sorted by path, into one document. An MCP tool server exposes the generator.

This project models the deterministic part of that pipeline and proves what it does:

- `FormatterRules` (`rules.dfy`): the per-language rule table, the test-marker predicates and `format_signature`.
- `Formatter` (`formatter.dfy`) and `FormatterProperties` (`formatter_properties.dfy`): the `Formatter` implementation of `formatter/mod.rs`.
  - The methods build their output in loops, as the source does.
  - Each method is proved equal to a specification function.
  - The strategy properties are lemmas about those functions.
- `PythonFormatter` (`python_formatter.dfy`): `format_python` of `formatter/python.rs`.
- `LegacyFormatter` (`legacy_formatter.dfy`, over the datatypes of `legacy_units.dfy`): the older formatter of `formatters.rs`.
- `CppParser`, `RustParser`, `GoParser`, `TsParser`, `PythonParser`: the text logic of the language parsers, with the syntax tree abstracted away.
  - Covered: names, signatures, heads, visibility, doc comments, attributes, export lists, and the grouping of Go methods by receiver.
  - The nodes a parser would get from the syntax tree are inputs: their kinds and texts, given as strings and lists.
- `Bank` (`bank.dfy`): language detection, parser dispatch, the directory walk over given entries, the sort by path and the assembly of the document in `generate`.
- `Mcp` (`mcp.dfy`): `parse_strategy` and the order of the checks in the two tool handlers.
- Shared modules:
  - `Units` (`units.dfy`): the unit datatypes.
  - `Codebank` (`codebank.dfy`): `BankStrategy`.
  - `Strings` (`strings.dfy`): the `str` operations the source uses (`trim`, `find`, `lines`, `split`, `split_whitespace`, `trim_start_matches`, ...), specified and proved.
  - `Wrappers` (`wrappers.dfy`): `Option` and `Result`.

The source is split across several API generations. Each formatter therefore gets the datatypes of the fields it reads:

- `formatter/mod.rs`, `formatter/python.rs` and the language parsers share `Units`.
- `formatters.rs` has its own `LegacyUnits`.
- `rules.rs` knows no Go, while `bank.rs` does: each has its own `LanguageType`.

## Model

| member | source | states |
|---|---|---|
| FormatterRules.ForLanguage | src/parser/formatter/rules.rs:14-69 | every known language's ellipsis re-opens the body with its one-character body-start marker; only `Unknown` has an empty body-start marker and no test or test-module markers |
| FormatterRules.ForLanguageTable | src/parser/formatter/rules.rs:108-133 | the Rust, Python and Unknown constants the source's tests fix (ellipsis, body marker, doc marker, test markers); TypeScript and C share one table |
| FormatterRules.IsTestFunction | src/parser/formatter/rules.rs:71-75 | true exactly when some attribute contains some test marker; never true for a table without markers |
| FormatterRules.IsTestModule | src/parser/formatter/rules.rs:77-81 | true exactly when some module marker is a prefix of the name or occurs in some attribute; never true for a table without markers |
| FormatterRules.ContainsAny | src/parser/formatter/rules.rs:74 | the inner `any`: some marker occurs in the string |
| FormatterRules.AnyContainsAny | src/parser/formatter/rules.rs:72-74 | the outer `any`: some attribute contains some marker |
| FormatterRules.AnyModuleMarker | src/parser/formatter/rules.rs:78-80 | some marker starts the name or occurs in some attribute |
| FormatterRules.CleanSignature | src/parser/formatter/rules.rs:87-97 | the kept part is a prefix of the signature with no body-start marker in it; it is the whole signature when the marker is empty or absent, and otherwise the text before the first marker with trailing whitespace removed |
| FormatterRules.FormatSignature | src/parser/formatter/rules.rs:83-101 | the result ends with the summary ellipsis, and what comes before it is the cleaned, trimmed signature (or source when there is no signature) |
| FormatterRules.CleanSignatureTrimmed | src/parser/formatter/rules.rs:84-97 | the kept part of a summary starts and ends with a visible character |
| FormatterRules.CleanSignatureOfSummary | src/parser/formatter/rules.rs:84-100 | cleaning an earlier summary `c + ellipsis` gives back `c` |
| FormatterRules.FormatSignatureIdempotent | src/parser/formatter/rules.rs:14-101 | for every table whose ellipsis re-opens the body (Rust, Python, TypeScript, C), summarising a summary returns it unchanged |
| FormatterRules.SummaryWithoutMarker | src/parser/formatter/rules.rs:87-100 | with no body-start marker, a trimmed signature is kept whole and a summary of a summary gains a second ellipsis |
| FormatterRules.UnknownSummaryNotIdempotent | src/parser/formatter/rules.rs:50-101 | for the Unknown table, summarising `s + "..."` gives `s + "..." + "..."`: idempotence fails there |
| FormatterRules.FormatSignatureRustExample | src/parser/formatter/rules.rs:184-188 | `fn test()` under the Rust rules becomes `fn test() { ... }` |
| FormatterRules.FormatSignaturePythonExample | src/parser/formatter/rules.rs:203-206 | `def test()` under the Python rules becomes `def test(): ...` |
| Formatter.WriteDoc | src/parser/formatter/mod.rs:167-171 | the loop over the doc's lines builds exactly `DocText`: one `doc_marker + " " + line + "\n"` per line |
| Formatter.AppendAttributes | src/parser/formatter/mod.rs:374-379 | appends exactly `AttrText`: each attribute on its own line, except those equal to a skipped marker |
| Formatter.FormatFunction | src/parser/formatter/mod.rs:347-421 | the function formatter returns exactly `FunctionText`, whose properties are the `FormatterProperties` lemmas on functions |
| Formatter.AppendSignatureAndBody | src/parser/formatter/mod.rs:383-405 | appends the `NoTests` tail: signature, a space only when needed, then body; or the source when there is neither |
| Formatter.AppendSummarySignature | src/parser/formatter/mod.rs:406-417 | appends the `Summary` tail: `format_signature` of the signature, else of the source, else nothing |
| Formatter.FormatStruct | src/parser/formatter/mod.rs:425-518 | the struct formatter returns exactly `StructText`: nothing for a non-public struct under `Summary`, the whole source with docs for a Rust enum, else head and ellipsis or head and indented non-test methods |
| Formatter.FormatMethodLine | src/parser/formatter/mod.rs:502-511 | one method line of a struct or trait body: nothing for a test method or empty output, else the output indented on its own line |
| Formatter.AppendMethods | src/parser/formatter/mod.rs:502-564 | the loop over methods appends exactly the concatenation of their method lines, in order |
| Formatter.FormatTrait | src/parser/formatter/mod.rs:521-575 | the trait formatter returns exactly `TraitText`: nothing for a non-public trait under `Summary`, else `"<vis> trait <name>"` with the ellipsis or with the indented non-test methods and the body end marker |
| Formatter.FormatImpl | src/parser/formatter/mod.rs:578-656 | the impl formatter returns exactly `ImplText`, whose emptiness and kept methods are `FormatterProperties.ImplSummaryEmptyIff`, `ImplSummaryKeeps` and `ImplNoTestsKeeps` |
| Formatter.CollectImplMethods | src/parser/formatter/mod.rs:585-610 | the filtering loop collects exactly the methods `ImplKeeps` accepts, in order |
| Formatter.ShowsImplMethod | src/parser/formatter/mod.rs:590-606 | the filter's test: non-test, and public as well for an inherent impl under `Summary` |
| Formatter.FormatImplMethodLine | src/parser/formatter/mod.rs:640-649 | one method line of an impl body: the method under the impl's strategy, indented, or nothing when empty |
| Formatter.AppendImplMethods | src/parser/formatter/mod.rs:640-649 | the loop over the kept methods appends exactly their method lines, in order |
| Formatter.FormatModule | src/parser/formatter/mod.rs:148-344 | the module formatter returns exactly `ModuleText`, whose properties are `FormatterProperties.ModuleSummaryEmptyIff`, `ModuleNoTestsWrapped` and `ModuleSummaryShowsPublicOnly` |
| Formatter.AppendModuleItems | src/parser/formatter/mod.rs:185-335 | appends exactly the module body: declarations, functions, structs, traits, impls, submodules, in that order |
| Formatter.AppendDeclares | src/parser/formatter/mod.rs:33-188 | appends each declaration's source on its own line, with the given indent, in order |
| Formatter.PushBlock | src/parser/formatter/mod.rs:195-198 | appends an item one level in (every newline followed by four spaces) and a blank line, or nothing for an empty item |
| Formatter.FormatFunctionBlock | src/parser/formatter/mod.rs:191-285 | one function block of a module body: nothing for a test function (or a non-public one under `Summary`), else the indented function |
| Formatter.AppendFunctionBlocks | src/parser/formatter/mod.rs:191-285 | the loop appends exactly the function blocks, in order |
| Formatter.FormatStructBlock | src/parser/formatter/mod.rs:204-298 | one struct block of a module body: nothing for a non-public struct under `Summary`, else the indented struct |
| Formatter.AppendStructBlocks | src/parser/formatter/mod.rs:204-298 | the loop appends exactly the struct blocks, in order |
| Formatter.FormatTraitBlock | src/parser/formatter/mod.rs:215-311 | one trait block of a module body: nothing for a non-public trait under `Summary`, else the indented trait |
| Formatter.AppendTraitBlocks | src/parser/formatter/mod.rs:215-311 | the loop appends exactly the trait blocks, in order |
| Formatter.FormatImplBlock | src/parser/formatter/mod.rs:226-322 | one impl block of a module body: the indented impl, or nothing when empty |
| Formatter.AppendImplBlocks | src/parser/formatter/mod.rs:226-322 | the loop appends exactly the impl blocks, in order |
| Formatter.FormatSubmoduleBlock | src/parser/formatter/mod.rs:237-335 | one submodule block: nothing for a non-public submodule under `Summary`, else the indented submodule |
| Formatter.AppendSubmodules | src/parser/formatter/mod.rs:237-335 | the loop appends exactly the submodule blocks, in order |
| Formatter.FormatFile | src/parser/formatter/mod.rs:15-145 | the file formatter returns exactly `FileText`, whose properties are `FormatterProperties.DefaultKeepsSource`, `FileSummaryShowsPublicOnly` and `FileNoTestsDropsTests` |
| Formatter.FormatFileModuleLine | src/parser/formatter/mod.rs:39-105 | one module line of a file: under `NoTests` nothing for a test module or empty output; under `Summary` only public modules |
| Formatter.AppendFileModules | src/parser/formatter/mod.rs:39-105 | the loop appends exactly the module lines, in order |
| Formatter.FormatFileFunctionLine | src/parser/formatter/mod.rs:50-114 | one function line of a file: under `NoTests` nothing for a test function or empty output; under `Summary` only public functions |
| Formatter.AppendFileFunctions | src/parser/formatter/mod.rs:50-114 | the loop appends exactly the function lines, in order |
| Formatter.FormatFileStructLine | src/parser/formatter/mod.rs:61-123 | one struct line of a file: under `NoTests` nothing for empty output; under `Summary` only public structs |
| Formatter.AppendFileStructs | src/parser/formatter/mod.rs:61-123 | the loop appends exactly the struct lines, in order |
| Formatter.FormatFileTraitLine | src/parser/formatter/mod.rs:70-132 | one trait line of a file: under `NoTests` nothing for empty output; under `Summary` only public traits |
| Formatter.AppendFileTraits | src/parser/formatter/mod.rs:70-132 | the loop appends exactly the trait lines, in order |
| Formatter.FormatFileImplLine | src/parser/formatter/mod.rs:79-139 | one impl line of a file: under `NoTests` nothing for empty output; under `Summary` every impl, followed by a newline |
| Formatter.AppendFileImpls | src/parser/formatter/mod.rs:79-139 | the loop appends exactly the impl lines, in order |
| FormatterProperties.DefaultKeepsSource | src/parser/formatter/mod.rs:21-25 | under `Default` a file, a module and a function are their own source (or nothing), test code included (also lines 160-164, 353-355) |
| FormatterProperties.TestFunctionOmitted | src/parser/formatter/mod.rs:357-360 | outside `Default` a test function renders as nothing |
| FormatterProperties.SummaryOmitsNonPublic | src/parser/formatter/mod.rs:362-529 | under `Summary` a function, struct or trait that is not `Public` renders as nothing |
| FormatterProperties.SummaryFunctionEndsWithEllipsis | src/parser/formatter/mod.rs:406-417 | a public non-test function with a signature or a source ends with the language's summary ellipsis under `Summary` |
| FormatterProperties.SummaryIgnoresBody | src/parser/formatter/mod.rs:406-417 | under `Summary` the function's body never matters |
| FormatterProperties.NoTestsSignatureBodyJoin | src/parser/formatter/mod.rs:386-398 | under `NoTests` signature and body are joined directly exactly when the text so far ends in a space or the body starts with `{` or `:`, and by one space otherwise |
| FormatterProperties.AttrTextSkips | src/parser/formatter/mod.rs:374-379 | skipping the attributes equal to a marker is printing the filtered list |
| FormatterProperties.DocTextOfSingleLine | src/parser/formatter/mod.rs:368-372 | a one-line doc is the single line `doc_marker + " " + doc + "\n"` |
| FormatterProperties.StructNoTestsDropsTestMethods | src/parser/formatter/mod.rs:502-511 | under `NoTests` removing a struct's test methods changes nothing |
| FormatterProperties.TraitNoTestsDropsTestMethods | src/parser/formatter/mod.rs:556-564 | under `NoTests` removing a trait's test methods changes nothing |
| FormatterProperties.ImplSummaryEmptyIff | src/parser/formatter/mod.rs:582-616 | under `Summary` an impl renders as nothing exactly when its head lacks `" for "` and it has no public non-test method |
| FormatterProperties.ImplSummaryKeeps | src/parser/formatter/mod.rs:592-609 | under `Summary` a trait impl keeps every non-test method whatever its visibility, an inherent impl its public non-test ones |
| FormatterProperties.ImplNoTestsKeeps | src/parser/formatter/mod.rs:587-591 | under `NoTests` an impl keeps exactly its non-test methods |
| FormatterProperties.TraitImplPrivateMethodRendersEmpty | src/parser/formatter/mod.rs:363-365 | a private method that a trait impl keeps under `Summary` is still rendered as nothing (also lines 593-598, 642-648) |
| FormatterProperties.ModuleSummaryEmptyIff | src/parser/formatter/mod.rs:154-251 | under `Summary` a module renders as nothing exactly when it is a test module or not `Public` |
| FormatterProperties.ModuleNoTestsWrapped | src/parser/formatter/mod.rs:165-247 | under `NoTests` a module starts with its docs, attributes and `"<vis> mod <name> {\n"` and ends with `"}\n"` |
| FormatterProperties.SubmodulesAsConcatMap | src/parser/formatter/mod.rs:237-335 | the submodule blocks are the concatenation of one block per submodule |
| FormatterProperties.ModuleSummaryShowsPublicOnly | src/parser/formatter/mod.rs:272-335 | under `Summary` removing a module's non-public functions, structs, traits and submodules changes nothing |
| FormatterProperties.FileSummaryShowsPublicOnly | src/parser/formatter/mod.rs:99-139 | under `Summary` removing a file's non-public modules, functions, structs and traits changes nothing, and every impl still goes through the impl formatter |
| FormatterProperties.FileNoTestsDropsTests | src/parser/formatter/mod.rs:38-58 | under `NoTests` removing a file's test modules and test functions changes nothing |
| FormatterProperties.NoTestsModulesDropped | src/parser/formatter/mod.rs:38-47 | the module lines of a file under `NoTests` are those of its non-test modules |
| FormatterProperties.NoTestsFunctionsDropped | src/parser/formatter/mod.rs:49-58 | the function lines of a file under `NoTests` are those of its non-test functions |
| LegacyFormatter.PushLIndented | src/parser/formatters.rs:163-166 | appends an item one level in, every newline followed by four spaces, then a blank line |
| LegacyFormatter.LBuiltSignature | src/parser/formatters.rs:356-373 | the signature built from a function's parts starts with `"pub fn <name>("` and ends with `")"` or with `") -> <return type>"` |
| LegacyFormatter.AppendLDoc | src/parser/formatters.rs:318-425 | the loop over the doc's lines appends exactly one `indent + "/// " + line + "\n"` per line |
| LegacyFormatter.AppendLAttrs | src/parser/formatters.rs:325-430 | the loop appends exactly each attribute on its own line after the indent; none is skipped |
| LegacyFormatter.WriteLPreamble | src/parser/formatters.rs:317-327 | documentation then attributes, as `LDocText` and `LAttrText` at the top level |
| LegacyFormatter.LFormatFunction | src/parser/formatters.rs:300-383 | the function formatter returns exactly `LFunctionText`: the source under `Default`; nothing for a `#[test]` function under `NoTests`; nothing for a non-public one under `Summary`, else its signature or the built one and `" { ... }"` |
| LegacyFormatter.FormatLFieldLine | src/parser/formatters.rs:419-484 | one field of a struct body: its indented docs, attributes and `[pub ]name: type,`, or nothing for a non-public field under `Summary` |
| LegacyFormatter.AppendLFields | src/parser/formatters.rs:419-484 | the loop appends exactly the field lines, in order |
| LegacyFormatter.LFormatStruct | src/parser/formatters.rs:386-492 | the struct formatter returns exactly `LStructText`, whose `Summary` form is `LStructSummaryPublicFields` |
| LegacyFormatter.FormatLTraitMethodLine | src/parser/formatters.rs:526-570 | one method of a trait body: nothing for a `#[test]` method under `NoTests` or an empty output, else the indented method and a blank line |
| LegacyFormatter.AppendLTraitMethods | src/parser/formatters.rs:526-570 | the loop appends exactly the method lines, in order |
| LegacyFormatter.LFormatTrait | src/parser/formatters.rs:495-578 | the trait formatter returns exactly `LTraitText`: source, nothing for a non-public trait under `Summary`, or docs, attributes, head, methods and `"}\n"` |
| LegacyFormatter.AppendLImplMethods | src/parser/formatters.rs:616-673 | the loop appends the method lines of an impl and reports whether any was non-empty, as `has_methods` does |
| LegacyFormatter.LFormatImpl | src/parser/formatters.rs:581-686 | the impl formatter returns exactly `LImplText`, whose emptiness is `LImplNoTestsEmptyIff` and `LImplSummaryEmptyIff` |
| LegacyFormatter.LFormatModule | src/parser/formatters.rs:123-297 | the module formatter returns exactly `LModuleText`, whose shape is `LModuleNoTestsWrapped` and `LModuleSummaryNonPublic` |
| LegacyFormatter.AppendLModuleBody | src/parser/formatters.rs:153-288 | appends exactly the module body: functions, structs, traits, impls, submodules, in that order |
| LegacyFormatter.FormatLModFunctionLine | src/parser/formatters.rs:154-244 | one function of a module body: `NoTests` skips `#[test]` functions, `Summary` non-public ones; the rest are indented with a blank line |
| LegacyFormatter.AppendLModFunctions | src/parser/formatters.rs:154-244 | the loop appends exactly the function lines, in order |
| LegacyFormatter.FormatLModStructLine | src/parser/formatters.rs:170-255 | one struct of a module body: `Summary` skips non-public ones; the rest are indented with a blank line |
| LegacyFormatter.AppendLModStructs | src/parser/formatters.rs:170-255 | the loop appends exactly the struct lines, in order |
| LegacyFormatter.FormatLModTraitLine | src/parser/formatters.rs:179-266 | one trait of a module body: `Summary` skips non-public ones; the rest are indented with a blank line |
| LegacyFormatter.AppendLModTraits | src/parser/formatters.rs:179-266 | the loop appends exactly the trait lines, in order |
| LegacyFormatter.FormatLModImplLine | src/parser/formatters.rs:188-277 | one impl of a module body: always pushed under `NoTests`, even when empty; under `Summary` only when non-empty |
| LegacyFormatter.AppendLModImpls | src/parser/formatters.rs:188-277 | the loop appends exactly the impl lines, in order |
| LegacyFormatter.AppendLSubmodules | src/parser/formatters.rs:196-288 | the loop appends exactly `LSubmodulesText`: `NoTests` skips test modules, `Summary` non-public ones |
| LegacyFormatter.FormatLSubmoduleBlock | src/parser/formatters.rs:196-288 | one submodule block: nothing when skipped, else the indented submodule and a blank line |
| LegacyFormatter.LFormatFile | src/parser/formatters.rs:5-120 | the file formatter returns exactly `LFileText`, whose pruning properties are `LFileNoTestsDropsTests` and `LFileSummaryPublicOnly` |
| LegacyFormatter.FormatLFileModuleLine | src/parser/formatters.rs:17-80 | one module of a file: `NoTests` skips test modules, `Summary` non-public ones; the rest are followed by a blank line |
| LegacyFormatter.AppendLFileModules | src/parser/formatters.rs:17-80 | the loop appends exactly the module lines, in order |
| LegacyFormatter.FormatLFileFunctionLine | src/parser/formatters.rs:36-89 | one function of a file: `NoTests` skips `#[test]` functions, `Summary` non-public ones; the rest are followed by a blank line |
| LegacyFormatter.AppendLFileFunctions | src/parser/formatters.rs:36-89 | the loop appends exactly the function lines, in order |
| LegacyFormatter.FormatLFileStructLine | src/parser/formatters.rs:51-98 | one struct of a file: `Summary` skips non-public ones; the rest are followed by a blank line |
| LegacyFormatter.AppendLFileStructs | src/parser/formatters.rs:51-98 | the loop appends exactly the struct lines, in order |
| LegacyFormatter.FormatLFileTraitLine | src/parser/formatters.rs:58-107 | one trait of a file: `Summary` skips non-public ones; the rest are followed by a blank line |
| LegacyFormatter.AppendLFileTraits | src/parser/formatters.rs:58-107 | the loop appends exactly the trait lines, in order |
| LegacyFormatter.FormatLFileImplLine | src/parser/formatters.rs:65-114 | one impl of a file: always followed by a blank line, even when empty |
| LegacyFormatter.AppendLFileImpls | src/parser/formatters.rs:65-114 | the loop appends exactly the impl lines, in order |
| LegacyFormatter.LDefaultKeepsSource | src/parser/formatters.rs:10-15 | under `Default` a file, a module and a function are their own source (also lines 128-133, 305-310) |
| LegacyFormatter.LNoTestsOmitsTestFunction | src/parser/formatters.rs:312-315 | under `NoTests` a function with an attribute exactly `#[test]` renders as nothing |
| LegacyFormatter.LTraitSummaryEmptyIff | src/parser/formatters.rs:540-573 | under `Summary` a trait renders as nothing exactly when it is not public; a public one ends with `"}\n"` |
| LegacyFormatter.LTraitNoTestsDropsTestMethods | src/parser/formatters.rs:506-539 | under `NoTests` removing a trait's `#[test]` methods leaves its text unchanged |
| LegacyFormatter.LSummaryFunction | src/parser/formatters.rs:334-377 | under `Summary` a non-public function is nothing; a public one ends with its signature, or the built one, then `" { ... }"` |
| LegacyFormatter.LPublicFieldLine | src/parser/formatters.rs:433-482 | a public field's text ends with `"    pub name: type,\n"` |
| LegacyFormatter.LStructSummaryPublicFields | src/parser/formatters.rs:444-487 | under `Summary` a public struct is what `NoTests` shows of it once its non-public fields are removed |
| LegacyFormatter.LImplEmptyIffBody | src/parser/formatters.rs:616-680 | outside `Default` an impl renders as nothing exactly when none of its method lines has output |
| LegacyFormatter.LImplNoTestsEmptyIff | src/parser/formatters.rs:616-635 | under `NoTests` an impl renders as nothing exactly when each method is a `#[test]` or formats to nothing |
| LegacyFormatter.LImplSummaryEmptyIff | src/parser/formatters.rs:660-680 | under `Summary` an impl renders as nothing exactly when it has no public method |
| LegacyFormatter.LImplNonEmpty | src/parser/formatters.rs:630-676 | an impl with some method output ends with `"}\n"` |
| LegacyFormatter.LModuleSummaryNonPublic | src/parser/formatters.rs:218-232 | under `Summary` a non-public module keeps only its docs and attributes |
| LegacyFormatter.LModuleNoTestsWrapped | src/parser/formatters.rs:134-216 | under `NoTests` a module starts with its docs, attributes and `"[pub ]mod <name> {\n"` and ends with `"}\n"` |
| LegacyFormatter.LSubmodulesAsConcatMap | src/parser/formatters.rs:196-288 | the submodule blocks are the concatenation of one block per submodule |
| LegacyFormatter.LModuleNoTestsDropsTests | src/parser/formatters.rs:153-214 | under `NoTests` removing a module's `#[test]` functions and test submodules changes nothing |
| LegacyFormatter.LModuleSummaryPublicOnly | src/parser/formatters.rs:235-288 | under `Summary` removing a module's non-public functions, structs, traits and submodules changes nothing |
| LegacyFormatter.LFileNoTestsDropsTests | src/parser/formatters.rs:17-48 | under `NoTests` removing a file's test modules and `#[test]` functions changes nothing |
| LegacyFormatter.LFileSummaryPublicOnly | src/parser/formatters.rs:71-107 | under `Summary` removing a file's non-public modules, functions, structs and traits changes nothing |
| PythonFormatter.PyFormatFunction | src/parser/formatter/python.rs:7-50 | the function formatter returns exactly `PyFunctionText`: the source; nothing for a test under `NoTests`; nothing for a `Private` function under `Summary`, else the signature or the source through its first `:` and `" ..."` |
| PythonFormatter.FormatPyMethodLine | src/parser/formatter/python.rs:62-97 | one method of a class: `"\n    "` and the method under `Default` and (non-test) `NoTests`; under `Summary` four spaces, the public method and a newline |
| PythonFormatter.AppendPyMethods | src/parser/formatter/python.rs:62-97 | the loop appends exactly the method lines, in order |
| PythonFormatter.PyFormatStruct | src/parser/formatter/python.rs:52-104 | the class formatter returns exactly `PyStructText`: nothing for a private class under `Summary`, else the source (or its head through the first `:`) then the method lines |
| PythonFormatter.AppendPyDeclares | src/parser/formatter/python.rs:125-191 | the loop appends each declaration's source on its own line, in order |
| PythonFormatter.FormatPyFunctionBlock | src/parser/formatter/python.rs:130-209 | one function of a module or file: its text and a blank line, or nothing for empty output |
| PythonFormatter.AppendPyFunctionBlocks | src/parser/formatter/python.rs:130-209 | the loop appends exactly the function blocks, in order |
| PythonFormatter.FormatPyClassBlock | src/parser/formatter/python.rs:137-218 | one class of a module or file: its text and a blank line, or nothing for empty output |
| PythonFormatter.AppendPyClassBlocks | src/parser/formatter/python.rs:137-218 | the loop appends exactly the class blocks, in order |
| PythonFormatter.AppendPyPublicFunctions | src/parser/formatter/python.rs:151-159 | the loop appends each public function's non-empty summary on its own line |
| PythonFormatter.AppendPyPublicClasses | src/parser/formatter/python.rs:160-168 | the loop appends each public class's non-empty summary on its own line |
| PythonFormatter.PyFormatModule | src/parser/formatter/python.rs:106-174 | the module formatter returns exactly `PyModuleText`: the source and a blank line; nothing for a test module under `NoTests`; nothing for a private module under `Summary` |
| PythonFormatter.FormatPyModuleBlock | src/parser/formatter/python.rs:194-200 | one module of a file: its text and a blank line, or nothing for empty output |
| PythonFormatter.AppendPyModuleBlocks | src/parser/formatter/python.rs:194-200 | the loop appends exactly the module blocks, in order |
| PythonFormatter.PyFormatFile | src/parser/formatter/python.rs:176-224 | the file formatter returns exactly `PyFileText`, whose layout is `PyFileLayout` |
| PythonFormatter.PyFunctionKeepsSource | src/parser/formatter/python.rs:12-25 | under `Default` a function is its source, and under `NoTests` too unless it is a test |
| PythonFormatter.PyNoTestsOmitsTests | src/parser/formatter/python.rs:18-21 | a function with an attribute containing `"test"` renders as nothing under `NoTests` |
| PythonFormatter.PySummaryOmitsPrivate | src/parser/formatter/python.rs:27-149 | under `Summary` a `Private` function, class or module renders as nothing |
| PythonFormatter.PySummaryFunctionShape | src/parser/formatter/python.rs:31-44 | a non-private function under `Summary` is its signature and `" ..."`; without one, its source through the first `:` and `" ..."`, or the whole source when there is no `:` |
| PythonFormatter.PySummaryIgnoresBody | src/parser/formatter/python.rs:26-45 | under `Summary` a function's body never matters |
| PythonFormatter.PyClassSummaryPublicMethodsOnly | src/parser/formatter/python.rs:91-98 | under `Summary` removing a class's non-public methods changes nothing |
| PythonFormatter.PyClassSummaryStartsWithHead | src/parser/formatter/python.rs:84-90 | under `Summary` a class with a `:` in its source starts with the source through the first `:` and a newline |
| PythonFormatter.PyClassNoTestsDropsTestMethods | src/parser/formatter/python.rs:71-77 | under `NoTests` removing a class's test methods changes nothing |
| PythonFormatter.PyNoTestsOmitsTestModules | src/parser/formatter/python.rs:118-123 | a module named `test_...` or with an attribute containing `"test_"` renders as nothing under `NoTests` |
| PythonFormatter.PyModuleSummaryPublicOnly | src/parser/formatter/python.rs:150-168 | under `Summary` removing a module's non-public functions and classes changes nothing |
| PythonFormatter.PyFileLayout | src/parser/formatter/python.rs:186-219 | outside `Default` a file is its declarations, one per line, then every non-empty module, function and class text in order, each followed by a blank line |
| CppParser.CleanComment | src/parser/lang/cpp.rs:851-858 | the cleaned comment is no longer than the comment and has no blank at either end |
| CppParser.CleanLineComment | src/parser/lang/cpp.rs:851-858 | a `//` comment cleans to its trimmed text |
| CppParser.CleanBlockComment | src/parser/lang/cpp.rs:851-858 | a `/* ... */` comment cleans to its trimmed text |
| CppParser.IsWhitespaceKind | src/parser/lang/cpp.rs:861-863 | a whitespace node kind is a single blank character, and `"\r"` is not one |
| CppParser.LeadingComments | src/parser/lang/cpp.rs:27-37 | the backward scan collects at most one comment per node visited |
| CppParser.LeadingCommentsOfRun | src/parser/lang/cpp.rs:27-37 | a run of comment nodes ended by a stopping node yields exactly those comments, cleaned, in order |
| CppParser.ExtractDocumentation | src/parser/lang/cpp.rs:21-47 | the loop over the previous siblings returns `None` exactly when it met no comment before stopping, else the cleaned comments reversed into source order and joined by newlines |
| CppParser.FileDocumentation | src/parser/lang/cpp.rs:581-599 | the same scan over the root's first children: `None` exactly when no comment precedes the first other node, else the cleaned comments in order joined by newlines |
| CppParser.NameFromWords | src/parser/lang/cpp.rs:916-944 | no name without words, and a name found has no whitespace |
| CppParser.ExtractFunctionName | src/parser/lang/cpp.rs:910-945 | no name without a `(`, and a name found has no whitespace |
| CppParser.FunctionNameIsLastWord | src/parser/lang/cpp.rs:916-930 | the name is the last word before `(` when it is neither scoped nor a specifier |
| CppParser.FunctionNameAfterScope | src/parser/lang/cpp.rs:921-925 | a scoped last word `Q::m` names `m`, the text after its last `::` |
| CppParser.FunctionNameBeforeSpecifier | src/parser/lang/cpp.rs:929-940 | when the last word before `(` is `const`, `override` or `virtual`, the word before it is the name |
| CppParser.FunctionNameAdd | src/parser/lang/cpp.rs:953-988 | `int add(int a, int b)` names `add` |
| CppParser.FunctionNameArea | src/parser/lang/cpp.rs:953-988 | `double area() const override` names `area` |
| CppParser.FunctionNameScoped | src/parser/lang/cpp.rs:953-988 | `void Rectangle::setDimensions(double w, double h)` names `setDimensions` |
| CppParser.IdentifierPrefix | src/parser/lang/cpp.rs:873-882 | the identifier taken is the longest prefix made of letters, digits and `_` |
| CppParser.IdentifierAtFirstLetter | src/parser/lang/cpp.rs:872-883 | an identifier is found exactly when the text has a letter; it starts with a letter and holds only identifier characters |
| CppParser.ExtractTemplateName | src/parser/lang/cpp.rs:866-887 | no name without a `>`; a name found starts with a letter and holds only letters, digits and `_` |
| CppParser.TemplateNameIsFirstIdentifier | src/parser/lang/cpp.rs:866-887 | the template name is the first identifier that starts with a letter after the first `>` |
| CppParser.LastWordBeforeParen | src/parser/lang/cpp.rs:894-904 | a word found is non-empty and has no whitespace |
| CppParser.ExtractNameAfterTemplate | src/parser/lang/cpp.rs:890-907 | no name without a `>`; a name found is a non-empty word |
| CppParser.NameAfterTemplateIsLastWord | src/parser/lang/cpp.rs:890-907 | the name after the template parameters is the last word before the first `(` |
| CppParser.TemplateName | src/parser/lang/cpp.rs:261-381 | corrected naming: a function template is named by `extract_name_after_template`, any other template by `extract_template_name_from_text` |
| CppParser.TemplateNameOfMaxAsWritten | src/parser/lang/cpp.rs:271-272 | as written, `template<typename T> T max(T a, T b)` is named `T`, its return type (also lines 866-887) |
| CppParser.FunctionTemplateNameOf | src/parser/lang/cpp.rs:261-268 | under the corrected naming a function template is named after the word before its parameter list (also lines 890-907) |
| CppParser.TemplateNameOfMax | src/parser/lang/cpp.rs:261-268 | under the corrected naming `template<typename T> T max(T a, T b)` is named `max` (also lines 890-907) |
| CppParser.DefinitionName | src/parser/lang/cpp.rs:57-78 | the declarator's name when there is one, else the name found in the signature, else "" |
| CppParser.ParseFunction | src/parser/lang/cpp.rs:50-102 | the signature has no `{`; there is a body exactly when the text has a `{`, and it starts with `{`; private exactly when the signature contains `static `; name, doc and source as given |
| CppParser.ParseFunctionOf | src/parser/lang/cpp.rs:64-71 | a definition `signature + blanks + body` keeps signature and body as written |
| CppParser.HeadBeforeBrace | src/parser/lang/cpp.rs:119-123 | no head without a `{`, else the trimmed text before the first `{` (also lines 483-487) |
| CppParser.ParseClass | src/parser/lang/cpp.rs:105-152 | the head is the text before `{`; private exactly when the head contains `class` but not `public`; name, doc, methods and source as given |
| CppParser.StructIsPublic | src/parser/lang/cpp.rs:134-138 | a head without `class` (a `struct`) makes a public unit |
| CppParser.ParseEnum | src/parser/lang/cpp.rs:471-504 | an enum is a public unit with the head before `{` and no methods |
| CppParser.IdentStart | src/parser/lang/cpp.rs:522-532 | the start of the maximal run of letters, digits and `_` ending at the given index |
| CppParser.TypedefNameOf | src/parser/lang/cpp.rs:517-535 | no name without a `;`; a name holds only identifier characters and ends with a letter or digit |
| CppParser.TypedefNameIsLastIdentifier | src/parser/lang/cpp.rs:517-535 | the typedef is named by the identifier that ends at the last letter or digit before its last `;` |
| CppParser.TypedefNameOfPoint | src/parser/lang/cpp.rs:517-535 | `typedef struct { int x; } Point;` is named `Point` |
| CppParser.ParseTypedef | src/parser/lang/cpp.rs:507-553 | the loop walking left from the last letter or digit finds exactly `TypedefNameOf`; the unit is public, its head the whole text |
| CppParser.MethodDeclaration | src/parser/lang/cpp.rs:198-236 | a declaration is a method only when its text has `(` and `)` and a name is found, public, signature and source its text; with a declarator name, exactly when both parentheses occur |
| CppParser.TopLevelDeclare | src/parser/lang/cpp.rs:606-676 | an include is an import, a macro definition a `define`, a declaration with `(` ending in `;` a `function_declaration`, each exactly so and with the node's text |
| CppParser.TopLevelDeclares | src/parser/lang/cpp.rs:604-680 | at most one declaration per top-level node |
| CppParser.TopLevelDeclaresExact | src/parser/lang/cpp.rs:604-680 | a declaration is recorded exactly when some top-level node declares it |
| CppParser.CollectDeclares | src/parser/lang/cpp.rs:604-680 | the loop over the top-level nodes collects exactly `TopLevelDeclares` |
| RustParser.DetermineVisibility | src/parser/lang/rust.rs:187-193 | `pub` is public, `pub(crate)` crate, any other `pub(...)` restricted to that text, anything else or no modifier private; each exactly so |
| RustParser.ModifierText | src/parser/lang/rust.rs:190 | the modifier text of a visibility; none exactly for a private one |
| RustParser.VisibilityRoundTrip | src/parser/lang/rust.rs:187-193 | every Rust visibility is read back from its own modifier text |
| RustParser.VisibilityInjective | src/parser/lang/rust.rs:190 | two modifiers that give the same non-private visibility are the same text, and conversely |
| RustParser.RestrictedModifiers | src/parser/lang/rust.rs:190 | `pub(super)` and `pub(in crate::level1)` are restricted to the path they name (also lines 526-552) |
| RustParser.ThroughSemicolon | src/parser/lang/rust.rs:168-230 | a head is found exactly when the text has a `;`; it ends with that `;`, holds no earlier one and starts with no blank |
| RustParser.ParseItemHead | src/parser/lang/rust.rs:165-172 | the trimmed text before the first `{`, else the trimmed text through the first `;`, else `[vis ]kind name` |
| RustParser.ParseItemHeadOf | src/parser/lang/rust.rs:167 | a head written before the body's `{` is given back as written |
| RustParser.ItemHead | src/parser/lang/rust.rs:297-374 | the head of an enum, struct or trait match is `kind name<generics>`, after the visibility text when there is one |
| RustParser.StructHead | src/parser/lang/rust.rs:335-336 | a struct head gets a `;` exactly when there is no field list and the trimmed source ends in `;` |
| RustParser.UnitStructHead | src/parser/lang/rust.rs:336 | a unit struct whose source ends in `;` keeps the `;` in its head |
| RustParser.ImplHead | src/parser/lang/rust.rs:401-413 | `impl<generics> Trait for Type` for a trait impl, `impl<generics> Type` otherwise, with `UnknownType` for a missing type |
| RustParser.ImplHeadFallback | src/parser/lang/rust.rs:414-416 | without a head match: the trimmed text before `{`, else `impl` |
| RustParser.TraitImplHeadIsTraitImpl | src/parser/lang/rust.rs:412-428 | a head built for a trait impl contains ` for `, so it is treated as a trait impl |
| RustParser.ImplMethods | src/parser/lang/rust.rs:427-431 | the methods keep their order and fields; those of a trait impl become public |
| RustParser.TraitMethods | src/parser/lang/rust.rs:381-386 | the methods of a trait keep their order and fields and become public |
| RustParser.TraitImplMethodsPublic | src/parser/lang/rust.rs:428-430 | every method of a trait impl is public |
| RustParser.AssembledSignature | src/parser/lang/rust.rs:218-223 | the assembled signature starts with `fn name params`, ends with `;` without a body, and with ` -> ret` when there is a return type and a body |
| RustParser.FunctionSignature | src/parser/lang/rust.rs:224-232 | the trimmed assembled signature unless it is problematic; then the source before `{`, or through `;`; dropped only without a source |
| RustParser.SignatureAsAssembled | src/parser/lang/rust.rs:220-226 | with parameters and a body the kept signature is the assembled text itself, as in `fn private_function(s: &str) -> String` (also lines 503-519) |
| RustParser.ParseFunction | src/parser/lang/rust.rs:195-234 | the name is the captured one or `unknown`, the visibility that of the modifier, the signature `FunctionSignature`; body, source, docs and attributes as given |
| RustParser.ScanLength | src/parser/lang/rust.rs:177-183 | the backward scan visits exactly the siblings before the first that is no comment and no attribute |
| RustParser.CleanedLines | src/parser/lang/rust.rs:180 | the kept middle lines of a block doc comment are non-empty and no more than the lines |
| RustParser.CollectedInSourceOrder | src/parser/lang/rust.rs:179-180 | putting each sibling's lines in front while going backwards yields the lines in source order |
| RustParser.JoinedDoc | src/parser/lang/rust.rs:184 | no documentation exactly when no line was found |
| RustParser.PrependCleanedLines | src/parser/lang/rust.rs:180 | the reverse loop over a block comment's middle lines puts exactly its non-empty cleaned lines, in order, in front |
| RustParser.PrependDocLines | src/parser/lang/rust.rs:179-180 | one sibling puts exactly its documentation lines in front of those found so far |
| RustParser.ExtractDocumentation | src/parser/lang/rust.rs:174-185 | the loop over the previous siblings yields exactly the doc lines of the siblings the scan visits, farthest first, joined by newlines |
| RustParser.ExtractAttributes | src/parser/lang/rust.rs:113-128 | the loop yields exactly the attribute texts of the siblings visited, in source order, then the node's own when it is an attribute |
| RustParser.CollectedAttributesFrom | src/parser/lang/rust.rs:119-126 | an attribute is collected exactly when some visited sibling is an attribute item with that text |
| RustParser.Merged | src/parser/lang/rust.rs:215 | the first attributes are kept as they were, in front |
| RustParser.MergedElements | src/parser/lang/rust.rs:215 | the merged attributes are exactly the attributes and the captured texts |
| RustParser.MergedDistinct | src/parser/lang/rust.rs:215 | merging into distinct attributes adds no duplicate |
| RustParser.MergeAttributes | src/parser/lang/rust.rs:215 | the loop over the captured attributes pushes each that is not yet present, giving exactly `Merged` (also lines 294, 332, 371, 422) |
| RustParser.TopLevelDeclare | src/parser/lang/rust.rs:458-460 | a `use` is recorded as `Use`, an `extern crate` as `extern_crate`, a `mod name;` as `Mod`, each exactly so and with the node's text |
| RustParser.ModuleDeclare | src/parser/lang/rust.rs:269 | inside a module body only `use` declarations are recorded, as at the top level |
| RustParser.FileDocAnchor | src/parser/lang/rust.rs:444-448 | the scan for the file's documentation starts at the first item, or at the last node when there is no item, or nowhere in an empty file |
| RustParser.FirstItem | src/parser/lang/rust.rs:444-446 | the first child that is no comment and no attribute, when there is one |
| RustParser.FileDocumentation | src/parser/lang/rust.rs:444-448 | the file's documentation is that of its anchor node, none for an empty file |
| GoParser.DetermineVisibility | src/parser/lang/go.rs:215-221 | a name is public exactly when it starts with an upper-case letter, private otherwise |
| GoParser.VisibilityOfFirstLetter | src/parser/lang/go.rs:216 | only the first letter decides the visibility |
| GoParser.StarsRemoved | src/parser/lang/go.rs:414 | removing the leading `*`s leaves a suffix of the text; what went were all `*` and what is left starts with none |
| GoParser.ReceiverType | src/parser/lang/go.rs:405-423 | the receiver's type with its leading `*`s removed, or `unknown` when it is missing |
| GoParser.StarredReceiver | src/parser/lang/go.rs:414 | a receiver `*T` and a receiver `T` name the same type |
| GoParser.Signature | src/parser/lang/go.rs:234-245 | the whole text without a body; with one, a signature exactly when the body starts after the declaration does, no longer than the text before the body |
| GoParser.SignatureOf | src/parser/lang/go.rs:235-240 | a declaration `signature + blanks + body` has that signature |
| GoParser.ParseFunction | src/parser/lang/go.rs:224-256 | the name, or `unknown`; public exactly when it starts upper-case; signature as `Signature`, the body's text, no attributes |
| GoParser.ParseMethod | src/parser/lang/go.rs:396-454 | a method is its receiver type paired with the function parsed like `parse_function` |
| GoParser.ScanStop | src/parser/lang/go.rs:519-548 | the scan walks over exactly the extra non-comment siblings before the first other one |
| GoParser.Documentation | src/parser/lang/go.rs:516-551 | documentation is found only at a comment where the scan stops |
| GoParser.DocumentationSkips | src/parser/lang/go.rs:543-547 | extra nodes between a comment and the declaration do not hide the comment |
| GoParser.DocumentationOfNearest | src/parser/lang/go.rs:521-546 | the first sibling not skipped decides: a comment ending or starting on the line above is the cleaned documentation, anything else means none |
| GoParser.ExtractDocumentation | src/parser/lang/go.rs:516-551 | the backward loop returns exactly `Documentation` |
| GoParser.TypeStart | src/parser/lang/go.rs:299-304 | the first child that is a type, or the end |
| GoParser.TypeStartOf | src/parser/lang/go.rs:299-304 | the first type child ends the names |
| GoParser.FieldNamesBeforeType | src/parser/lang/go.rs:294-305 | a declaration's names are its identifiers before its first type, in order |
| GoParser.CollectFieldNames | src/parser/lang/go.rs:292-305 | the loop that stops at the type collects exactly `FieldNames` |
| GoParser.FieldsOf | src/parser/lang/go.rs:306-313 | one field per name, in order, each with the declaration's documentation and source |
| GoParser.AppendFields | src/parser/lang/go.rs:306-313 | the inner loop appends exactly `FieldsOf` |
| GoParser.ParseFields | src/parser/lang/go.rs:287-315 | the loop over the field list collects exactly the fields of every `field_declaration`, in order |
| GoParser.ParseStruct | src/parser/lang/go.rs:260-329 | the name, or `unknown`; the head `type <name> struct`; visibility from the name; the type spec's documentation, else the declaration's |
| GoParser.InterfaceMethod | src/parser/lang/go.rs:357-379 | an interface method: its identifier, else field identifier, else `unknown_interface_method`; signature and source its text, no body |
| GoParser.InterfaceMethods | src/parser/lang/go.rs:355-382 | the loop keeps exactly the `method_elem` children, in order |
| GoParser.ParseInterface | src/parser/lang/go.rs:333-392 | the name, visibility and documentation follow the struct rules; the methods are those found |
| GoParser.MethodsOf | src/parser/lang/go.rs:86-93 | a receiver's list holds only methods parsed with that receiver |
| GoParser.MethodsOfMember | src/parser/lang/go.rs:86-93 | every parsed method is in its receiver's list |
| GoParser.MethodsOfAbsent | src/parser/lang/go.rs:86-93 | a receiver no method has has no list |
| GoParser.ByReceiver | src/parser/lang/go.rs:27-93 | the map's keys are exactly the receivers of the parsed methods |
| GoParser.ReceiversSnoc | src/parser/lang/go.rs:88-91 | one more method adds its receiver to the keys |
| GoParser.MethodsOfSnoc | src/parser/lang/go.rs:88-91 | one more method goes at the end of its receiver's list, and no other list changes |
| GoParser.ByReceiverStep | src/parser/lang/go.rs:88-91 | `entry().or_default().push` puts the method at the end of its receiver's list |
| GoParser.GroupByReceiver | src/parser/lang/go.rs:86-93 | the loop fills the map with exactly `ByReceiver` |
| GoParser.MethodsImpl | src/parser/lang/go.rs:176-196 | the impl for a receiver is headed `methods for <receiver>` and holds its methods |
| GoParser.Attach | src/parser/lang/go.rs:171-185 | every struct is kept, and there is one impl per receiver taken |
| GoParser.AttachedStructShift | src/parser/lang/go.rs:171-185 | removing a receiver from the map after its struct does not change what later structs become |
| GoParser.AttachStructs | src/parser/lang/go.rs:171-174 | each struct is kept, and the first struct of a name with methods gets them appended |
| GoParser.AttachNamesFrom | src/parser/lang/go.rs:171-184 | past the first n structs, the structs' pass, meeting the map without those structs' names, yields the names of the later structs that are first of their name and have methods, in struct order |
| GoParser.AttachNamesInOrder | src/parser/lang/go.rs:171-184 | the struct impls come in struct order, one per struct that is the first of its name with methods, each holding that name's methods |
| GoParser.AttachPartition | src/parser/lang/go.rs:171-185 | the structs' pass splits the map: receivers with an impl are distinct, each impl holds its receiver's methods, and the rest keep theirs |
| GoParser.PartitionedPrepend | src/parser/lang/go.rs:172-184 | a receiver handled first extends the split of the rest |
| GoParser.PartitionedMove | src/parser/lang/go.rs:189-197 | a leftover receiver moves to the handled ones with its impl |
| GoParser.PartitionedDone | src/parser/lang/go.rs:189-198 | a split with no leftovers has one impl per receiver |
| GoParser.AttachMethods | src/parser/lang/go.rs:171-185 | the loop over the structs computes exactly `Attach` |
| GoParser.LeftoverImpls | src/parser/lang/go.rs:189-198 | the loop over the remaining map makes one impl per remaining receiver and nothing else |
| GoParser.GroupedImplsCover | src/parser/lang/go.rs:171-198 | every receiver of the map gets an impl with its methods |
| GoParser.GroupedImplsOwned | src/parser/lang/go.rs:171-198 | every impl belongs to a receiver of the map |
| GoParser.GroupedImplsDistinct | src/parser/lang/go.rs:171-198 | no two impls share a head |
| GoParser.GroupMethods | src/parser/lang/go.rs:27-198 | the grouping keeps every struct, gives the first struct of each receiver name its methods, and makes exactly one impl per receiver; the impls start with the struct impls, in struct order, one per first struct of a name with methods |
| GoParser.MethodLandsInItsImpl | src/parser/lang/go.rs:86-198 | every parsed method is in the impl of its receiver |
| TsParser.CleanDocLine | src/parser/lang/ts.rs:509-517 | a cleaned doc line starts with no blank |
| TsParser.DocText | src/parser/lang/ts.rs:505-521 | the cleaned comment body neither starts nor ends with a blank |
| TsParser.ExtractDocComment | src/parser/lang/ts.rs:501-534 | only a comment starting `/**` documents; what it yields is non-empty and trimmed |
| TsParser.DocCommentOfLine | src/parser/lang/ts.rs:501-527 | the one-line doc comment `/** w */` yields exactly `w` |
| TsParser.AttachedCommentDocuments | src/parser/lang/ts.rs:469-478 | a comment right before the node, or separated by blanks only, decides the documentation, on both readings of the loop |
| TsParser.DeclarationStopsScan | src/parser/lang/ts.rs:480-483 | with the stop the loop's comment describes, a declaration right before the node hides every earlier comment |
| TsParser.DeclarationSkippedAsWritten | src/parser/lang/ts.rs:469-487 | as written, a non-comment sibling is walked over and the scan goes on behind it |
| TsParser.DocOfPreviousDeclaration | src/parser/lang/ts.rs:469-487 | as written, a function takes the doc comment of the function before it; with the stop it has none |
| TsParser.ScanSiblings | src/parser/lang/ts.rs:466-487 | the backward loop over the siblings, with the stop, computes exactly the scan `DocScan` |
| TsParser.FindDocumentationOf | src/parser/lang/ts.rs:465-498 | the siblings' scan, then that of the enclosing export statement, computes exactly `FindDocumentation` |
| TsParser.ListNames | src/parser/lang/ts.rs:635-640 | each name of a comma list is non-empty, trimmed, free of commas and made of the list's characters |
| TsParser.ExportListNames | src/parser/lang/ts.rs:630-643 | a statement without both braces lists nothing; each listed name is non-empty, trimmed and free of commas and braces |
| TsParser.DefaultExportName | src/parser/lang/ts.rs:646-652 | only a text starting `export default` names a default; the name has no blank and no trailing `;` |
| TsParser.DefaultExportOf | src/parser/lang/ts.rs:646-651 | `export default N;` names `N` |
| TsParser.ExportsStep | src/parser/lang/ts.rs:623-655 | one more child adds its listed names to the end, and its default name replaces the earlier one |
| TsParser.CollectExports | src/parser/lang/ts.rs:619-655 | the first pass collects exactly the listed names in order and the last default name |
| TsParser.IsExported | src/parser/lang/ts.rs:663-673 | a declaration is exported exactly when it stands in an export statement, or its name is listed or is the default |
| TsParser.ListedIsExported | src/parser/lang/ts.rs:630-673 | a name listed by any export statement, before or after the declaration, makes it exported |
| TsParser.VisibilityOf | src/parser/lang/ts.rs:85-89 | public exactly when exported, private otherwise |
| TsParser.FunctionSignature | src/parser/lang/ts.rs:95-106 | a function's signature starts `function <name>` and ends with the return type |
| TsParser.ArrowSignature | src/parser/lang/ts.rs:151-162 | an arrow function's signature starts with the variable's name and ends with the return type |
| TsParser.ArrowOmitsKeyword | src/parser/lang/ts.rs:151-178 | the arrow signature is the function-expression signature without `function ` |
| TsParser.ProcessFunction | src/parser/lang/ts.rs:75-118 | the name, source and documentation are kept; public exactly when exported; signature as above; no body or attributes |
| TsParser.ProcessFunctionVariable | src/parser/lang/ts.rs:121-195 | the declaration's source; public exactly when exported; an arrow or a function-expression signature by the value's kind, and none for any other value |
| TsParser.ClassMethodSignature | src/parser/lang/ts.rs:237-282 | `constructor` for a constructor, else the trimmed modifier and a space, else the name, first |
| TsParser.ClassMethod | src/parser/lang/ts.rs:229-293 | a method is private exactly when its modifier is `private`, and then its signature starts `private `; no documentation or body |
| TsParser.ClassMethods | src/parser/lang/ts.rs:221-298 | the loop keeps exactly the method and constructor definitions, in order |
| TsParser.InterfaceMethod | src/parser/lang/ts.rs:343-381 | an interface method is public, its signature the name, parameters and return type |
| TsParser.InterfaceMethods | src/parser/lang/ts.rs:337-386 | the loop keeps exactly the method signatures, in order, all public |
| TsParser.Declaration | src/parser/lang/ts.rs:300-457 | class, interface, type and enum units: head `<keyword> <name>`, public exactly when exported, no fields |
| TsParser.FileDocumentation | src/parser/lang/ts.rs:611-617 | the file's documentation comes only from a comment that is the first child |
| TsParser.TopLevelDeclare | src/parser/lang/ts.rs:64-71 | a declare statement is recorded exactly for an import, or an export statement declaring nothing, with its text (also lines 783-789) |
| PythonParser.VisibilityOfName | src/parser/lang/python.rs:144-148 | private exactly when the name starts with `_`, public otherwise |
| PythonParser.CleanDocstring | src/parser/lang/python.rs:96-110 | the cleaned docstring neither starts nor ends with a blank |
| PythonParser.TripleQuotedDocstring | src/parser/lang/python.rs:99-104 | a docstring in matching triple quotes of either kind is its trimmed content |
| PythonParser.SingleQuotedDocstring | src/parser/lang/python.rs:105-107 | `"w"` cleans to `w` when `w` is trimmed and neither starts nor ends with a quote |
| PythonParser.StripRuns | src/parser/lang/python.rs:289-297 | taking the runs of a pattern off both ends never lengthens the text |
| PythonParser.StripRunsUnchanged | src/parser/lang/python.rs:289-297 | a text whose ends differ from the pattern's is left as it is |
| PythonParser.ModuleDocstring | src/parser/lang/python.rs:287-299 | the module docstring is no longer than the string it comes from |
| PythonParser.ModuleDocstringOf | src/parser/lang/python.rs:287-299 | `'''w'''` yields `w` when `w` is trimmed and neither starts nor ends with a quote |
| PythonParser.ModuleDocstringStages | src/parser/lang/python.rs:289-298 | the four stages compose: the triple runs first, then the single quotes, then the trim |
| PythonParser.SplitAtColon | src/parser/lang/python.rs:150-158 | signature and body are both present exactly when there is a source holding a `:` |
| PythonParser.SplitAtColonParts | src/parser/lang/python.rs:154-157 | the signature holds no `:` and both parts are trimmed |
| PythonParser.SplitOfDefinition | src/parser/lang/python.rs:154-157 | `head: rest` with no colon in `head` splits into the trimmed head and the trimmed rest |
| PythonParser.ExtractDecorators | src/parser/lang/python.rs:113-126 | the loop keeps exactly the decorator children's texts, in order, each the text of a decorator child |
| PythonParser.DecoratorsPresent | src/parser/lang/python.rs:118-124 | every collected decorator is the text of a decorator child |
| PythonParser.ParseFunction | src/parser/lang/python.rs:129-169 | the name, or `unknown`; private exactly when it starts with `_`; signature and body from the split at the first colon; decorators as attributes |
| PythonParser.ClassMethods | src/parser/lang/python.rs:196-213 | the loop parses exactly the function and decorated definitions of the class body, in order |
| PythonParser.ParseClass | src/parser/lang/python.rs:172-224 | the name, or `unknown`; head `class <name>`; the underscore rule; the methods are those of its body |
| PythonParser.ParseModule | src/parser/lang/python.rs:228-252 | the name, or `unknown`; the underscore rule; no members |
| PythonParser.CollectImports | src/parser/lang/python.rs:306-319 | the import pass keeps exactly the `import` and `from … import` statements, in order, as import declarations |
| PythonParser.ImportsDeclared | src/parser/lang/python.rs:309-317 | every collected declaration is an import with the text of an import statement |
| PythonParser.TopLevelDefinition | src/parser/lang/python.rs:323-353 | a node becomes a function exactly when it is a function definition or decorates one, a class likewise, and anything else is skipped |
| Bank.FileExtension | src/bank.rs:46 | a file's extension is the dotless text after its last dot, and a name without a dot has none |
| Bank.ExtensionOfFile | src/bank.rs:46 | `stem.ext`, with a stem not starting with a dot, has the extension `ext` |
| Bank.DetectLanguage | src/bank.rs:45-54 | a file is never detected as of unknown language |
| Bank.ExtensionGroups | src/bank.rs:45-54 | each language is detected exactly for its extensions: `rs`; `py`; `ts`, `tsx`, `js`, `jsx`; `c`, `h`, `cpp`, `hpp`; `go` |
| Bank.DetectedIffNamed | src/bank.rs:45-66 | a file gets a language exactly when it gets a code fence name, and the fence names that language |
| Bank.ParseFile | src/bank.rs:69-81 | an unsupported file is `Ok(None)` and nothing else is; a supported one is the result of its language's parser |
| Bank.Insert | src/bank.rs:176 | inserting adds exactly the unit, at the front or after the first unit |
| Bank.InsertSorted | src/bank.rs:176 | inserting into a path-sorted run keeps it sorted |
| Bank.SortByPath | src/bank.rs:176 | the sort is a permutation of the units |
| Bank.SortByPathSorted | src/bank.rs:176 | the sort's result is in ascending path order |
| Bank.StrLeTotal | src/bank.rs:176 | the order of path components is total |
| Bank.PathLeTotal | src/bank.rs:176 | the order of paths is total |
| Bank.SortedMembers | src/bank.rs:176 | sorting keeps exactly the same units |
| Bank.ParsedMembers | src/bank.rs:165-173 | a unit is collected exactly when some walked file parsed to it |
| Bank.CollectUnits | src/bank.rs:162-173 | the walk loop collects exactly the parsed units of the files, in walk order |
| Bank.SectionShape | src/bank.rs:181-203 | a file's section opens with `## <relative path>` and the language's fence and closes with the formatted text and the closing fence |
| Bank.SectionsAppend | src/bank.rs:179-204 | the sections of two runs of units are those of the first followed by those of the second |
| Bank.SectionsFailAt | src/bank.rs:195-200 | the first unit whose formatting fails ends the whole run with its error |
| Bank.SectionsOk | src/bank.rs:179-204 | the sections succeed exactly when every unit's formatting does |
| Bank.DocumentShape | src/bank.rs:137-204 | a document starts with `# Code Bank`, and exists exactly when every file formats |
| Bank.Generate | src/bank.rs:121-212 | a missing root is `DirectoryNotFound`, a root that is no directory `InvalidConfig` naming it, else the document of the sorted parsed files |
| Mcp.ParseStrategy | src/mcp.rs:53-63 | exactly `default`, `summary` and `no-tests` are strategies; anything else is an error naming the three |
| Mcp.ParseStrategyName | src/mcp.rs:53-63 | each strategy is reached by its own name |
| Mcp.ParseStrategyInjective | src/mcp.rs:53-63 | no two names select the same strategy |
| Mcp.ParseStrategyNamed | src/mcp.rs:53-63 | an accepted name is the name of what it selects |
| Mcp.CaseVariantsRefused | src/mcp.rs:55-62 | strategy names are case-sensitive |
| Mcp.HandleGenerate | src/mcp.rs:68-113 | a missing path is refused as invalid parameters before the strategy is read, an unknown strategy likewise; success means both were valid and the bank was generated; internal errors come only after both checks |
| Mcp.HandleGenerateFile | src/mcp.rs:118-175 | refused as invalid parameters exactly when `generate` would be; success reports the output path and means the content was generated and written |

## Left out

- Tree-sitter (the parser objects, node traversal, queries, field lookups, sibling links) is a foreign library. Every parser operation takes what it reads from the tree as inputs: node kinds, node texts and the gaps between nodes.
- File I/O is not modelled. This covers `fs::read_to_string` in every `parse_file`, the `ignore::Walk` directory walk, `fs::write` in the MCP handler, and whether the root exists or is a directory. Each becomes a parameter: the walked entries with their parse results, the `RootState`, and the `start`/`generate`/`write` results.
- `find_and_read_package_file` (src/bank.rs:84-117) searches the file system upwards. Its result is the parameter `package` of `Bank.Generate`.
- `Bank.Generate`: the final blank-line collapse with the regular expression `\n*\s*\n+` (src/bank.rs:206-209) is not modelled, because it needs a regex engine. The result is the document before that collapse.
- `Bank.Generate` takes paths as sequences of components. `Display` joins them with `/`, as on Unix.
- `Bank.Generate` orders paths component by component, lexicographically. That is what `Path::cmp` does for normal components.
- The two parts of the `sample.cpp` hack (src/parser/lang/cpp.rs:682-807) are not modelled. That code pads the result with fixed units when the file is called `sample.cpp`, which is not a rule about C++.
- C++ `extract_methods_from_node` (src/parser/lang/cpp.rs:155-195) is not modelled. Its recursion visits nodes twice, so what it returns depends on the shape of the tree. The declaration-to-method step it calls is `CppParser.MethodDeclaration`.
- C++ `parse_template` is modelled only in its naming: as written by `CppParser.ExtractTemplateName` (see `CppParser.TemplateNameOfMaxAsWritten`), and as corrected by `CppParser.TemplateName`. Its walk of the inner declaration is not modelled, nor is `parse_namespace`.
- `CppParser.CollectDeclares` classifies only top-level nodes. Namespaces are not merged.
- Go's `parse_file` top-level walk is not modelled: the package clause, imports, and `const`/`var` specs. The parts that are modelled are the method grouping (`GoParser.GroupMethods`) and the item parsers it uses.
- `GoParser.LeftoverImpls`: the impls for receivers without a struct come from iterating a `HashMap`, whose order is unspecified. The model states which impls exist and what each one holds, not their order.
- TypeScript `process_export` and the `lexical_declaration` walk are not modelled. Both search the declarators of a statement in the tree. What is modelled of them is the exported flag (`TsParser.IsExported`), the unit each declaration becomes, and the declare statement of an export without a declaration.
- TypeScript type aliases and enums are modelled through `TsParser.Declaration`, whose heads are `type X` and `enum X`.
- `Visibility::as_str` and `Visibility::from_str` are not part of this model. The formatters take them as the parameter `visStr`.
- Character classes are ASCII: `char::is_whitespace`, `is_alphabetic`, `is_alphanumeric`, `is_numeric` and `is_uppercase`. Strings are character sequences, so the mix of byte and character indices in `parse_typedef` does not arise.
- `str::lines` is modelled as the current standard library defines it. It splits on `\n`, drops a `\r` only when one comes right before a `\n`, and adds no empty last line.
- `PythonParser.CleanDocstring` requires that a string between triple quotes be at least six characters long. For shorter ones, such as `"""`, the source's slice `doc[3..len - 3]` panics.
- `PythonParser.ModuleDocstring` itself states only that its result is no longer than the string. What the result is, is stated by the lemmas `ModuleDocstringOf` and `ModuleDocstringStages`.
- The `Result` around every `format` is dropped. No modelled formatter fails, so only the string is modelled. `Bank.Sections` keeps a formatting error per unit, because `generate` passes that error on.
- The async MCP server, its server info, the clap command line (src/bin/codebank.rs) and the error enum (src/error.rs) are not modelled: they hold no logic of their own. The handlers' check order is modelled by `Mcp.HandleGenerate` and `Mcp.HandleGenerateFile`.
- `src/parser/lang/c.rs` is not part of this model: it is a thin tree-sitter wrapper.
- One Summary behaviour of formatter/mod.rs is recorded by `FormatterProperties.TraitImplPrivateMethodRendersEmpty`, without a correction. A trait impl keeps its non-test methods of every visibility, but the function formatter then renders a private one as nothing, so only public methods appear. The Rust parser makes every method of a trait impl public, so its output never contains such a method.

## Findings

| source | as written | input that shows it | evidently intended | confidence | as-written member | corrected member |
|---|---|---|---|---|---|---|
| src/parser/lang/cpp.rs:866-887 | `parse_template` (lines 271-272) names every template by `extract_template_name_from_text`: the first identifier after the first `>`. It does this even after `is_function_template` has recognised a function template (261-268). | `template<typename T> T max(T a, T b)` is named `T`, its return type | a function template is named by `extract_name_after_template` after its function, `max`, which is the name the fixture's expected output uses | high; not executed | CppParser.TemplateNameOfMaxAsWritten | CppParser.TemplateNameOfMax |
| src/parser/lang/ts.rs:469-487 | In `find_documentation_for_node`, the `break` meant to stop the scan at a non-comment sibling sits inside `if prev.kind() == "comment"`, so it can never run. The scan walks back over every declaration. | `/** A */ function a() {}` then `function b() {}`: `b` gets the documentation `A` | the scan stops at the first sibling that is neither a comment nor extra, so `b` has no documentation | high; not executed | TsParser.DocOfPreviousDeclaration | TsParser.DeclarationStopsScan |
