/**
 * `src/parser/formatters.rs`: the older `Formatter::format(strategy)` over
 * the `LegacyUnits` datatypes.  It has no per-language rules: documentation
 * is always marked `///`, a test function is one with an attribute exactly
 * `#[test]`, and a test module one with an attribute containing
 * `#[cfg(test)]` or named `tests`.  The `L...Text` functions say what each
 * `format` produces; the `LFormat...` methods build it as the source does.
 * Every `format` returns `Ok`; the `Result` wrapper is dropped.
 */
module LegacyFormatter {
  import opened Wrappers
  import opened Strings
  import opened Codebank
  import opened Units
  import opened LegacyUnits

  // ------------------------------------------------------------ pieces

  function LDocLine(indent: string): string -> string
  {
    (line: string) => indent + "/// " + line + "\n"
  }

  /** Documentation, one `///` line per line of the text, after `indent`. */
  function LDocText(indent: string, doc: Option<string>): string
  {
    match doc
    case None => []
    case Some(d) => ConcatMap(Lines(d), LDocLine(indent))
  }

  function LAttrLine(indent: string): string -> string
  {
    (a: string) => indent + a + "\n"
  }

  /** Attributes, one per line, after `indent`; none is skipped. */
  function LAttrText(indent: string, attrs: seq<string>): string
  {
    ConcatMap(attrs, LAttrLine(indent))
  }

  /** An item nested one level: indented, then a blank line (`"    {}\n\n"`). */
  function LIndented(t: string): string
  {
    "    " + IndentNewlines(t) + "\n\n"
  }

  /** Appends an item, one level in, followed by a blank line. */
  method PushLIndented(out0: string, formatted: string) returns (out: string)
    ensures out == out0 + LIndented(formatted)
  {
    out := out0 + ("    " + IndentNewlines(formatted) + "\n\n");
  }

  /** The same, but nothing for an empty item. */
  function LNested(t: string): string
  {
    if t == [] then [] else LIndented(t)
  }

  predicate LIsTestFunction(f: FunctionItem)
  {
    "#[test]" in f.attributes
  }

  predicate LIsTestModule(m: ModuleItem)
  {
    AnyContains(m.attributes, "#[cfg(test)]") || m.name == "tests"
  }

  // --------------------------------------------------------- functions

  function LParamText(p: ParameterItem): string
  {
    p.name + ": " + p.parameterType
  }

  /** The signature `Summary` builds when a function has none: `pub fn name(p: T, ...)[ -> R]`. */
  function LBuiltSignature(f: FunctionItem): (sig: string)
    ensures StartsWith(sig, "pub fn " + f.name + "(")
    ensures f.returnType.None? ==> EndsWith(sig, ")")
    ensures f.returnType.Some? ==> EndsWith(sig, ") -> " + f.returnType.value)
  {
    var head := "pub fn " + f.name + "(";
    var params := Join(MapSeq(f.parameters, LParamText), ", ");
    var tail := match f.returnType case Some(t) => ") -> " + t case None => ")";
    Enclosed(head, params, tail);
    head + params + tail
  }

  /** What `Summary` shows of a public function after its docs and attributes. */
  function LSummarySignature(f: FunctionItem): string
  {
    match f.signature
    case Some(sig) => sig + " { ... }"
    case None => LBuiltSignature(f) + " { ... }"
  }

  /** `format` for a `FunctionUnit`. */
  function LFunctionText(strategy: BankStrategy, f: FunctionItem): string
  {
    match strategy
    case Default => f.source.UnwrapOr([])
    case NoTests =>
      if LIsTestFunction(f) then []
      else LDocText("", f.documentation) + LAttrText("", f.attributes) + f.source.UnwrapOr([])
    case Summary =>
      if f.visibility != Public then []
      else LDocText("", f.documentation) + LAttrText("", f.attributes) + LSummarySignature(f)
  }

  // ----------------------------------------------------------- structs

  function LFieldDecl(f: FieldItem): string
  {
    if f.visibility == Public then "    pub " + f.name + ": " + f.fieldType + ",\n"
    else "    " + f.name + ": " + f.fieldType + ",\n"
  }

  /** A field: its docs and attributes indented, then its declaration. */
  function LFieldText(f: FieldItem): string
  {
    LDocText("    ", f.documentation) + LAttrText("    ", f.attributes) + LFieldDecl(f)
  }

  /** The fields of a struct body: all of them, or under `Summary` the public ones. */
  function LFieldLine(strategy: BankStrategy): FieldItem -> string
  {
    (f: FieldItem) => if strategy == Summary && f.visibility != Public then [] else LFieldText(f)
  }

  function LStructHead(s: StructItem): string
  {
    (if s.visibility == Public then "pub struct " else "struct ") + s.name + " {\n"
  }

  /** `format` for a `StructUnit`. */
  function LStructText(strategy: BankStrategy, s: StructItem): string
  {
    if strategy == Default then s.source.UnwrapOr([])
    else if strategy == Summary && s.visibility != Public then []
    else
      LDocText("", s.documentation) + LAttrText("", s.attributes) + LStructHead(s)
      + ConcatMap(s.fields, LFieldLine(strategy)) + "}\n"
  }

  // ------------------------------------------------------------ traits

  /** A trait method: `NoTests` skips `#[test]` methods; empty output is skipped. */
  function LTraitMethodLine(strategy: BankStrategy): FunctionItem -> string
  {
    (m: FunctionItem) => if strategy == NoTests && LIsTestFunction(m) then [] else LNested(LFunctionText(strategy, m))
  }

  function LTraitHead(t: TraitItem): string
  {
    (if t.visibility == Public then "pub trait " else "trait ") + t.name + " {\n"
  }

  /** `format` for a `TraitUnit`. */
  function LTraitText(strategy: BankStrategy, t: TraitItem): string
  {
    if strategy == Default then t.source.UnwrapOr([])
    else if strategy == Summary && t.visibility != Public then []
    else
      LDocText("", t.documentation) + LAttrText("", t.attributes) + LTraitHead(t)
      + ConcatMap(t.methods, LTraitMethodLine(strategy)) + "}\n"
  }

  // ------------------------------------------------------------- impls

  /** An impl method: `NoTests` skips `#[test]` methods, `Summary` keeps public ones; empty output is skipped. */
  function LImplMethodLine(strategy: BankStrategy): FunctionItem -> string
  {
    (m: FunctionItem) =>
      if (strategy == NoTests && LIsTestFunction(m)) || (strategy == Summary && m.visibility != Public) then []
      else LNested(LFunctionText(strategy, m))
  }

  function LImplHead(i: ImplItem): string
  {
    match i.traitName
    case Some(t) => "impl " + t + " for " + i.targetType + " {\n"
    case None => "impl " + i.targetType + " {\n"
  }

  /** `format` for an `ImplUnit`: nothing at all when no method produced output. */
  function LImplText(strategy: BankStrategy, i: ImplItem): string
  {
    if strategy == Default then i.source.UnwrapOr([])
    else
      var body := ConcatMap(i.methods, LImplMethodLine(strategy));
      if body == [] then []
      else LDocText("", i.documentation) + LAttrText("", i.attributes) + LImplHead(i) + body + "}\n"
  }

  // ----------------------------------------------------------- modules

  function LModFunctionLine(strategy: BankStrategy): FunctionItem -> string
  {
    (f: FunctionItem) =>
      if (strategy == Summary && f.visibility != Public) || (strategy != Summary && LIsTestFunction(f)) then []
      else LIndented(LFunctionText(strategy, f))
  }

  function LModStructLine(strategy: BankStrategy): StructItem -> string
  {
    (s: StructItem) => if strategy == Summary && s.visibility != Public then [] else LIndented(LStructText(strategy, s))
  }

  function LModTraitLine(strategy: BankStrategy): TraitItem -> string
  {
    (t: TraitItem) => if strategy == Summary && t.visibility != Public then [] else LIndented(LTraitText(strategy, t))
  }

  /** Impls in a module body: every one under `NoTests`; under `Summary` only those with output. */
  function LModImplLine(strategy: BankStrategy): ImplItem -> string
  {
    (i: ImplItem) => if strategy == Summary then LNested(LImplText(strategy, i)) else LIndented(LImplText(strategy, i))
  }

  function LModuleHead(m: ModuleItem): string
  {
    (if m.visibility == Public then "pub mod " else "mod ") + m.name + " {\n"
  }

  /** `format` for a `ModuleUnit`. */
  function LModuleText(strategy: BankStrategy, m: ModuleItem): string
    decreases m, 1
  {
    if strategy == Default then m.source.UnwrapOr([])
    else
      var pre := LDocText("", m.document) + LAttrText("", m.attributes);
      if strategy == Summary && m.visibility != Public then pre
      else pre + LModuleHead(m) + LModuleBody(strategy, m) + "}\n"
  }

  /** The items of a module body, in the order the source emits them. */
  function LModuleBody(strategy: BankStrategy, m: ModuleItem): string
    decreases m, 0
  {
    ConcatMap(m.functions, LModFunctionLine(strategy))
    + ConcatMap(m.structs, LModStructLine(strategy))
    + ConcatMap(m.traits, LModTraitLine(strategy))
    + ConcatMap(m.impls, LModImplLine(strategy))
    + LSubmodulesText(strategy, m.submodules)
  }

  /** Submodules: `NoTests` skips test modules, `Summary` keeps public ones. */
  function LSubmodulesText(strategy: BankStrategy, subs: seq<ModuleItem>): string
    decreases subs, 0
  {
    if subs == [] then []
    else
      LSubmodulesText(strategy, subs[..|subs| - 1]) + LSubmoduleBlock(strategy, subs[|subs| - 1])
  }

  /** What one submodule adds to its parent's body. */
  function LSubmoduleBlock(strategy: BankStrategy, sub: ModuleItem): string
    decreases sub, 2
  {
    if (strategy == Summary && sub.visibility != Public) || (strategy != Summary && LIsTestModule(sub)) then []
    else LIndented(LModuleText(strategy, sub))
  }

  // ------------------------------------------------------------- files

  function LFileModuleLine(strategy: BankStrategy): ModuleItem -> string
  {
    (m: ModuleItem) =>
      if (strategy == Summary && m.visibility != Public) || (strategy != Summary && LIsTestModule(m)) then []
      else LModuleText(strategy, m) + "\n\n"
  }

  function LFileFunctionLine(strategy: BankStrategy): FunctionItem -> string
  {
    (f: FunctionItem) =>
      if (strategy == Summary && f.visibility != Public) || (strategy != Summary && LIsTestFunction(f)) then []
      else LFunctionText(strategy, f) + "\n\n"
  }

  function LFileStructLine(strategy: BankStrategy): StructItem -> string
  {
    (s: StructItem) => if strategy == Summary && s.visibility != Public then [] else LStructText(strategy, s) + "\n\n"
  }

  function LFileTraitLine(strategy: BankStrategy): TraitItem -> string
  {
    (t: TraitItem) => if strategy == Summary && t.visibility != Public then [] else LTraitText(strategy, t) + "\n\n"
  }

  function LFileImplLine(strategy: BankStrategy): ImplItem -> string
  {
    (i: ImplItem) => LImplText(strategy, i) + "\n\n"
  }

  /** `format` for a `FileUnit`. */
  function LFileText(strategy: BankStrategy, f: FileItem): string
  {
    if strategy == Default then f.source.UnwrapOr([])
    else
      ConcatMap(f.modules, LFileModuleLine(strategy))
      + ConcatMap(f.functions, LFileFunctionLine(strategy))
      + ConcatMap(f.structs, LFileStructLine(strategy))
      + ConcatMap(f.traits, LFileTraitLine(strategy))
      + ConcatMap(f.impls, LFileImplLine(strategy))
  }

  // ----------------------------------------------------------- methods

  /** Appends documentation lines, each `indent + "/// " + line`. */
  method AppendLDoc(out0: string, indent: string, doc: Option<string>) returns (out: string)
    ensures out == out0 + LDocText(indent, doc)
  {
    out := out0;
    if doc.Some? {
      var lines := Lines(doc.value);
      var i := 0;
      while i < |lines|
        invariant 0 <= i <= |lines|
        invariant out == out0 + ConcatMap(lines[..i], LDocLine(indent))
      {
        ConcatMapStep(out0, lines, i, LDocLine(indent));
        out := out + (indent + "/// " + lines[i] + "\n");
        i := i + 1;
      }
      SeqTakeAll(lines);
    }
  }

  /** Appends each attribute on its own line after `indent`. */
  method AppendLAttrs(out0: string, indent: string, attrs: seq<string>) returns (out: string)
    ensures out == out0 + LAttrText(indent, attrs)
  {
    out := out0;
    var i := 0;
    while i < |attrs|
      invariant 0 <= i <= |attrs|
      invariant out == out0 + ConcatMap(attrs[..i], LAttrLine(indent))
    {
      ConcatMapStep(out0, attrs, i, LAttrLine(indent));
      out := out + (indent + attrs[i] + "\n");
      i := i + 1;
    }
    SeqTakeAll(attrs);
  }

  /** Documentation then attributes at the top level of an item. */
  method WriteLPreamble(doc: Option<string>, attrs: seq<string>) returns (out: string)
    ensures out == LDocText("", doc) + LAttrText("", attrs)
  {
    out := [];
    if doc.Some? {
      out := AppendLDoc(out, "", doc);
    }
    out := AppendLAttrs(out, "", attrs);
  }

  /** `format` for a `FunctionUnit`. */
  method LFormatFunction(strategy: BankStrategy, f: FunctionItem) returns (out: string)
    ensures out == LFunctionText(strategy, f)
  {
    if strategy == Default {
      return f.source.UnwrapOr([]);
    }
    if strategy == NoTests {
      if "#[test]" in f.attributes {
        return [];
      }
      out := WriteLPreamble(f.documentation, f.attributes);
      if f.source.Some? {
        out := out + f.source.value;
      }
    } else {
      if f.visibility != Public {
        return [];
      }
      out := WriteLPreamble(f.documentation, f.attributes);
      if f.signature.Some? {
        out := out + (f.signature.value + " { ... }");
      } else {
        var params := Join(MapSeq(f.parameters, LParamText), ", ");
        var tail := if f.returnType.Some? then ") -> " + f.returnType.value else ")";
        var sig := "pub fn " + f.name + "(" + params + tail;
        assert sig == LBuiltSignature(f);
        out := out + (sig + " { ... }");
      }
    }
  }

  /** What one field adds to a struct body (`LFieldLine`). */
  method FormatLFieldLine(strategy: BankStrategy, fd: FieldItem) returns (piece: string)
    ensures piece == LFieldLine(strategy)(fd)
  {
    piece := [];
    if strategy != Summary || fd.visibility == Public {
      piece := AppendLDoc(piece, "    ", fd.documentation);
      piece := AppendLAttrs(piece, "    ", fd.attributes);
      if fd.visibility == Public {
        piece := piece + ("    pub " + fd.name + ": " + fd.fieldType + ",\n");
      } else {
        piece := piece + ("    " + fd.name + ": " + fd.fieldType + ",\n");
      }
      assert piece == LFieldText(fd) by {
        assert [] + LDocText("    ", fd.documentation) == LDocText("    ", fd.documentation);
      }
    }
  }

  /** Appends the fields a struct body shows. */
  method AppendLFields(out0: string, strategy: BankStrategy, fields: seq<FieldItem>) returns (out: string)
    ensures out == out0 + ConcatMap(fields, LFieldLine(strategy))
  {
    out := out0;
    var i := 0;
    while i < |fields|
      invariant 0 <= i <= |fields|
      invariant out == out0 + ConcatMap(fields[..i], LFieldLine(strategy))
    {
      var piece := FormatLFieldLine(strategy, fields[i]);
      ConcatMapPush(out0, fields, i, LFieldLine(strategy), out, piece);
      out := out + piece;
      i := i + 1;
    }
    SeqTakeAll(fields);
  }

  /** `format` for a `StructUnit`. */
  method LFormatStruct(strategy: BankStrategy, s: StructItem) returns (out: string)
    ensures out == LStructText(strategy, s)
  {
    if strategy == Default {
      return s.source.UnwrapOr([]);
    }
    if strategy == Summary && s.visibility != Public {
      return [];
    }
    out := WriteLPreamble(s.documentation, s.attributes);
    if s.visibility == Public {
      out := out + ("pub struct " + s.name + " {\n");
    } else {
      out := out + ("struct " + s.name + " {\n");
    }
    out := AppendLFields(out, strategy, s.fields);
    out := out + "}\n";
  }

  /** What one element adds to the output (`LTraitMethodLine`). */
  method FormatLTraitMethodLine(strategy: BankStrategy, item: FunctionItem) returns (piece: string)
    ensures piece == LTraitMethodLine(strategy)(item)
  {
    piece := [];
    if strategy != NoTests || "#[test]" !in item.attributes {
      var formatted := LFormatFunction(strategy, item);
      if formatted != [] {
        piece := PushLIndented(piece, formatted);
      }
    }
  }

  /** Appends the methods a trait body shows, each nested one level. */
  method AppendLTraitMethods(out0: string, strategy: BankStrategy, methods: seq<FunctionItem>) returns (out: string)
    ensures out == out0 + ConcatMap(methods, LTraitMethodLine(strategy))
  {
    out := out0;
    var i := 0;
    while i < |methods|
      invariant 0 <= i <= |methods|
      invariant out == out0 + ConcatMap(methods[..i], LTraitMethodLine(strategy))
    {
      var piece := FormatLTraitMethodLine(strategy, methods[i]);
      ConcatMapPush(out0, methods, i, LTraitMethodLine(strategy), out, piece);
      out := out + piece;
      i := i + 1;
    }
    SeqTakeAll(methods);
  }

  /** `format` for a `TraitUnit`. */
  method LFormatTrait(strategy: BankStrategy, t: TraitItem) returns (out: string)
    ensures out == LTraitText(strategy, t)
  {
    if strategy == Default {
      return t.source.UnwrapOr([]);
    }
    if strategy == Summary && t.visibility != Public {
      return [];
    }
    out := WriteLPreamble(t.documentation, t.attributes);
    if t.visibility == Public {
      out := out + ("pub trait " + t.name + " {\n");
    } else {
      out := out + ("trait " + t.name + " {\n");
    }
    out := AppendLTraitMethods(out, strategy, t.methods);
    out := out + "}\n";
  }

  /** Appends the methods an impl body shows; `hasMethods` records whether any was. */
  method AppendLImplMethods(out0: string, strategy: BankStrategy, methods: seq<FunctionItem>)
    returns (out: string, hasMethods: bool)
    ensures out == out0 + ConcatMap(methods, LImplMethodLine(strategy))
    ensures hasMethods <==> ConcatMap(methods, LImplMethodLine(strategy)) != []
  {
    out := out0;
    hasMethods := false;
    var i := 0;
    while i < |methods|
      invariant 0 <= i <= |methods|
      invariant out == out0 + ConcatMap(methods[..i], LImplMethodLine(strategy))
      invariant hasMethods <==> ConcatMap(methods[..i], LImplMethodLine(strategy)) != []
    {
      ConcatMapStep(out0, methods, i, LImplMethodLine(strategy));
      ConcatMapSnoc(methods, i, LImplMethodLine(strategy));
      var m := methods[i];
      if (strategy != NoTests || "#[test]" !in m.attributes) && (strategy != Summary || m.visibility == Public) {
        var formatted := LFormatFunction(strategy, m);
        if formatted != [] {
          out := PushLIndented(out, formatted);
          hasMethods := true;
        }
      }
      i := i + 1;
    }
    SeqTakeAll(methods);
  }

  /** `format` for an `ImplUnit`, with the source's `has_methods` flag. */
  method LFormatImpl(strategy: BankStrategy, i: ImplItem) returns (out: string)
    ensures out == LImplText(strategy, i)
  {
    if strategy == Default {
      return i.source.UnwrapOr([]);
    }
    out := WriteLPreamble(i.documentation, i.attributes);
    if i.traitName.Some? {
      out := out + ("impl " + i.traitName.value + " for " + i.targetType + " {\n");
    } else {
      out := out + ("impl " + i.targetType + " {\n");
    }
    var hasMethods;
    out, hasMethods := AppendLImplMethods(out, strategy, i.methods);
    if hasMethods {
      out := out + "}\n";
    } else {
      return [];
    }
  }

  /** `format` for a `ModuleUnit`. */
  method LFormatModule(strategy: BankStrategy, m: ModuleItem) returns (out: string)
    ensures out == LModuleText(strategy, m)
    decreases m, 1
  {
    if strategy == Default {
      return m.source.UnwrapOr([]);
    }
    out := WriteLPreamble(m.document, m.attributes);
    if strategy == NoTests || m.visibility == Public {
      if m.visibility == Public {
        out := out + ("pub mod " + m.name + " {\n");
      } else {
        out := out + ("mod " + m.name + " {\n");
      }
      out := AppendLModuleBody(out, strategy, m);
      out := out + "}\n";
    }
  }

  /** Appends the items of a module body, one loop per kind of item. */
  method AppendLModuleBody(out0: string, strategy: BankStrategy, m: ModuleItem) returns (out: string)
    ensures out == out0 + LModuleBody(strategy, m)
    decreases m, 0
  {
    ghost var functions := ConcatMap(m.functions, LModFunctionLine(strategy));
    ghost var structs := ConcatMap(m.structs, LModStructLine(strategy));
    ghost var traits := ConcatMap(m.traits, LModTraitLine(strategy));
    ghost var impls := ConcatMap(m.impls, LModImplLine(strategy));
    out := AppendLModFunctions(out0, strategy, m.functions);
    out := AppendLModStructs(out, strategy, m.structs);
    AppendAssoc(out0, functions, structs);
    out := AppendLModTraits(out, strategy, m.traits);
    AppendAssoc(out0, functions + structs, traits);
    out := AppendLModImpls(out, strategy, m.impls);
    AppendAssoc(out0, functions + structs + traits, impls);
    out := AppendLSubmodules(out, strategy, m.submodules);
    AppendAssoc(out0, functions + structs + traits + impls, LSubmodulesText(strategy, m.submodules));
  }

  /** What one element adds to the output (`LModFunctionLine`). */
  method FormatLModFunctionLine(strategy: BankStrategy, item: FunctionItem) returns (piece: string)
    ensures piece == LModFunctionLine(strategy)(item)
  {
    piece := [];
    var f := item;
    if (strategy == Summary && f.visibility == Public) || (strategy != Summary && "#[test]" !in f.attributes) {
      var formatted := LFormatFunction(strategy, f);
      piece := PushLIndented(piece, formatted);
    }
  }

  method AppendLModFunctions(out0: string, strategy: BankStrategy, functions: seq<FunctionItem>) returns (out: string)
    ensures out == out0 + ConcatMap(functions, LModFunctionLine(strategy))
  {
    out := out0;
    var i := 0;
    while i < |functions|
      invariant 0 <= i <= |functions|
      invariant out == out0 + ConcatMap(functions[..i], LModFunctionLine(strategy))
    {
      var piece := FormatLModFunctionLine(strategy, functions[i]);
      ConcatMapPush(out0, functions, i, LModFunctionLine(strategy), out, piece);
      out := out + piece;
      i := i + 1;
    }
    SeqTakeAll(functions);
  }

  /** What one element adds to the output (`LModStructLine`). */
  method FormatLModStructLine(strategy: BankStrategy, item: StructItem) returns (piece: string)
    ensures piece == LModStructLine(strategy)(item)
  {
    piece := [];
    if strategy != Summary || item.visibility == Public {
      var formatted := LFormatStruct(strategy, item);
      piece := PushLIndented(piece, formatted);
    }
  }

  method AppendLModStructs(out0: string, strategy: BankStrategy, structs: seq<StructItem>) returns (out: string)
    ensures out == out0 + ConcatMap(structs, LModStructLine(strategy))
  {
    out := out0;
    var i := 0;
    while i < |structs|
      invariant 0 <= i <= |structs|
      invariant out == out0 + ConcatMap(structs[..i], LModStructLine(strategy))
    {
      var piece := FormatLModStructLine(strategy, structs[i]);
      ConcatMapPush(out0, structs, i, LModStructLine(strategy), out, piece);
      out := out + piece;
      i := i + 1;
    }
    SeqTakeAll(structs);
  }

  /** What one element adds to the output (`LModTraitLine`). */
  method FormatLModTraitLine(strategy: BankStrategy, item: TraitItem) returns (piece: string)
    ensures piece == LModTraitLine(strategy)(item)
  {
    piece := [];
    if strategy != Summary || item.visibility == Public {
      var formatted := LFormatTrait(strategy, item);
      piece := PushLIndented(piece, formatted);
    }
  }

  method AppendLModTraits(out0: string, strategy: BankStrategy, traits: seq<TraitItem>) returns (out: string)
    ensures out == out0 + ConcatMap(traits, LModTraitLine(strategy))
  {
    out := out0;
    var i := 0;
    while i < |traits|
      invariant 0 <= i <= |traits|
      invariant out == out0 + ConcatMap(traits[..i], LModTraitLine(strategy))
    {
      var piece := FormatLModTraitLine(strategy, traits[i]);
      ConcatMapPush(out0, traits, i, LModTraitLine(strategy), out, piece);
      out := out + piece;
      i := i + 1;
    }
    SeqTakeAll(traits);
  }

  /** What one element adds to the output (`LModImplLine`). */
  method FormatLModImplLine(strategy: BankStrategy, item: ImplItem) returns (piece: string)
    ensures piece == LModImplLine(strategy)(item)
  {
    piece := [];
    var formatted := LFormatImpl(strategy, item);
    if strategy != Summary || formatted != [] {
      piece := PushLIndented(piece, formatted);
    }
  }

  method AppendLModImpls(out0: string, strategy: BankStrategy, impls: seq<ImplItem>) returns (out: string)
    ensures out == out0 + ConcatMap(impls, LModImplLine(strategy))
  {
    out := out0;
    var i := 0;
    while i < |impls|
      invariant 0 <= i <= |impls|
      invariant out == out0 + ConcatMap(impls[..i], LModImplLine(strategy))
    {
      var piece := FormatLModImplLine(strategy, impls[i]);
      ConcatMapPush(out0, impls, i, LModImplLine(strategy), out, piece);
      out := out + piece;
      i := i + 1;
    }
    SeqTakeAll(impls);
  }

  method AppendLSubmodules(out0: string, strategy: BankStrategy, subs: seq<ModuleItem>) returns (out: string)
    ensures out == out0 + LSubmodulesText(strategy, subs)
    decreases subs, 0
  {
    out := out0;
    var i := 0;
    while i < |subs|
      invariant 0 <= i <= |subs|
      invariant out == out0 + LSubmodulesText(strategy, subs[..i])
    {
      SeqTakeStep(subs, i);
      var piece := FormatLSubmoduleBlock(strategy, subs[i]);
      AppendAssoc(out0, LSubmodulesText(strategy, subs[..i]), piece);
      out := out + piece;
      i := i + 1;
    }
    SeqTakeAll(subs);
  }

  /** What one submodule adds to the output (`LSubmoduleBlock`). */
  method FormatLSubmoduleBlock(strategy: BankStrategy, sub: ModuleItem) returns (piece: string)
    ensures piece == LSubmoduleBlock(strategy, sub)
    decreases sub, 2
  {
    if (strategy == Summary && sub.visibility != Public) || (strategy != Summary && LIsTestModule(sub)) {
      piece := [];
    } else {
      var formatted := LFormatModule(strategy, sub);
      piece := "    " + IndentNewlines(formatted) + "\n\n";
    }
  }

  /** `format` for a `FileUnit`: modules, functions, structs, traits, impls. */
  method LFormatFile(strategy: BankStrategy, f: FileItem) returns (out: string)
    ensures out == LFileText(strategy, f)
  {
    if strategy == Default {
      return f.source.UnwrapOr([]);
    }
    out := AppendLFileModules([], strategy, f.modules);
    assert out == ConcatMap(f.modules, LFileModuleLine(strategy));
    out := AppendLFileFunctions(out, strategy, f.functions);
    out := AppendLFileStructs(out, strategy, f.structs);
    out := AppendLFileTraits(out, strategy, f.traits);
    out := AppendLFileImpls(out, strategy, f.impls);
  }

  /** What one element adds to the output (`LFileModuleLine`). */
  method FormatLFileModuleLine(strategy: BankStrategy, item: ModuleItem) returns (piece: string)
    ensures piece == LFileModuleLine(strategy)(item)
  {
    piece := [];
    var m := item;
    if (strategy == Summary && m.visibility == Public) || (strategy != Summary && !LIsTestModule(m)) {
      var formatted := LFormatModule(strategy, m);
      piece := formatted + "\n\n";
    }
  }

  method AppendLFileModules(out0: string, strategy: BankStrategy, modules: seq<ModuleItem>) returns (out: string)
    ensures out == out0 + ConcatMap(modules, LFileModuleLine(strategy))
  {
    out := out0;
    var i := 0;
    while i < |modules|
      invariant 0 <= i <= |modules|
      invariant out == out0 + ConcatMap(modules[..i], LFileModuleLine(strategy))
    {
      var piece := FormatLFileModuleLine(strategy, modules[i]);
      ConcatMapPush(out0, modules, i, LFileModuleLine(strategy), out, piece);
      out := out + piece;
      i := i + 1;
    }
    SeqTakeAll(modules);
  }

  /** What one element adds to the output (`LFileFunctionLine`). */
  method FormatLFileFunctionLine(strategy: BankStrategy, item: FunctionItem) returns (piece: string)
    ensures piece == LFileFunctionLine(strategy)(item)
  {
    piece := [];
    var fn := item;
    if (strategy == Summary && fn.visibility == Public) || (strategy != Summary && "#[test]" !in fn.attributes) {
      var formatted := LFormatFunction(strategy, fn);
      piece := formatted + "\n\n";
    }
  }

  method AppendLFileFunctions(out0: string, strategy: BankStrategy, functions: seq<FunctionItem>) returns (out: string)
    ensures out == out0 + ConcatMap(functions, LFileFunctionLine(strategy))
  {
    out := out0;
    var i := 0;
    while i < |functions|
      invariant 0 <= i <= |functions|
      invariant out == out0 + ConcatMap(functions[..i], LFileFunctionLine(strategy))
    {
      var piece := FormatLFileFunctionLine(strategy, functions[i]);
      ConcatMapPush(out0, functions, i, LFileFunctionLine(strategy), out, piece);
      out := out + piece;
      i := i + 1;
    }
    SeqTakeAll(functions);
  }

  /** What one element adds to the output (`LFileStructLine`). */
  method FormatLFileStructLine(strategy: BankStrategy, item: StructItem) returns (piece: string)
    ensures piece == LFileStructLine(strategy)(item)
  {
    piece := [];
    if strategy != Summary || item.visibility == Public {
      var formatted := LFormatStruct(strategy, item);
      piece := formatted + "\n\n";
    }
  }

  method AppendLFileStructs(out0: string, strategy: BankStrategy, structs: seq<StructItem>) returns (out: string)
    ensures out == out0 + ConcatMap(structs, LFileStructLine(strategy))
  {
    out := out0;
    var i := 0;
    while i < |structs|
      invariant 0 <= i <= |structs|
      invariant out == out0 + ConcatMap(structs[..i], LFileStructLine(strategy))
    {
      var piece := FormatLFileStructLine(strategy, structs[i]);
      ConcatMapPush(out0, structs, i, LFileStructLine(strategy), out, piece);
      out := out + piece;
      i := i + 1;
    }
    SeqTakeAll(structs);
  }

  /** The line of one top-level trait. */
  method FormatLFileTraitLine(strategy: BankStrategy, t: TraitItem) returns (line: string)
    ensures line == LFileTraitLine(strategy)(t)
  {
    line := [];
    if strategy != Summary || t.visibility == Public {
      var formatted := LFormatTrait(strategy, t);
      line := formatted + "\n\n";
    }
  }

  method AppendLFileTraits(out0: string, strategy: BankStrategy, traits: seq<TraitItem>) returns (out: string)
    ensures out == out0 + ConcatMap(traits, LFileTraitLine(strategy))
  {
    out := out0;
    var i := 0;
    while i < |traits|
      invariant 0 <= i <= |traits|
      invariant out == out0 + ConcatMap(traits[..i], LFileTraitLine(strategy))
    {
      var line := FormatLFileTraitLine(strategy, traits[i]);
      ConcatMapPush(out0, traits, i, LFileTraitLine(strategy), out, line);
      out := out + line;
      i := i + 1;
    }
    SeqTakeAll(traits);
  }

  /** What one element adds to the output (`LFileImplLine`). */
  method FormatLFileImplLine(strategy: BankStrategy, item: ImplItem) returns (piece: string)
    ensures piece == LFileImplLine(strategy)(item)
  {
    piece := [];
    var formatted := LFormatImpl(strategy, item);
    piece := formatted + "\n\n";
  }

  method AppendLFileImpls(out0: string, strategy: BankStrategy, impls: seq<ImplItem>) returns (out: string)
    ensures out == out0 + ConcatMap(impls, LFileImplLine(strategy))
  {
    out := out0;
    var i := 0;
    while i < |impls|
      invariant 0 <= i <= |impls|
      invariant out == out0 + ConcatMap(impls[..i], LFileImplLine(strategy))
    {
      var piece := FormatLFileImplLine(strategy, impls[i]);
      ConcatMapPush(out0, impls, i, LFileImplLine(strategy), out, piece);
      out := out + piece;
      i := i + 1;
    }
    SeqTakeAll(impls);
  }

  // -------------------------------------------------------- properties

  /** Under `Default`, files, modules and functions are their own source. */
  lemma LDefaultKeepsSource(file: FileItem, m: ModuleItem, f: FunctionItem)
    ensures LFileText(Default, file) == file.source.UnwrapOr([])
    ensures LModuleText(Default, m) == m.source.UnwrapOr([])
    ensures LFunctionText(Default, f) == f.source.UnwrapOr([])
  {
  }

  /** Under `NoTests`, a function with an attribute exactly `#[test]` is rendered as nothing. */
  lemma LNoTestsOmitsTestFunction(f: FunctionItem, k: nat)
    requires k < |f.attributes| && f.attributes[k] == "#[test]"
    ensures LFunctionText(NoTests, f) == []
  {
  }

  /**
   * Under `Summary`, a non-public function is nothing, and a public one ends
   * with its signature, or the signature built from its parts, then `" { ... }"`.
   */
  lemma LSummaryFunction(f: FunctionItem)
    ensures var out := LFunctionText(Summary, f);
            && (f.visibility != Public ==> out == [])
            && (f.visibility == Public && f.signature.Some? ==> EndsWith(out, f.signature.value + " { ... }"))
            && (f.visibility == Public && f.signature.None? ==> EndsWith(out, LBuiltSignature(f) + " { ... }"))
            && (f.visibility == Public ==> EndsWith(out, " { ... }"))
  {
    if f.visibility == Public {
      var pre := LDocText("", f.documentation) + LAttrText("", f.attributes);
      var sig := if f.signature.Some? then f.signature.value else LBuiltSignature(f);
      EndsWithSuffix(pre, sig + " { ... }");
      AppendAssoc(pre, sig, " { ... }");
      EndsWithSuffix(pre + sig, " { ... }");
    }
  }

  /** A public field's text ends with `"    pub name: type,\n"`. */
  lemma LPublicFieldLine(f: FieldItem)
    requires f.visibility == Public
    ensures EndsWith(LFieldText(f), "    pub " + f.name + ": " + f.fieldType + ",\n")
  {
    EndsWithSuffix(LDocText("    ", f.documentation) + LAttrText("    ", f.attributes), LFieldDecl(f));
  }

  /**
   * Under `Summary`, a public struct is what `NoTests` shows of the same
   * struct with only its public fields.
   */
  lemma LStructSummaryPublicFields(s: StructItem)
    requires s.visibility == Public
    ensures LStructText(Summary, s) == LStructText(NoTests, s.(fields := Filter(s.fields, (f: FieldItem) => f.visibility == Public)))
  {
    ConcatMapFilter(s.fields, (f: FieldItem) => f.visibility == Public, LFieldLine(NoTests), LFieldLine(Summary));
  }

  /** Under `NoTests` and `Summary`, an impl is nothing exactly when its method lines are. */
  lemma LImplEmptyIffBody(strategy: BankStrategy, i: ImplItem)
    requires strategy != Default
    ensures LImplText(strategy, i) == [] <==> ConcatMap(i.methods, LImplMethodLine(strategy)) == []
  {
    if ConcatMap(i.methods, LImplMethodLine(strategy)) != [] {
      LImplNonEmpty(strategy, i);
    }
  }

  /** Under `NoTests`, an impl is nothing exactly when each method is a test or formats to nothing. */
  lemma LImplNoTestsEmptyIff(i: ImplItem)
    ensures LImplText(NoTests, i) == []
            <==> forall k :: 0 <= k < |i.methods| ==> LIsTestFunction(i.methods[k]) || LFunctionText(NoTests, i.methods[k]) == []
  {
    LImplEmptyIffBody(NoTests, i);
    ConcatMapEmpty(i.methods, LImplMethodLine(NoTests));
  }

  /** Under `Summary`, an impl is nothing exactly when it has no public method. */
  lemma LImplSummaryEmptyIff(i: ImplItem)
    ensures LImplText(Summary, i) == [] <==> forall k :: 0 <= k < |i.methods| ==> i.methods[k].visibility != Public
  {
    LImplEmptyIffBody(Summary, i);
    ConcatMapEmpty(i.methods, LImplMethodLine(Summary));
    forall k | 0 <= k < |i.methods| && i.methods[k].visibility == Public
      ensures LImplMethodLine(Summary)(i.methods[k]) != []
    {
      LSummaryFunction(i.methods[k]);
    }
  }

  lemma LImplNonEmpty(strategy: BankStrategy, i: ImplItem)
    requires strategy != Default && ConcatMap(i.methods, LImplMethodLine(strategy)) != []
    ensures EndsWith(LImplText(strategy, i), "}\n")
  {
    EndsWithSuffix(LDocText("", i.documentation) + LAttrText("", i.attributes) + LImplHead(i) + ConcatMap(i.methods, LImplMethodLine(strategy)), "}\n");
  }

  /** Under `Summary`, a non-public module keeps its docs and attributes but has no `mod` header or body. */
  lemma LModuleSummaryNonPublic(m: ModuleItem)
    requires m.visibility != Public
    ensures LModuleText(Summary, m) == LDocText("", m.document) + LAttrText("", m.attributes)
  {
  }

  /** Under `NoTests` a module is its docs and attributes, `"[pub ]mod <name> {\n"`, its body and `"}\n"`. */
  lemma LModuleNoTestsWrapped(m: ModuleItem)
    ensures var out := LModuleText(NoTests, m);
            StartsWith(out, LDocText("", m.document) + LAttrText("", m.attributes) + LModuleHead(m)) && EndsWith(out, "}\n")
  {
    var head := LDocText("", m.document) + LAttrText("", m.attributes) + LModuleHead(m);
    var body := LModuleBody(NoTests, m);
    StartsWithPrefix(head, body + "}\n");
    EndsWithSuffix(head + body, "}\n");
    AppendAssoc(head, body, "}\n");
  }

  function LSubLine(strategy: BankStrategy): ModuleItem -> string
  {
    (m: ModuleItem) =>
      if (strategy == Summary && m.visibility != Public) || (strategy != Summary && LIsTestModule(m)) then []
      else LIndented(LModuleText(strategy, m))
  }

  lemma {:induction false} LSubmodulesAsConcatMap(strategy: BankStrategy, subs: seq<ModuleItem>)
    ensures LSubmodulesText(strategy, subs) == ConcatMap(subs, LSubLine(strategy))
    decreases |subs|
  {
    if subs != [] {
      LSubmodulesAsConcatMap(strategy, subs[..|subs| - 1]);
    }
  }

  /** Under `Summary`, a trait is nothing exactly when it is not public; a public one ends with `"}\n"`. */
  lemma LTraitSummaryEmptyIff(t: TraitItem)
    ensures LTraitText(Summary, t) == [] <==> t.visibility != Public
    ensures t.visibility == Public ==> EndsWith(LTraitText(Summary, t), "}\n")
  {
    if t.visibility == Public {
      var pre := LDocText("", t.documentation) + LAttrText("", t.attributes) + LTraitHead(t)
                 + ConcatMap(t.methods, LTraitMethodLine(Summary));
      EndsWithSuffix(pre, "}\n");
      assert |LTraitText(Summary, t)| >= 2;
    }
  }

  /** Under `NoTests`, dropping the `#[test]` methods of a trait changes nothing. */
  lemma LTraitNoTestsDropsTestMethods(t: TraitItem)
    ensures LTraitText(NoTests, t) == LTraitText(NoTests, t.(methods := Filter(t.methods, (m: FunctionItem) => !LIsTestFunction(m))))
  {
    var line := LTraitMethodLine(NoTests);
    ConcatMapFilter(t.methods, (m: FunctionItem) => !LIsTestFunction(m), line, line);
  }

  /** Under `NoTests`, a module body drops test functions and test submodules: pruning them changes nothing. */
  lemma LModuleNoTestsDropsTests(m: ModuleItem)
    ensures LModuleBody(NoTests, m)
         == LModuleBody(NoTests, m.(functions := Filter(m.functions, (f: FunctionItem) => !LIsTestFunction(f)),
                                    submodules := Filter(m.submodules, (s: ModuleItem) => !LIsTestModule(s))))
  {
    var fl := LModFunctionLine(NoTests);
    var ml := LSubLine(NoTests);
    ConcatMapFilter(m.functions, (f: FunctionItem) => !LIsTestFunction(f), fl, fl);
    LSubmodulesAsConcatMap(NoTests, m.submodules);
    LSubmodulesAsConcatMap(NoTests, Filter(m.submodules, (s: ModuleItem) => !LIsTestModule(s)));
    ConcatMapFilter(m.submodules, (s: ModuleItem) => !LIsTestModule(s), ml, ml);
  }

  /** Under `Summary`, a module body shows only public functions, structs, traits and submodules. */
  lemma LModuleSummaryPublicOnly(m: ModuleItem)
    ensures LModuleBody(Summary, m)
         == LModuleBody(Summary, m.(functions := Filter(m.functions, (f: FunctionItem) => f.visibility == Public),
                                    structs := Filter(m.structs, (s: StructItem) => s.visibility == Public),
                                    traits := Filter(m.traits, (t: TraitItem) => t.visibility == Public),
                                    submodules := Filter(m.submodules, (s: ModuleItem) => s.visibility == Public)))
  {
    var fl := LModFunctionLine(Summary);
    var sl := LModStructLine(Summary);
    var tl := LModTraitLine(Summary);
    var ml := LSubLine(Summary);
    ConcatMapFilter(m.functions, (f: FunctionItem) => f.visibility == Public, fl, fl);
    ConcatMapFilter(m.structs, (s: StructItem) => s.visibility == Public, sl, sl);
    ConcatMapFilter(m.traits, (t: TraitItem) => t.visibility == Public, tl, tl);
    LSubmodulesAsConcatMap(Summary, m.submodules);
    LSubmodulesAsConcatMap(Summary, Filter(m.submodules, (s: ModuleItem) => s.visibility == Public));
    ConcatMapFilter(m.submodules, (s: ModuleItem) => s.visibility == Public, ml, ml);
  }

  /** Under `NoTests`, a file drops test modules and `#[test]` functions: pruning them changes nothing. */
  lemma LFileNoTestsDropsTests(f: FileItem)
    ensures LFileText(NoTests, f)
         == LFileText(NoTests, f.(modules := Filter(f.modules, (m: ModuleItem) => !LIsTestModule(m)),
                                  functions := Filter(f.functions, (g: FunctionItem) => !LIsTestFunction(g))))
  {
    var ml := LFileModuleLine(NoTests);
    var fl := LFileFunctionLine(NoTests);
    ConcatMapFilter(f.modules, (m: ModuleItem) => !LIsTestModule(m), ml, ml);
    ConcatMapFilter(f.functions, (g: FunctionItem) => !LIsTestFunction(g), fl, fl);
  }

  /** Under `Summary`, a file shows only public modules, functions, structs and traits. */
  lemma LFileSummaryPublicOnly(f: FileItem)
    ensures LFileText(Summary, f)
         == LFileText(Summary, f.(modules := Filter(f.modules, (m: ModuleItem) => m.visibility == Public),
                                  functions := Filter(f.functions, (g: FunctionItem) => g.visibility == Public),
                                  structs := Filter(f.structs, (s: StructItem) => s.visibility == Public),
                                  traits := Filter(f.traits, (t: TraitItem) => t.visibility == Public)))
  {
    var ml := LFileModuleLine(Summary);
    var fl := LFileFunctionLine(Summary);
    var sl := LFileStructLine(Summary);
    var tl := LFileTraitLine(Summary);
    ConcatMapFilter(f.modules, (m: ModuleItem) => m.visibility == Public, ml, ml);
    ConcatMapFilter(f.functions, (g: FunctionItem) => g.visibility == Public, fl, fl);
    ConcatMapFilter(f.structs, (s: StructItem) => s.visibility == Public, sl, sl);
    ConcatMapFilter(f.traits, (t: TraitItem) => t.visibility == Public, tl, tl);
  }
}
