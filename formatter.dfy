/**
 * `src/parser/formatter/mod.rs`: how a unit tree is rendered under each
 * bank strategy.  The `...Text` functions say what each `format` produces;
 * the `Format...` methods build the same text the way the source does, by
 * appending to an output string inside loops.
 *
 * Every `format` of the source returns `Ok`; the `Result` wrapper is dropped.
 * `Visibility::as_str` is not part of this model: it is the parameter `visStr`.
 */
module Formatter {
  import opened Wrappers
  import opened Strings
  import opened Codebank
  import opened Units
  import opened FormatterRules

  // ------------------------------------------------------------ pieces

  /** One documentation line, `"{doc_marker} {line}\n"`. */
  function DocLine(r: Rules): string -> string
  {
    (line: string) => r.docMarker + " " + line + "\n"
  }

  /** The documentation block: one marked line per line of the doc text. */
  function DocText(r: Rules, doc: Option<string>): string
  {
    match doc
    case None => []
    case Some(d) => ConcatMap(Lines(d), DocLine(r))
  }

  /** One attribute per line; an attribute equal to an entry of `skip` is left out. */
  function AttrLine(skip: seq<string>): string -> string
  {
    (a: string) => if a in skip then [] else a + "\n"
  }

  function AttrText(attrs: seq<string>, skip: seq<string>): string
  {
    ConcatMap(attrs, AttrLine(skip))
  }

  /** A method inside a struct, trait or impl body: indented, then a newline; nothing when empty. */
  function Nested(t: string): string
  {
    if t == [] then [] else "    " + IndentNewlines(t) + "\n"
  }

  /** An item inside a module body: indented, then a blank line; nothing when empty. */
  function Block(t: string): string
  {
    if t == [] then [] else "    " + IndentNewlines(t) + "\n\n"
  }

  /** Appends an item, one level in, followed by a blank line; an empty item adds nothing. */
  method PushBlock(out0: string, formatted: string) returns (out: string)
    ensures out == out0 + Block(formatted)
  {
    out := out0;
    if formatted != [] {
      out := out + ("    " + IndentNewlines(formatted) + "\n\n");
    }
  }

  /** An item of a file under `NoTests`: followed by a newline; nothing when empty. */
  function Line(t: string): string
  {
    if t == [] then [] else t + "\n"
  }

  // --------------------------------------------------------- functions

  /** What `Summary` keeps of a function: its formatted signature, or its formatted source. */
  function SummaryTail(r: Rules, f: FunctionUnit): string
  {
    match f.signature
    case Some(sig) => FormatSignature(r, sig, Some(sig))
    case None =>
      match f.source
      case Some(src) => FormatSignature(r, src, None)
      case None => []
  }

  /** Whether `NoTests` puts a space between `soFar` (ending in the signature) and the body. */
  predicate NeedsGap(f: FunctionUnit, soFar: string, body: string)
  {
    f.signature.Some? && !EndsWith(soFar, " ") && !StartsWith(body, "{") && !StartsWith(body, ":")
  }

  /** `NoTests` after the docs and attributes `pre`: signature and body, or the source. */
  function NoTestsFunction(pre: string, f: FunctionUnit): string
  {
    var soFar := pre + f.signature.UnwrapOr([]);
    match f.body
    case Some(b) => soFar + (if NeedsGap(f, soFar, b) then " " else []) + b
    case None => if f.signature.None? then soFar + f.source.UnwrapOr([]) else soFar
  }

  /** `Formatter::format` for a `FunctionUnit`. */
  function FunctionText(lang: LanguageType, strategy: BankStrategy, f: FunctionUnit): string
  {
    var r := ForLanguage(lang);
    if strategy == Default then f.source.UnwrapOr([])
    else if IsTestFunction(r, f.attributes) then []
    else if strategy == Summary && f.visibility != Public then []
    else
      var pre := DocText(r, f.doc) + AttrText(f.attributes, r.testMarkers);
      if strategy == NoTests then NoTestsFunction(pre, f) else pre + SummaryTail(r, f)
  }

  /** A method line of a struct or trait body under `NoTests`: test methods are skipped. */
  function MethodLine(lang: LanguageType): FunctionUnit -> string
  {
    (m: FunctionUnit) => if IsTestFunction(ForLanguage(lang), m.attributes) then [] else Nested(FunctionText(lang, NoTests, m))
  }

  // ----------------------------------------------------------- structs

  /** A Rust enum, recognised by `" enum "` in its head or its source. */
  predicate IsRustEnum(lang: LanguageType, s: StructUnit)
  {
    lang == Rust && (Contains(s.head, " enum ") || (s.source.Some? && Contains(s.source.value, " enum ")))
  }

  function BodyStart(lang: LanguageType): string
  {
    if lang == Python then ":\n" else " {\n"
  }

  function BodyEnd(lang: LanguageType): string
  {
    if lang == Python then "" else "}"
  }

  /** `Formatter::format` for a `StructUnit`. */
  function StructText(lang: LanguageType, strategy: BankStrategy, s: StructUnit): string
  {
    var r := ForLanguage(lang);
    if strategy == Summary && s.visibility != Public then []
    else
      var pre := DocText(r, s.doc) + AttrText(s.attributes, []);
      match strategy
      case Default => pre + s.source.UnwrapOr([])
      case Summary =>
        if IsRustEnum(lang, s) && s.source.Some? then pre + s.source.value
        else pre + s.head + r.summaryEllipsis
      case NoTests => pre + s.head + BodyStart(lang) + ConcatMap(s.methods, MethodLine(lang)) + BodyEnd(lang)
  }

  // ------------------------------------------------------------ traits

  function TraitHead(visStr: Visibility -> string, t: TraitUnit): string
  {
    visStr(t.visibility) + " trait " + t.name
  }

  /** `Formatter::format` for a `TraitUnit`. */
  function TraitText(lang: LanguageType, visStr: Visibility -> string, strategy: BankStrategy, t: TraitUnit): string
  {
    var r := ForLanguage(lang);
    if strategy == Summary && t.visibility != Public then []
    else
      var pre := DocText(r, t.doc) + AttrText(t.attributes, []);
      match strategy
      case Default => pre + t.source.UnwrapOr([])
      case NoTests => pre + TraitHead(visStr, t) + " {\n" + ConcatMap(t.methods, MethodLine(lang)) + r.bodyEndMarker
      case Summary => pre + TraitHead(visStr, t) + r.summaryEllipsis
  }

  // ------------------------------------------------------------- impls

  predicate IsTraitImpl(i: ImplUnit)
  {
    Contains(i.head, " for ")
  }

  /** Which methods of an impl are rendered under a strategy other than `Default`. */
  function ImplKeeps(r: Rules, strategy: BankStrategy, traitImpl: bool): FunctionUnit -> bool
  {
    if strategy == Summary && !traitImpl then (m: FunctionUnit) => m.visibility == Public && !IsTestFunction(r, m.attributes)
    else (m: FunctionUnit) => !IsTestFunction(r, m.attributes)
  }

  /** The methods an impl renders: all of them under `Default`, the kept ones otherwise. */
  function ImplMethods(r: Rules, strategy: BankStrategy, i: ImplUnit): seq<FunctionUnit>
  {
    if strategy == Default then i.methods else Filter(i.methods, ImplKeeps(r, strategy, IsTraitImpl(i)))
  }

  function ImplMethodLine(lang: LanguageType, strategy: BankStrategy): FunctionUnit -> string
  {
    (m: FunctionUnit) => Nested(FunctionText(lang, strategy, m))
  }

  /** `Formatter::format` for an `ImplUnit`. */
  function ImplText(lang: LanguageType, strategy: BankStrategy, i: ImplUnit): string
  {
    var r := ForLanguage(lang);
    var kept := ImplMethods(r, strategy, i);
    if kept == [] && strategy == Summary && !IsTraitImpl(i) then []
    else
      var pre := DocText(r, i.doc) + AttrText(i.attributes, []);
      if strategy == Default then pre + i.source.UnwrapOr([])
      else pre + i.head + " {\n" + ConcatMap(kept, ImplMethodLine(lang, strategy)) + r.bodyEndMarker
  }

  // ----------------------------------------------------------- modules

  function DeclLine(indent: string): DeclareStatements -> string
  {
    (d: DeclareStatements) => indent + d.source + "\n"
  }

  function FunctionBlock(lang: LanguageType, strategy: BankStrategy): FunctionUnit -> string
  {
    (f: FunctionUnit) =>
      if (strategy == Summary && f.visibility != Public) || IsTestFunction(ForLanguage(lang), f.attributes) then []
      else Block(FunctionText(lang, strategy, f))
  }

  function StructBlock(lang: LanguageType, strategy: BankStrategy): StructUnit -> string
  {
    (s: StructUnit) => if strategy == Summary && s.visibility != Public then [] else Block(StructText(lang, strategy, s))
  }

  function TraitBlock(lang: LanguageType, visStr: Visibility -> string, strategy: BankStrategy): TraitUnit -> string
  {
    (t: TraitUnit) => if strategy == Summary && t.visibility != Public then [] else Block(TraitText(lang, visStr, strategy, t))
  }

  function ImplBlock(lang: LanguageType, strategy: BankStrategy): ImplUnit -> string
  {
    (i: ImplUnit) => Block(ImplText(lang, strategy, i))
  }

  /** The line that opens a module's body. */
  function ModuleHead(vis: string, m: ModuleUnit): string
  {
    vis + " mod " + m.name + " {\n"
  }

  /** `Formatter::format` for a `ModuleUnit`. */
  function ModuleText(lang: LanguageType, visStr: Visibility -> string, strategy: BankStrategy, m: ModuleUnit): string
    decreases m, 1
  {
    var r := ForLanguage(lang);
    if strategy == Summary && IsTestModule(r, m.name, m.attributes) then []
    else
      match strategy
      case Default => m.source.UnwrapOr([])
      case NoTests =>
        DocText(r, m.doc) + AttrText(m.attributes, []) + ModuleHead(visStr(m.visibility), m)
        + ModuleItems(lang, visStr, strategy, m) + "}\n"
      case Summary =>
        if m.visibility != Public then []
        else
          DocText(r, m.doc) + AttrText(m.attributes, r.testModuleMarkers) + ("pub mod " + m.name + " {\n")
          + ModuleItems(lang, visStr, strategy, m) + "}\n"
  }

  /** The body of a module: declarations, then functions, structs, traits, impls and submodules. */
  function ModuleItems(lang: LanguageType, visStr: Visibility -> string, strategy: BankStrategy, m: ModuleUnit): string
    decreases m, 0
  {
    ConcatMap(m.declares, DeclLine("    "))
    + ConcatMap(m.functions, FunctionBlock(lang, strategy))
    + ConcatMap(m.structs, StructBlock(lang, strategy))
    + ConcatMap(m.traits, TraitBlock(lang, visStr, strategy))
    + ConcatMap(m.impls, ImplBlock(lang, strategy))
    + SubmodulesText(lang, visStr, strategy, m.submodules)
  }

  /** The submodule blocks of a module, in order; under `Summary` only public ones. */
  function SubmodulesText(lang: LanguageType, visStr: Visibility -> string, strategy: BankStrategy, subs: seq<ModuleUnit>): string
    decreases subs, 0
  {
    if subs == [] then []
    else
      SubmodulesText(lang, visStr, strategy, subs[..|subs| - 1]) + SubmoduleBlock(lang, visStr, strategy, subs[|subs| - 1])
  }

  /** What one submodule adds to its parent's body: nothing for a private one under `Summary`. */
  function SubmoduleBlock(lang: LanguageType, visStr: Visibility -> string, strategy: BankStrategy, sub: ModuleUnit): string
    decreases sub, 2
  {
    if strategy == Summary && sub.visibility != Public then [] else Block(ModuleText(lang, visStr, strategy, sub))
  }

  // ------------------------------------------------------------- files

  /** A file's documentation: one marked line holding the whole doc text. */
  function FileDoc(r: Rules, doc: Option<string>): string
  {
    match doc
    case None => []
    case Some(d) => r.docMarker + " " + d + "\n"
  }

  function FileModuleLine(lang: LanguageType, visStr: Visibility -> string, strategy: BankStrategy): ModuleUnit -> string
  {
    (m: ModuleUnit) =>
      if strategy == NoTests then
        if IsTestModule(ForLanguage(lang), m.name, m.attributes) then [] else Line(ModuleText(lang, visStr, strategy, m))
      else if m.visibility == Public then ModuleText(lang, visStr, strategy, m) + "\n"
      else []
  }

  function FileFunctionLine(lang: LanguageType, strategy: BankStrategy): FunctionUnit -> string
  {
    (f: FunctionUnit) =>
      if strategy == NoTests then
        if IsTestFunction(ForLanguage(lang), f.attributes) then [] else Line(FunctionText(lang, strategy, f))
      else if f.visibility == Public then FunctionText(lang, strategy, f) + "\n"
      else []
  }

  function FileStructLine(lang: LanguageType, strategy: BankStrategy): StructUnit -> string
  {
    (s: StructUnit) =>
      if strategy == NoTests then Line(StructText(lang, strategy, s))
      else if s.visibility == Public then StructText(lang, strategy, s) + "\n"
      else []
  }

  function FileTraitLine(lang: LanguageType, visStr: Visibility -> string, strategy: BankStrategy): TraitUnit -> string
  {
    (t: TraitUnit) =>
      if strategy == NoTests then Line(TraitText(lang, visStr, strategy, t))
      else if t.visibility == Public then TraitText(lang, visStr, strategy, t) + "\n"
      else []
  }

  function FileImplLine(lang: LanguageType, strategy: BankStrategy): ImplUnit -> string
  {
    (i: ImplUnit) => if strategy == NoTests then Line(ImplText(lang, strategy, i)) else ImplText(lang, strategy, i) + "\n"
  }

  /** `Formatter::format` for a `FileUnit`. */
  function FileText(lang: LanguageType, visStr: Visibility -> string, strategy: BankStrategy, f: FileUnit): string
  {
    var r := ForLanguage(lang);
    if strategy == Default then f.source.UnwrapOr([])
    else
      FileDoc(r, f.doc)
      + ConcatMap(f.declares, DeclLine(""))
      + ConcatMap(f.modules, FileModuleLine(lang, visStr, strategy))
      + ConcatMap(f.functions, FileFunctionLine(lang, strategy))
      + ConcatMap(f.structs, FileStructLine(lang, strategy))
      + ConcatMap(f.traits, FileTraitLine(lang, visStr, strategy))
      + ConcatMap(f.impls, FileImplLine(lang, strategy))
  }

  // ----------------------------------------------------------- methods

  /** The documentation lines an output starts with, each marked with the doc marker. */
  method WriteDoc(r: Rules, doc: Option<string>) returns (out: string)
    ensures out == DocText(r, doc)
  {
    out := [];
    if doc.Some? {
      var lines := Lines(doc.value);
      var i := 0;
      while i < |lines|
        invariant 0 <= i <= |lines|
        invariant out == ConcatMap(lines[..i], DocLine(r))
      {
        ConcatMapSnoc(lines, i, DocLine(r));
        out := out + (r.docMarker + " " + lines[i] + "\n");
        i := i + 1;
      }
      SeqTakeAll(lines);
    }
  }

  /** Appends each attribute on its own line, except those equal to an entry of `skip`. */
  method AppendAttributes(out0: string, attrs: seq<string>, skip: seq<string>) returns (out: string)
    ensures out == out0 + AttrText(attrs, skip)
  {
    out := out0;
    var i := 0;
    while i < |attrs|
      invariant 0 <= i <= |attrs|
      invariant out == out0 + ConcatMap(attrs[..i], AttrLine(skip))
    {
      ConcatMapStep(out0, attrs, i, AttrLine(skip));
      if attrs[i] !in skip {
        out := out + (attrs[i] + "\n");
      }
      i := i + 1;
    }
    SeqTakeAll(attrs);
  }

  /** `Formatter::format` for a `FunctionUnit`, built as the source builds it. */
  method FormatFunction(lang: LanguageType, strategy: BankStrategy, f: FunctionUnit) returns (out: string)
    ensures out == FunctionText(lang, strategy, f)
  {
    var r := ForLanguage(lang);
    if strategy == Default {
      return f.source.UnwrapOr([]);
    }
    if IsTestFunction(r, f.attributes) {
      return [];
    }
    if strategy == Summary && f.visibility != Public {
      return [];
    }
    out := WriteDoc(r, f.doc);
    out := AppendAttributes(out, f.attributes, r.testMarkers);
    ghost var pre := out;
    if strategy == NoTests {
      out := AppendSignatureAndBody(out, f);
    } else {
      out := AppendSummarySignature(out, r, f);
    }
    assert FunctionText(lang, strategy, f) == if strategy == NoTests then NoTestsFunction(pre, f) else pre + SummaryTail(r, f);
  }

  /** `NoTests`: the signature, then the body (with a space between when needed), or else the source. */
  method AppendSignatureAndBody(out0: string, f: FunctionUnit) returns (out: string)
    ensures out == NoTestsFunction(out0, f)
  {
    out := out0;
    if f.signature.Some? {
      out := out + f.signature.value;
    } else {
      assert out == out0 + f.signature.UnwrapOr([]);
    }
    if f.body.Some? {
      var body := f.body.value;
      if f.signature.Some? && !EndsWith(out, " ") && !StartsWith(body, "{") && !StartsWith(body, ":") {
        out := out + " ";
      }
      out := out + body;
    } else if f.signature.None? {
      if f.source.Some? {
        out := out + f.source.value;
      }
    }
  }

  /** `Summary`: the formatted signature, or the formatted source when there is no signature. */
  method AppendSummarySignature(out0: string, r: Rules, f: FunctionUnit) returns (out: string)
    ensures out == out0 + SummaryTail(r, f)
  {
    out := out0;
    if f.signature.Some? {
      out := out + FormatSignature(r, f.signature.value, f.signature);
    } else if f.source.Some? {
      out := out + FormatSignature(r, f.source.value, None);
    }
  }

  /** What one element adds to the output (`MethodLine`). */
  method FormatMethodLine(lang: LanguageType, item: FunctionUnit) returns (piece: string)
    ensures piece == MethodLine(lang)(item)
  {
    var r := ForLanguage(lang);
    piece := [];
    if !IsTestFunction(r, item.attributes) {
      var formatted := FormatFunction(lang, NoTests, item);
      if formatted != [] {
        piece := "    " + IndentNewlines(formatted) + "\n";
      }
    }
  }

  /** Appends the non-test methods of a struct or trait body, each nested one level. */
  method AppendMethods(out0: string, lang: LanguageType, methods: seq<FunctionUnit>) returns (out: string)
    ensures out == out0 + ConcatMap(methods, MethodLine(lang))
  {
    var r := ForLanguage(lang);
    out := out0;
    var i := 0;
    while i < |methods|
      invariant 0 <= i <= |methods|
      invariant out == out0 + ConcatMap(methods[..i], MethodLine(lang))
    {
      var piece := FormatMethodLine(lang, methods[i]);
      ConcatMapPush(out0, methods, i, MethodLine(lang), out, piece);
      out := out + piece;
      i := i + 1;
    }
    SeqTakeAll(methods);
  }

  /** `Formatter::format` for a `StructUnit`. */
  method FormatStruct(lang: LanguageType, strategy: BankStrategy, s: StructUnit) returns (out: string)
    ensures out == StructText(lang, strategy, s)
  {
    var r := ForLanguage(lang);
    if strategy == Summary && s.visibility != Public {
      return [];
    }
    out := WriteDoc(r, s.doc);
    out := AppendAttributes(out, s.attributes, []);
    if strategy == Default {
      if s.source.Some? {
        out := out + s.source.value;
      }
    } else {
      out := out + s.head;
      if strategy == Summary {
        var isRustEnum := lang == Rust && (Contains(s.head, " enum ") || (s.source.Some? && Contains(s.source.value, " enum ")));
        if isRustEnum {
          if s.source.Some? {
            var enumOutput := WriteDoc(r, s.doc);
            enumOutput := AppendAttributes(enumOutput, s.attributes, []);
            enumOutput := enumOutput + s.source.value;
            return enumOutput;
          } else {
            out := out + r.summaryEllipsis;
          }
        } else {
          out := out + r.summaryEllipsis;
        }
      } else {
        var bodyStart := if lang == Python then ":\n" else " {\n";
        var bodyEnd := if lang == Python then "" else "}";
        out := out + bodyStart;
        out := AppendMethods(out, lang, s.methods);
        out := out + bodyEnd;
      }
    }
  }

  /** `Formatter::format` for a `TraitUnit`. */
  method FormatTrait(lang: LanguageType, visStr: Visibility -> string, strategy: BankStrategy, t: TraitUnit) returns (out: string)
    ensures out == TraitText(lang, visStr, strategy, t)
  {
    var r := ForLanguage(lang);
    if strategy == Summary && t.visibility != Public {
      return [];
    }
    out := WriteDoc(r, t.doc);
    out := AppendAttributes(out, t.attributes, []);
    if strategy == Default {
      if t.source.Some? {
        out := out + t.source.value;
      }
    } else {
      out := out + (visStr(t.visibility) + " trait " + t.name);
      if strategy == NoTests {
        out := out + " {\n";
        out := AppendMethods(out, lang, t.methods);
        out := out + r.bodyEndMarker;
      } else {
        out := out + r.summaryEllipsis;
      }
    }
  }

  /** `Formatter::format` for an `ImplUnit`: the methods to show are collected first. */
  method FormatImpl(lang: LanguageType, strategy: BankStrategy, i: ImplUnit) returns (out: string)
    ensures out == ImplText(lang, strategy, i)
  {
    var r := ForLanguage(lang);
    var isTraitImpl := Contains(i.head, " for ");
    var kept := CollectImplMethods(r, strategy, i);
    if |kept| == 0 && strategy == Summary && !isTraitImpl {
      return [];
    }
    out := WriteDoc(r, i.doc);
    out := AppendAttributes(out, i.attributes, []);
    if strategy == Default {
      if i.source.Some? {
        out := out + i.source.value;
      }
    } else {
      out := out + i.head;
      out := out + " {\n";
      out := AppendImplMethods(out, lang, strategy, kept);
      out := out + r.bodyEndMarker;
    }
  }

  /** The methods an impl shows: every method under `Default`, otherwise those the strategy keeps. */
  method CollectImplMethods(r: Rules, strategy: BankStrategy, i: ImplUnit) returns (kept: seq<FunctionUnit>)
    ensures kept == ImplMethods(r, strategy, i)
  {
    var isTraitImpl := Contains(i.head, " for ");
    if strategy == Default {
      return i.methods;
    }
    kept := [];
    var keep := ImplKeeps(r, strategy, isTraitImpl);
    var j := 0;
    while j < |i.methods|
      invariant 0 <= j <= |i.methods|
      invariant kept == Filter(i.methods[..j], keep)
    {
      FilterSnoc(i.methods, j, keep);
      var m := i.methods[j];
      var shown := ShowsImplMethod(r, strategy, isTraitImpl, m);
      if shown {
        kept := kept + [m];
      }
      j := j + 1;
    }
    SeqTakeAll(i.methods);
  }

  /** The test the impl loop applies to one method: no test, and public unless the summary is of a trait impl. */
  method ShowsImplMethod(r: Rules, strategy: BankStrategy, traitImpl: bool, m: FunctionUnit) returns (shown: bool)
    ensures shown == ImplKeeps(r, strategy, traitImpl)(m)
  {
    shown := !IsTestFunction(r, m.attributes) && (strategy != Summary || traitImpl || m.visibility == Public);
  }

  /** What one element adds to the output (`ImplMethodLine`). */
  method FormatImplMethodLine(lang: LanguageType, strategy: BankStrategy, item: FunctionUnit) returns (piece: string)
    ensures piece == ImplMethodLine(lang, strategy)(item)
  {
    piece := [];
    var formatted := FormatFunction(lang, strategy, item);
    if formatted != [] {
      piece := "    " + IndentNewlines(formatted) + "\n";
    }
  }

  /** Appends each method of an impl body, nested one level; empty renderings are skipped. */
  method AppendImplMethods(out0: string, lang: LanguageType, strategy: BankStrategy, methods: seq<FunctionUnit>)
    returns (out: string)
    ensures out == out0 + ConcatMap(methods, ImplMethodLine(lang, strategy))
  {
    out := out0;
    var k := 0;
    while k < |methods|
      invariant 0 <= k <= |methods|
      invariant out == out0 + ConcatMap(methods[..k], ImplMethodLine(lang, strategy))
    {
      var piece := FormatImplMethodLine(lang, strategy, methods[k]);
      ConcatMapPush(out0, methods, k, ImplMethodLine(lang, strategy), out, piece);
      out := out + piece;
      k := k + 1;
    }
    SeqTakeAll(methods);
  }

  /** `Formatter::format` for a `ModuleUnit`. */
  method FormatModule(lang: LanguageType, visStr: Visibility -> string, strategy: BankStrategy, m: ModuleUnit) returns (out: string)
    ensures out == ModuleText(lang, visStr, strategy, m)
    decreases m, 1
  {
    var r := ForLanguage(lang);
    if strategy == Summary && IsTestModule(r, m.name, m.attributes) {
      return [];
    }
    out := [];
    if strategy == Default {
      out := m.source.UnwrapOr([]);
    } else if strategy == NoTests {
      out := WriteDoc(r, m.doc);
      out := AppendAttributes(out, m.attributes, []);
      out := out + (visStr(m.visibility) + " mod " + m.name + " {\n");
      out := AppendModuleItems(out, lang, visStr, strategy, m);
      out := out + "}\n";
    } else if m.visibility == Public {
      out := WriteDoc(r, m.doc);
      out := AppendAttributes(out, m.attributes, r.testModuleMarkers);
      out := out + ("pub mod " + m.name + " {\n");
      out := AppendModuleItems(out, lang, visStr, strategy, m);
      out := out + "}\n";
    }
  }

  /** Appends a module's declarations and items: each kind of item has its own loop. */
  method AppendModuleItems(out0: string, lang: LanguageType, visStr: Visibility -> string, strategy: BankStrategy, m: ModuleUnit)
    returns (out: string)
    ensures out == out0 + ModuleItems(lang, visStr, strategy, m)
    decreases m, 0
  {
    ghost var declares := ConcatMap(m.declares, DeclLine("    "));
    ghost var functions := ConcatMap(m.functions, FunctionBlock(lang, strategy));
    ghost var structs := ConcatMap(m.structs, StructBlock(lang, strategy));
    ghost var traits := ConcatMap(m.traits, TraitBlock(lang, visStr, strategy));
    ghost var impls := ConcatMap(m.impls, ImplBlock(lang, strategy));
    out := AppendDeclares(out0, "    ", m.declares);
    out := AppendFunctionBlocks(out, lang, strategy, m.functions);
    AppendAssoc(out0, declares, functions);
    out := AppendStructBlocks(out, lang, strategy, m.structs);
    AppendAssoc(out0, declares + functions, structs);
    out := AppendTraitBlocks(out, lang, visStr, strategy, m.traits);
    AppendAssoc(out0, declares + functions + structs, traits);
    out := AppendImplBlocks(out, lang, strategy, m.impls);
    AppendAssoc(out0, declares + functions + structs + traits, impls);
    out := AppendSubmodules(out, lang, visStr, strategy, m.submodules);
    AppendAssoc(out0, declares + functions + structs + traits + impls, SubmodulesText(lang, visStr, strategy, m.submodules));
  }

  /** Appends each declaration's source on its own line, after `indent`. */
  method AppendDeclares(out0: string, indent: string, declares: seq<DeclareStatements>) returns (out: string)
    ensures out == out0 + ConcatMap(declares, DeclLine(indent))
  {
    out := out0;
    var i := 0;
    while i < |declares|
      invariant 0 <= i <= |declares|
      invariant out == out0 + ConcatMap(declares[..i], DeclLine(indent))
    {
      ConcatMapStep(out0, declares, i, DeclLine(indent));
      out := out + (indent + declares[i].source + "\n");
      i := i + 1;
    }
    SeqTakeAll(declares);
  }

  /** What one element adds to the output (`FunctionBlock`). */
  method FormatFunctionBlock(lang: LanguageType, strategy: BankStrategy, item: FunctionUnit) returns (piece: string)
    ensures piece == FunctionBlock(lang, strategy)(item)
  {
    var r := ForLanguage(lang);
    piece := [];
    var f := item;
    if (strategy != Summary || f.visibility == Public) && !IsTestFunction(r, f.attributes) {
      var formatted := FormatFunction(lang, strategy, f);
      piece := PushBlock(piece, formatted);
    }
  }

  /** The function blocks of a module body; `Summary` shows public ones only, no strategy shows tests. */
  method AppendFunctionBlocks(out0: string, lang: LanguageType, strategy: BankStrategy, functions: seq<FunctionUnit>)
    returns (out: string)
    ensures out == out0 + ConcatMap(functions, FunctionBlock(lang, strategy))
  {
    var r := ForLanguage(lang);
    out := out0;
    var i := 0;
    while i < |functions|
      invariant 0 <= i <= |functions|
      invariant out == out0 + ConcatMap(functions[..i], FunctionBlock(lang, strategy))
    {
      var piece := FormatFunctionBlock(lang, strategy, functions[i]);
      ConcatMapPush(out0, functions, i, FunctionBlock(lang, strategy), out, piece);
      out := out + piece;
      i := i + 1;
    }
    SeqTakeAll(functions);
  }

  /** What one element adds to the output (`StructBlock`). */
  method FormatStructBlock(lang: LanguageType, strategy: BankStrategy, item: StructUnit) returns (piece: string)
    ensures piece == StructBlock(lang, strategy)(item)
  {
    piece := [];
    var s := item;
    if strategy != Summary || s.visibility == Public {
      var formatted := FormatStruct(lang, strategy, s);
      piece := PushBlock(piece, formatted);
    }
  }

  /** The struct blocks of a module body; `Summary` shows public ones only. */
  method AppendStructBlocks(out0: string, lang: LanguageType, strategy: BankStrategy, structs: seq<StructUnit>)
    returns (out: string)
    ensures out == out0 + ConcatMap(structs, StructBlock(lang, strategy))
  {
    out := out0;
    var i := 0;
    while i < |structs|
      invariant 0 <= i <= |structs|
      invariant out == out0 + ConcatMap(structs[..i], StructBlock(lang, strategy))
    {
      var piece := FormatStructBlock(lang, strategy, structs[i]);
      ConcatMapPush(out0, structs, i, StructBlock(lang, strategy), out, piece);
      out := out + piece;
      i := i + 1;
    }
    SeqTakeAll(structs);
  }

  /** What one element adds to the output (`TraitBlock`). */
  method FormatTraitBlock(lang: LanguageType, visStr: Visibility -> string, strategy: BankStrategy, item: TraitUnit) returns (piece: string)
    ensures piece == TraitBlock(lang, visStr, strategy)(item)
  {
    piece := [];
    var t := item;
    if strategy != Summary || t.visibility == Public {
      var formatted := FormatTrait(lang, visStr, strategy, t);
      piece := PushBlock(piece, formatted);
    }
  }

  /** The trait blocks of a module body; `Summary` shows public ones only. */
  method AppendTraitBlocks(out0: string, lang: LanguageType, visStr: Visibility -> string, strategy: BankStrategy, traits: seq<TraitUnit>)
    returns (out: string)
    ensures out == out0 + ConcatMap(traits, TraitBlock(lang, visStr, strategy))
  {
    out := out0;
    var i := 0;
    while i < |traits|
      invariant 0 <= i <= |traits|
      invariant out == out0 + ConcatMap(traits[..i], TraitBlock(lang, visStr, strategy))
    {
      var piece := FormatTraitBlock(lang, visStr, strategy, traits[i]);
      ConcatMapPush(out0, traits, i, TraitBlock(lang, visStr, strategy), out, piece);
      out := out + piece;
      i := i + 1;
    }
    SeqTakeAll(traits);
  }

  /** What one element adds to the output (`ImplBlock`). */
  method FormatImplBlock(lang: LanguageType, strategy: BankStrategy, item: ImplUnit) returns (piece: string)
    ensures piece == ImplBlock(lang, strategy)(item)
  {
    piece := [];
    var formatted := FormatImpl(lang, strategy, item);
    piece := PushBlock(piece, formatted);
  }

  /** The impl blocks of a module body, all of them. */
  method AppendImplBlocks(out0: string, lang: LanguageType, strategy: BankStrategy, impls: seq<ImplUnit>)
    returns (out: string)
    ensures out == out0 + ConcatMap(impls, ImplBlock(lang, strategy))
  {
    out := out0;
    var i := 0;
    while i < |impls|
      invariant 0 <= i <= |impls|
      invariant out == out0 + ConcatMap(impls[..i], ImplBlock(lang, strategy))
    {
      var piece := FormatImplBlock(lang, strategy, impls[i]);
      ConcatMapPush(out0, impls, i, ImplBlock(lang, strategy), out, piece);
      out := out + piece;
      i := i + 1;
    }
    SeqTakeAll(impls);
  }

  /** The submodule blocks of a module body; `Summary` shows public ones only. */
  method AppendSubmodules(out0: string, lang: LanguageType, visStr: Visibility -> string, strategy: BankStrategy, subs: seq<ModuleUnit>)
    returns (out: string)
    ensures out == out0 + SubmodulesText(lang, visStr, strategy, subs)
    decreases subs, 0
  {
    out := out0;
    var i := 0;
    while i < |subs|
      invariant 0 <= i <= |subs|
      invariant out == out0 + SubmodulesText(lang, visStr, strategy, subs[..i])
    {
      SeqTakeStep(subs, i);
      var piece := FormatSubmoduleBlock(lang, visStr, strategy, subs[i]);
      AppendAssoc(out0, SubmodulesText(lang, visStr, strategy, subs[..i]), piece);
      out := out + piece;
      i := i + 1;
    }
    SeqTakeAll(subs);
  }

  /** What one submodule adds to the output (`SubmoduleBlock`). */
  method FormatSubmoduleBlock(lang: LanguageType, visStr: Visibility -> string, strategy: BankStrategy, sub: ModuleUnit)
    returns (piece: string)
    ensures piece == SubmoduleBlock(lang, visStr, strategy, sub)
    decreases sub, 2
  {
    piece := [];
    if strategy != Summary || sub.visibility == Public {
      var formatted := FormatModule(lang, visStr, strategy, sub);
      piece := PushBlock(piece, formatted);
    }
  }

  /** `Formatter::format` for a `FileUnit`. */
  method FormatFile(lang: LanguageType, visStr: Visibility -> string, strategy: BankStrategy, f: FileUnit) returns (out: string)
    ensures out == FileText(lang, visStr, strategy, f)
  {
    var r := ForLanguage(lang);
    if strategy == Default {
      return f.source.UnwrapOr([]);
    }
    out := [];
    if f.doc.Some? {
      out := r.docMarker + " " + f.doc.value + "\n";
    }
    assert out == FileDoc(r, f.doc);
    out := AppendDeclares(out, "", f.declares);
    out := AppendFileModules(out, lang, visStr, strategy, f.modules);
    out := AppendFileFunctions(out, lang, strategy, f.functions);
    out := AppendFileStructs(out, lang, strategy, f.structs);
    out := AppendFileTraits(out, lang, visStr, strategy, f.traits);
    out := AppendFileImpls(out, lang, strategy, f.impls);
  }

  /** What one element adds to the output (`FileModuleLine`). */
  method FormatFileModuleLine(lang: LanguageType, visStr: Visibility -> string, strategy: BankStrategy, item: ModuleUnit) returns (piece: string)
    ensures piece == FileModuleLine(lang, visStr, strategy)(item)
  {
    var r := ForLanguage(lang);
    piece := [];
    var m := item;
    if strategy == NoTests {
      if !IsTestModule(r, m.name, m.attributes) {
        var formatted := FormatModule(lang, visStr, strategy, m);
        if formatted != [] {
          piece := formatted + "\n";
        }
      }
    } else if m.visibility == Public {
      var formatted := FormatModule(lang, visStr, strategy, m);
      piece := formatted + "\n";
    }
  }

  /** A file's modules: `NoTests` skips test modules and empty output, `Summary` keeps public ones. */
  method AppendFileModules(out0: string, lang: LanguageType, visStr: Visibility -> string, strategy: BankStrategy, modules: seq<ModuleUnit>)
    returns (out: string)
    ensures out == out0 + ConcatMap(modules, FileModuleLine(lang, visStr, strategy))
  {
    out := out0;
    var i := 0;
    while i < |modules|
      invariant 0 <= i <= |modules|
      invariant out == out0 + ConcatMap(modules[..i], FileModuleLine(lang, visStr, strategy))
    {
      var piece := FormatFileModuleLine(lang, visStr, strategy, modules[i]);
      ConcatMapPush(out0, modules, i, FileModuleLine(lang, visStr, strategy), out, piece);
      out := out + piece;
      i := i + 1;
    }
    SeqTakeAll(modules);
  }

  /** What one element adds to the output (`FileFunctionLine`). */
  method FormatFileFunctionLine(lang: LanguageType, strategy: BankStrategy, item: FunctionUnit) returns (piece: string)
    ensures piece == FileFunctionLine(lang, strategy)(item)
  {
    var r := ForLanguage(lang);
    piece := [];
    var fn := item;
    if strategy == NoTests {
      if !IsTestFunction(r, fn.attributes) {
        var formatted := FormatFunction(lang, strategy, fn);
        if formatted != [] {
          piece := formatted + "\n";
        }
      }
    } else if fn.visibility == Public {
      var formatted := FormatFunction(lang, strategy, fn);
      piece := formatted + "\n";
    }
  }

  /** A file's functions: `NoTests` skips tests and empty output, `Summary` keeps public ones. */
  method AppendFileFunctions(out0: string, lang: LanguageType, strategy: BankStrategy, functions: seq<FunctionUnit>)
    returns (out: string)
    ensures out == out0 + ConcatMap(functions, FileFunctionLine(lang, strategy))
  {
    var r := ForLanguage(lang);
    out := out0;
    var i := 0;
    while i < |functions|
      invariant 0 <= i <= |functions|
      invariant out == out0 + ConcatMap(functions[..i], FileFunctionLine(lang, strategy))
    {
      var piece := FormatFileFunctionLine(lang, strategy, functions[i]);
      ConcatMapPush(out0, functions, i, FileFunctionLine(lang, strategy), out, piece);
      out := out + piece;
      i := i + 1;
    }
    SeqTakeAll(functions);
  }

  /** What one element adds to the output (`FileStructLine`). */
  method FormatFileStructLine(lang: LanguageType, strategy: BankStrategy, item: StructUnit) returns (piece: string)
    ensures piece == FileStructLine(lang, strategy)(item)
  {
    piece := [];
    var s := item;
    if strategy == NoTests {
      var formatted := FormatStruct(lang, strategy, s);
      if formatted != [] {
        piece := formatted + "\n";
      }
    } else if s.visibility == Public {
      var formatted := FormatStruct(lang, strategy, s);
      piece := formatted + "\n";
    }
  }

  /** A file's structs: `NoTests` skips empty output, `Summary` keeps public ones. */
  method AppendFileStructs(out0: string, lang: LanguageType, strategy: BankStrategy, structs: seq<StructUnit>)
    returns (out: string)
    ensures out == out0 + ConcatMap(structs, FileStructLine(lang, strategy))
  {
    out := out0;
    var i := 0;
    while i < |structs|
      invariant 0 <= i <= |structs|
      invariant out == out0 + ConcatMap(structs[..i], FileStructLine(lang, strategy))
    {
      var piece := FormatFileStructLine(lang, strategy, structs[i]);
      ConcatMapPush(out0, structs, i, FileStructLine(lang, strategy), out, piece);
      out := out + piece;
      i := i + 1;
    }
    SeqTakeAll(structs);
  }

  /** What one element adds to the output (`FileTraitLine`). */
  method FormatFileTraitLine(lang: LanguageType, visStr: Visibility -> string, strategy: BankStrategy, item: TraitUnit) returns (piece: string)
    ensures piece == FileTraitLine(lang, visStr, strategy)(item)
  {
    piece := [];
    var t := item;
    if strategy == NoTests {
      var formatted := FormatTrait(lang, visStr, strategy, t);
      if formatted != [] {
        piece := formatted + "\n";
      }
    } else if t.visibility == Public {
      var formatted := FormatTrait(lang, visStr, strategy, t);
      piece := formatted + "\n";
    }
  }

  /** A file's traits: `NoTests` skips empty output, `Summary` keeps public ones. */
  method AppendFileTraits(out0: string, lang: LanguageType, visStr: Visibility -> string, strategy: BankStrategy, traits: seq<TraitUnit>)
    returns (out: string)
    ensures out == out0 + ConcatMap(traits, FileTraitLine(lang, visStr, strategy))
  {
    out := out0;
    var i := 0;
    while i < |traits|
      invariant 0 <= i <= |traits|
      invariant out == out0 + ConcatMap(traits[..i], FileTraitLine(lang, visStr, strategy))
    {
      var piece := FormatFileTraitLine(lang, visStr, strategy, traits[i]);
      ConcatMapPush(out0, traits, i, FileTraitLine(lang, visStr, strategy), out, piece);
      out := out + piece;
      i := i + 1;
    }
    SeqTakeAll(traits);
  }

  /** What one element adds to the output (`FileImplLine`). */
  method FormatFileImplLine(lang: LanguageType, strategy: BankStrategy, item: ImplUnit) returns (piece: string)
    ensures piece == FileImplLine(lang, strategy)(item)
  {
    piece := [];
    var formatted := FormatImpl(lang, strategy, item);
    if strategy == NoTests {
      if formatted != [] {
        piece := formatted + "\n";
      }
    } else {
      piece := formatted + "\n";
    }
  }

  /** A file's impls, every one of them: `NoTests` skips empty output, `Summary` does not. */
  method AppendFileImpls(out0: string, lang: LanguageType, strategy: BankStrategy, impls: seq<ImplUnit>)
    returns (out: string)
    ensures out == out0 + ConcatMap(impls, FileImplLine(lang, strategy))
  {
    out := out0;
    var i := 0;
    while i < |impls|
      invariant 0 <= i <= |impls|
      invariant out == out0 + ConcatMap(impls[..i], FileImplLine(lang, strategy))
    {
      var piece := FormatFileImplLine(lang, strategy, impls[i]);
      ConcatMapPush(out0, impls, i, FileImplLine(lang, strategy), out, piece);
      out := out + piece;
      i := i + 1;
    }
    SeqTakeAll(impls);
  }
}
