/**
 * `src/parser/formatter/python.rs`: `PythonFormatter::format_python`, the
 * Python-specific rendering of functions, classes, modules and files.
 * The `Py...Text` functions say what each `format_python` produces; the
 * `PyFormat...` methods build the same text by appending inside loops, as
 * the source does.  Every `format_python` returns `Ok`; the `Result` wrapper
 * is dropped.  Classes are `StructUnit`s.
 */
module PythonFormatter {
  import opened Wrappers
  import opened Strings
  import opened Codebank
  import opened Units

  // ------------------------------------------------------------ pieces

  /** A piece of a module or file under `NoTests`: followed by a blank line; nothing when empty. */
  function PyBlock(t: string): string
  {
    if t == [] then [] else t + "\n\n"
  }

  /** A piece of a module under `Summary`: followed by a newline; nothing when empty. */
  function PyLine(t: string): string
  {
    if t == [] then [] else t + "\n"
  }

  function PyDeclLine(d: DeclareStatements): string
  {
    d.source + "\n"
  }

  /** The test condition of `format_python`: some attribute contains `"test"`. */
  predicate PyIsTestFunction(f: FunctionUnit)
  {
    AnyContains(f.attributes, "test")
  }

  /** The test condition for modules: an attribute contains `"test_"` or the name starts with it. */
  predicate PyIsTestModule(m: ModuleUnit)
  {
    AnyContains(m.attributes, "test_") || StartsWith(m.name, "test_")
  }

  // --------------------------------------------------------- functions

  /** A source cut just after its first `:`, or `None` when it has none. */
  function UpToColon(src: string): Option<string>
  {
    match FindChar(src, ':')
    case Some(i) => Some(src[..i + 1])
    case None => None
  }

  /** What `Summary` keeps of a public function. */
  function PySummaryFunction(f: FunctionUnit): string
  {
    match f.signature
    case Some(sig) => sig + " ..."
    case None =>
      match f.source
      case Some(src) => (match UpToColon(src) case Some(head) => head + " ..." case None => src)
      case None => []
  }

  /** `format_python` for a `FunctionUnit`. */
  function PyFunctionText(strategy: BankStrategy, f: FunctionUnit): string
  {
    match strategy
    case Default => f.source.UnwrapOr([])
    case NoTests => if PyIsTestFunction(f) then [] else f.source.UnwrapOr([])
    case Summary => if f.visibility == Private then [] else PySummaryFunction(f)
  }

  // ----------------------------------------------------------- classes

  /** One method of a class body under each strategy. */
  function PyMethodLine(strategy: BankStrategy): FunctionUnit -> string
  {
    (m: FunctionUnit) =>
      match strategy
      case Default => "\n    " + PyFunctionText(Default, m)
      case NoTests => if PyIsTestFunction(m) then [] else "\n    " + PyFunctionText(NoTests, m)
      case Summary => if m.visibility == Public then "    " + PyFunctionText(Summary, m) + "\n" else []
  }

  /** The class line `Summary` shows: the source through its first `:`, then a newline. */
  function PyClassHead(s: StructUnit): string
  {
    match s.source
    case Some(src) => (match UpToColon(src) case Some(head) => head + "\n" case None => [])
    case None => []
  }

  /** `format_python` for a `StructUnit` (a class). */
  function PyStructText(strategy: BankStrategy, s: StructUnit): string
  {
    if strategy == Summary && s.visibility == Private then []
    else
      var start := if strategy == Summary then PyClassHead(s) else s.source.UnwrapOr([]);
      start + ConcatMap(s.methods, PyMethodLine(strategy))
  }

  // ----------------------------------------------------------- modules

  function PyFunctionBlock(strategy: BankStrategy): FunctionUnit -> string
  {
    (f: FunctionUnit) => PyBlock(PyFunctionText(strategy, f))
  }

  function PyClassBlock(strategy: BankStrategy): StructUnit -> string
  {
    (s: StructUnit) => PyBlock(PyStructText(strategy, s))
  }

  function PyPublicFunctionLine(f: FunctionUnit): string
  {
    if f.visibility == Public then PyLine(PyFunctionText(Summary, f)) else []
  }

  function PyPublicClassLine(s: StructUnit): string
  {
    if s.visibility == Public then PyLine(PyStructText(Summary, s)) else []
  }

  /** `format_python` for a `ModuleUnit`. */
  function PyModuleText(strategy: BankStrategy, m: ModuleUnit): string
  {
    match strategy
    case Default => (match m.source case Some(src) => src + "\n\n" case None => [])
    case NoTests =>
      if PyIsTestModule(m) then []
      else
        ConcatMap(m.declares, PyDeclLine)
        + ConcatMap(m.functions, PyFunctionBlock(NoTests))
        + ConcatMap(m.structs, PyClassBlock(NoTests))
    case Summary =>
      if m.visibility == Private then []
      else ConcatMap(m.functions, PyPublicFunctionLine) + ConcatMap(m.structs, PyPublicClassLine)
  }

  // ------------------------------------------------------------- files

  function PyModuleBlock(strategy: BankStrategy): ModuleUnit -> string
  {
    (m: ModuleUnit) => PyBlock(PyModuleText(strategy, m))
  }

  /** `format_python` for a `FileUnit`. */
  function PyFileText(strategy: BankStrategy, f: FileUnit): string
  {
    if strategy == Default then f.source.UnwrapOr([])
    else
      ConcatMap(f.declares, PyDeclLine)
      + ConcatMap(f.modules, PyModuleBlock(strategy))
      + ConcatMap(f.functions, PyFunctionBlock(strategy))
      + ConcatMap(f.structs, PyClassBlock(strategy))
  }

  // ----------------------------------------------------------- methods

  /** `format_python` for a `FunctionUnit`, with the source's early returns. */
  method PyFormatFunction(strategy: BankStrategy, f: FunctionUnit) returns (out: string)
    ensures out == PyFunctionText(strategy, f)
  {
    out := [];
    match strategy {
      case Default =>
        if f.source.Some? {
          out := f.source.value;
        }
      case NoTests =>
        if AnyContains(f.attributes, "test") {
          return [];
        }
        if f.source.Some? {
          out := f.source.value;
        }
      case Summary =>
        if f.visibility == Private {
          return [];
        }
        if f.signature.Some? {
          out := f.signature.value + " ...";
        } else if f.source.Some? {
          var src := f.source.value;
          var idx := FindChar(src, ':');
          if idx.Some? {
            out := src[..idx.value + 1] + " ...";
          } else {
            out := src;
          }
        }
    }
  }

  /** What one element adds to the output (`PyMethodLine`). */
  method FormatPyMethodLine(strategy: BankStrategy, item: FunctionUnit) returns (piece: string)
    ensures piece == PyMethodLine(strategy)(item)
  {
    piece := [];
    var m := item;
    if strategy == Default {
      var formatted := PyFormatFunction(strategy, m);
      piece := "\n    " + formatted;
    } else if strategy == NoTests {
      if !AnyContains(m.attributes, "test") {
        var formatted := PyFormatFunction(strategy, m);
        piece := "\n    " + formatted;
      }
    } else if m.visibility == Public {
      var formatted := PyFormatFunction(strategy, m);
      piece := "    " + formatted + "\n";
    }
  }

  /** Appends each method of a class body as the strategy shows it. */
  method AppendPyMethods(out0: string, strategy: BankStrategy, methods: seq<FunctionUnit>) returns (out: string)
    ensures out == out0 + ConcatMap(methods, PyMethodLine(strategy))
  {
    out := out0;
    var i := 0;
    while i < |methods|
      invariant 0 <= i <= |methods|
      invariant out == out0 + ConcatMap(methods[..i], PyMethodLine(strategy))
    {
      var piece := FormatPyMethodLine(strategy, methods[i]);
      ConcatMapPush(out0, methods, i, PyMethodLine(strategy), out, piece);
      out := out + piece;
      i := i + 1;
    }
    SeqTakeAll(methods);
  }

  /** `format_python` for a `StructUnit`. */
  method PyFormatStruct(strategy: BankStrategy, s: StructUnit) returns (out: string)
    ensures out == PyStructText(strategy, s)
  {
    out := [];
    if strategy == Summary {
      if s.visibility == Private {
        return [];
      }
      if s.source.Some? {
        var src := s.source.value;
        var idx := FindChar(src, ':');
        if idx.Some? {
          out := src[..idx.value + 1] + "\n";
        }
      }
    } else if s.source.Some? {
      out := s.source.value;
    }
    out := AppendPyMethods(out, strategy, s.methods);
  }

  method AppendPyDeclares(out0: string, declares: seq<DeclareStatements>) returns (out: string)
    ensures out == out0 + ConcatMap(declares, PyDeclLine)
  {
    out := out0;
    var i := 0;
    while i < |declares|
      invariant 0 <= i <= |declares|
      invariant out == out0 + ConcatMap(declares[..i], PyDeclLine)
    {
      ConcatMapStep(out0, declares, i, PyDeclLine);
      out := out + (declares[i].source + "\n");
      i := i + 1;
    }
    SeqTakeAll(declares);
  }

  /** What one element adds to the output (`PyFunctionBlock`). */
  method FormatPyFunctionBlock(strategy: BankStrategy, item: FunctionUnit) returns (piece: string)
    ensures piece == PyFunctionBlock(strategy)(item)
  {
    piece := [];
    var formatted := PyFormatFunction(strategy, item);
    if formatted != [] {
      piece := formatted + "\n\n";
    }
  }

  /** Appends each function that formats to something, followed by a blank line. */
  method AppendPyFunctionBlocks(out0: string, strategy: BankStrategy, functions: seq<FunctionUnit>) returns (out: string)
    ensures out == out0 + ConcatMap(functions, PyFunctionBlock(strategy))
  {
    out := out0;
    var i := 0;
    while i < |functions|
      invariant 0 <= i <= |functions|
      invariant out == out0 + ConcatMap(functions[..i], PyFunctionBlock(strategy))
    {
      var piece := FormatPyFunctionBlock(strategy, functions[i]);
      ConcatMapPush(out0, functions, i, PyFunctionBlock(strategy), out, piece);
      out := out + piece;
      i := i + 1;
    }
    SeqTakeAll(functions);
  }

  /** What one element adds to the output (`PyClassBlock`). */
  method FormatPyClassBlock(strategy: BankStrategy, item: StructUnit) returns (piece: string)
    ensures piece == PyClassBlock(strategy)(item)
  {
    piece := [];
    var formatted := PyFormatStruct(strategy, item);
    if formatted != [] {
      piece := formatted + "\n\n";
    }
  }

  /** Appends each class that formats to something, followed by a blank line. */
  method AppendPyClassBlocks(out0: string, strategy: BankStrategy, classes: seq<StructUnit>) returns (out: string)
    ensures out == out0 + ConcatMap(classes, PyClassBlock(strategy))
  {
    out := out0;
    var i := 0;
    while i < |classes|
      invariant 0 <= i <= |classes|
      invariant out == out0 + ConcatMap(classes[..i], PyClassBlock(strategy))
    {
      var piece := FormatPyClassBlock(strategy, classes[i]);
      ConcatMapPush(out0, classes, i, PyClassBlock(strategy), out, piece);
      out := out + piece;
      i := i + 1;
    }
    SeqTakeAll(classes);
  }

  /** `Summary` inside a module: each public function that formats to something, on its own line. */
  method AppendPyPublicFunctions(out0: string, functions: seq<FunctionUnit>) returns (out: string)
    ensures out == out0 + ConcatMap(functions, PyPublicFunctionLine)
  {
    out := out0;
    var i := 0;
    while i < |functions|
      invariant 0 <= i <= |functions|
      invariant out == out0 + ConcatMap(functions[..i], PyPublicFunctionLine)
    {
      ConcatMapStep(out0, functions, i, PyPublicFunctionLine);
      if functions[i].visibility == Public {
        var formatted := PyFormatFunction(Summary, functions[i]);
        if formatted != [] {
          out := out + (formatted + "\n");
        }
      }
      i := i + 1;
    }
    SeqTakeAll(functions);
  }

  /** `Summary` inside a module: each public class that formats to something, on its own line. */
  method AppendPyPublicClasses(out0: string, classes: seq<StructUnit>) returns (out: string)
    ensures out == out0 + ConcatMap(classes, PyPublicClassLine)
  {
    out := out0;
    var i := 0;
    while i < |classes|
      invariant 0 <= i <= |classes|
      invariant out == out0 + ConcatMap(classes[..i], PyPublicClassLine)
    {
      ConcatMapStep(out0, classes, i, PyPublicClassLine);
      if classes[i].visibility == Public {
        var formatted := PyFormatStruct(Summary, classes[i]);
        if formatted != [] {
          out := out + (formatted + "\n");
        }
      }
      i := i + 1;
    }
    SeqTakeAll(classes);
  }

  /** `format_python` for a `ModuleUnit`. */
  method PyFormatModule(strategy: BankStrategy, m: ModuleUnit) returns (out: string)
    ensures out == PyModuleText(strategy, m)
  {
    out := [];
    match strategy {
      case Default =>
        if m.source.Some? {
          out := m.source.value + "\n\n";
        }
      case NoTests =>
        if AnyContains(m.attributes, "test_") || StartsWith(m.name, "test_") {
          return [];
        }
        out := AppendPyDeclares(out, m.declares);
        assert out == ConcatMap(m.declares, PyDeclLine);
        out := AppendPyFunctionBlocks(out, strategy, m.functions);
        out := AppendPyClassBlocks(out, strategy, m.structs);
      case Summary =>
        if m.visibility == Private {
          return [];
        }
        out := AppendPyPublicFunctions(out, m.functions);
        assert out == ConcatMap(m.functions, PyPublicFunctionLine);
        out := AppendPyPublicClasses(out, m.structs);
    }
  }

  /** What one element adds to the output (`PyModuleBlock`). */
  method FormatPyModuleBlock(strategy: BankStrategy, item: ModuleUnit) returns (piece: string)
    ensures piece == PyModuleBlock(strategy)(item)
  {
    piece := [];
    var formatted := PyFormatModule(strategy, item);
    if formatted != [] {
      piece := formatted + "\n\n";
    }
  }

  /** Appends each module that formats to something, followed by a blank line. */
  method AppendPyModuleBlocks(out0: string, strategy: BankStrategy, modules: seq<ModuleUnit>) returns (out: string)
    ensures out == out0 + ConcatMap(modules, PyModuleBlock(strategy))
  {
    out := out0;
    var i := 0;
    while i < |modules|
      invariant 0 <= i <= |modules|
      invariant out == out0 + ConcatMap(modules[..i], PyModuleBlock(strategy))
    {
      var piece := FormatPyModuleBlock(strategy, modules[i]);
      ConcatMapPush(out0, modules, i, PyModuleBlock(strategy), out, piece);
      out := out + piece;
      i := i + 1;
    }
    SeqTakeAll(modules);
  }

  /** `format_python` for a `FileUnit`: declarations, then modules, functions and classes. */
  method PyFormatFile(strategy: BankStrategy, f: FileUnit) returns (out: string)
    ensures out == PyFileText(strategy, f)
  {
    if strategy == Default {
      return f.source.UnwrapOr([]);
    }
    out := AppendPyDeclares([], f.declares);
    assert out == ConcatMap(f.declares, PyDeclLine);
    out := AppendPyModuleBlocks(out, strategy, f.modules);
    out := AppendPyFunctionBlocks(out, strategy, f.functions);
    out := AppendPyClassBlocks(out, strategy, f.structs);
  }

  // -------------------------------------------------------- properties

  /** Under `Default` a function is its source; under `NoTests` too, unless it is a test. */
  lemma PyFunctionKeepsSource(f: FunctionUnit)
    ensures PyFunctionText(Default, f) == f.source.UnwrapOr([])
    ensures PyFunctionText(NoTests, f) == if PyIsTestFunction(f) then [] else f.source.UnwrapOr([])
  {
  }

  /** A function with an attribute containing `"test"` is left out under `NoTests`. */
  lemma PyNoTestsOmitsTests(f: FunctionUnit, i: nat)
    requires i < |f.attributes| && Contains(f.attributes[i], "test")
    ensures PyFunctionText(NoTests, f) == []
  {
  }

  /** Under `Summary`, a `Private` function, class or module is rendered as nothing. */
  lemma PySummaryOmitsPrivate(f: FunctionUnit, s: StructUnit, m: ModuleUnit)
    ensures f.visibility == Private ==> PyFunctionText(Summary, f) == []
    ensures s.visibility == Private ==> PyStructText(Summary, s) == []
    ensures m.visibility == Private ==> PyModuleText(Summary, m) == []
  {
  }

  /**
   * A non-private function under `Summary`: its signature and `" ..."`; with no
   * signature, its source through the first `:` and `" ..."`; otherwise its
   * whole source.  The body is never shown.
   */
  lemma PySummaryFunctionShape(f: FunctionUnit)
    requires f.visibility != Private
    ensures var out := PyFunctionText(Summary, f);
            && (f.signature.Some? ==> out == f.signature.value + " ...")
            && (f.signature.None? && f.source.Some? && ':' in f.source.value ==>
                  exists k :: 0 <= k < |f.source.value| && f.source.value[k] == ':'
                              && (forall j :: 0 <= j < k ==> f.source.value[j] != ':')
                              && out == f.source.value[..k + 1] + " ...")
            && (f.signature.None? && f.source.Some? && ':' !in f.source.value ==> out == f.source.value)
            && (f.signature.Some? || (f.source.Some? && ':' in f.source.value) ==> EndsWith(out, " ..."))
  {
    var out := PyFunctionText(Summary, f);
    if f.signature.Some? {
      EndsWithSuffix(f.signature.value, " ...");
    } else if f.source.Some? && ':' in f.source.value {
      var src := f.source.value;
      var k := FindChar(src, ':').value;
      assert out == src[..k + 1] + " ...";
      EndsWithSuffix(src[..k + 1], " ...");
    }
  }

  /** Under `Summary` a function's body is never looked at. */
  lemma PySummaryIgnoresBody(f: FunctionUnit, body: Option<string>)
    ensures PyFunctionText(Summary, f.(body := body)) == PyFunctionText(Summary, f)
  {
  }

  /** Under `Summary` a class shows only its public methods: pruning the others changes nothing. */
  lemma PyClassSummaryPublicMethodsOnly(s: StructUnit)
    ensures PyStructText(Summary, s) == PyStructText(Summary, s.(methods := Filter(s.methods, (m: FunctionUnit) => m.visibility == Public)))
  {
    var line := PyMethodLine(Summary);
    ConcatMapFilter(s.methods, (m: FunctionUnit) => m.visibility == Public, line, line);
  }

  /** Under `Summary` a class starts with its source through the first `:`, then a newline. */
  lemma PyClassSummaryStartsWithHead(s: StructUnit)
    requires s.visibility != Private && s.source.Some? && ':' in s.source.value
    ensures var src := s.source.value;
            exists k :: 0 <= k < |src| && src[k] == ':' && (forall j :: 0 <= j < k ==> src[j] != ':')
                        && StartsWith(PyStructText(Summary, s), src[..k + 1] + "\n")
  {
    var src := s.source.value;
    var k := FindChar(src, ':').value;
    StartsWithPrefix(src[..k + 1] + "\n", ConcatMap(s.methods, PyMethodLine(Summary)));
  }

  /** Under `NoTests` a class drops its test methods: pruning them changes nothing. */
  lemma PyClassNoTestsDropsTestMethods(s: StructUnit)
    ensures PyStructText(NoTests, s) == PyStructText(NoTests, s.(methods := Filter(s.methods, (m: FunctionUnit) => !PyIsTestFunction(m))))
  {
    var line := PyMethodLine(NoTests);
    ConcatMapFilter(s.methods, (m: FunctionUnit) => !PyIsTestFunction(m), line, line);
  }

  /** Under `NoTests`, a module named `test_...` or with an attribute containing `"test_"` is left out. */
  lemma PyNoTestsOmitsTestModules(m: ModuleUnit)
    requires StartsWith(m.name, "test_") || exists i :: 0 <= i < |m.attributes| && Contains(m.attributes[i], "test_")
    ensures PyModuleText(NoTests, m) == []
  {
  }

  /** Under `Summary` a module shows only its public functions and classes: pruning the others changes nothing. */
  lemma PyModuleSummaryPublicOnly(m: ModuleUnit)
    ensures PyModuleText(Summary, m)
         == PyModuleText(Summary, m.(functions := Filter(m.functions, (f: FunctionUnit) => f.visibility == Public),
                                     structs := Filter(m.structs, (s: StructUnit) => s.visibility == Public)))
  {
    ConcatMapFilter(m.functions, (f: FunctionUnit) => f.visibility == Public, PyPublicFunctionLine, PyPublicFunctionLine);
    ConcatMapFilter(m.structs, (s: StructUnit) => s.visibility == Public, PyPublicClassLine, PyPublicClassLine);
  }

  /** The pieces a file shows, in order: modules, then functions, then classes. */
  function PyFilePieces(strategy: BankStrategy, f: FileUnit): seq<string>
  {
    MapSeq(f.modules, (m: ModuleUnit) => PyModuleText(strategy, m))
    + MapSeq(f.functions, (g: FunctionUnit) => PyFunctionText(strategy, g))
    + MapSeq(f.structs, (s: StructUnit) => PyStructText(strategy, s))
  }

  /**
   * Under `NoTests` and `Summary` a file is its declarations, one per line,
   * then every non-empty piece in order, each followed by a blank line.
   */
  lemma PyFileLayout(strategy: BankStrategy, f: FileUnit)
    requires strategy != Default
    ensures PyFileText(strategy, f)
         == ConcatMap(f.declares, PyDeclLine)
            + ConcatMap(Filter(PyFilePieces(strategy, f), (t: string) => t != []), (t: string) => t + "\n\n")
  {
    var ms := MapSeq(f.modules, (m: ModuleUnit) => PyModuleText(strategy, m));
    var fs := MapSeq(f.functions, (g: FunctionUnit) => PyFunctionText(strategy, g));
    var cs := MapSeq(f.structs, (s: StructUnit) => PyStructText(strategy, s));
    var b := ConcatMap(f.modules, PyModuleBlock(strategy));
    var c := ConcatMap(f.functions, PyFunctionBlock(strategy));
    var d := ConcatMap(f.structs, PyClassBlock(strategy));
    assert b == ConcatMap(ms, PyBlock) by {
      ConcatMapMap(f.modules, (m: ModuleUnit) => PyModuleText(strategy, m), PyBlock, PyModuleBlock(strategy));
    }
    assert c == ConcatMap(fs, PyBlock) by {
      ConcatMapMap(f.functions, (g: FunctionUnit) => PyFunctionText(strategy, g), PyBlock, PyFunctionBlock(strategy));
    }
    assert d == ConcatMap(cs, PyBlock) by {
      ConcatMapMap(f.structs, (s: StructUnit) => PyStructText(strategy, s), PyBlock, PyClassBlock(strategy));
    }
    assert ConcatMap(ms + fs + cs, PyBlock) == b + c + d by {
      ConcatMapAppend(ms, fs, PyBlock);
      ConcatMapAppend(ms + fs, cs, PyBlock);
    }
    assert ConcatMap(ms + fs + cs, PyBlock)
        == ConcatMap(Filter(ms + fs + cs, (t: string) => t != []), (t: string) => t + "\n\n") by {
      ConcatMapFilter(ms + fs + cs, (t: string) => t != [], (t: string) => t + "\n\n", PyBlock);
    }
    assert PyFilePieces(strategy, f) == ms + fs + cs;
    var a := ConcatMap(f.declares, PyDeclLine);
    assert a + (b + c + d) == a + b + c + d by {
      AppendAssoc(a, b + c, d);
      AppendAssoc(a, b, c);
    }
  }
}
