/**
 * The text-level logic of the Python parser (`src/parser/lang/python.rs`).
 * Tree-sitter nodes appear as their kind and text.
 */
module PythonParser {
  import opened Wrappers
  import opened Strings
  import opened Units

  const TripleDouble: string := "\"\"\""
  const TripleSingle: string := "'''"

  // ---------------------------------------------------------- visibility

  /** A name is private exactly when it starts with an underscore. */
  function VisibilityOfName(name: string): (v: Visibility)
    ensures (v == Private) <==> (name != [] && name[0] == '_')
    ensures v == Public || v == Private
  {
    if StartsWith(name, "_") then Private else Public
  }

  // ---------------------------------------------------------- docstrings

  /** Whether `doc` starts and ends with the quote `q`. */
  predicate QuotedBy(doc: string, q: string)
  {
    StartsWith(doc, q) && EndsWith(doc, q)
  }

  /** Whether `doc[3..len - 3]` is in range wherever `clean_docstring` takes it. */
  predicate DocstringSliceable(doc: string)
  {
    QuotedBy(doc, TripleDouble) || QuotedBy(doc, TripleSingle) ==> |doc| >= 6
  }

  /** The text between three leading and three trailing characters. */
  function Inner(doc: string): string
    requires |doc| >= 6
  {
    doc[3..|doc| - 3]
  }

  /** The runs of `"` and then of `'` off both ends. */
  function StripQuotes(doc: string): string
  {
    TrimMatchesChar(TrimMatchesChar(doc, '"'), '\'')
  }

  /**
   * `clean_docstring`: a string between matching triple quotes loses them and
   * is trimmed; any other loses its runs of `"` and then of `'` at both ends
   * and is trimmed.
   */
  function CleanDocstring(doc: string): (r: string)
    requires DocstringSliceable(doc)
    ensures r == [] || (!IsWhitespace(r[0]) && !IsWhitespace(r[|r| - 1]))
  {
    if QuotedBy(doc, TripleDouble) || QuotedBy(doc, TripleSingle) then Trim(Inner(doc))
    else Trim(StripQuotes(doc))
  }

  /** A triple-quoted docstring is its trimmed content, whatever the content. */
  lemma TripleQuotedDocstring(q: string, content: string)
    requires q == TripleDouble || q == TripleSingle
    ensures DocstringSliceable(q + content + q)
    ensures CleanDocstring(q + content + q) == Trim(content)
  {
    var doc := q + content + q;
    assert StartsWith(doc, q) by {
      AppendAssoc(q, content, q);
      StartsWithPrefix(q, content + q);
    }
    EndsWithSuffix(q + content, q);
    assert Inner(doc) == content;
  }

  /** A text in single double quotes is its content when the content is trimmed and starts and ends with no quote. */
  lemma SingleQuotedDocstring(w: string)
    requires w != [] && !IsWhitespace(w[0]) && !IsWhitespace(w[|w| - 1])
    requires w[0] != '"' && w[0] != '\'' && w[|w| - 1] != '"' && w[|w| - 1] != '\''
    ensures DocstringSliceable("\"" + w + "\"")
    ensures CleanDocstring("\"" + w + "\"") == w
  {
    var doc := "\"" + w + "\"";
    assert doc[1] == w[0];
    assert !StartsWith(doc, TripleDouble) by {
      if |doc| >= 3 {
        assert doc[..3][1] == w[0];
      }
    }
    assert !StartsWith(doc, TripleSingle) by {
      assert doc[..3][0] == '"';
    }
    assert StripQuotes(doc) == w by {
      assert TrimMatchesChar(doc, '"') == w by {
        StripDelimiters("\"", w, "\"");
      }
      TrimStartMatchesUnchanged(w, "'");
      TrimEndMatchesUnchanged(w, "'");
    }
    TrimStartNoLeading(w);
    TrimEndNoTrailing(w);
  }

  /** A text whose first character differs from the pattern's does not start with it. */
  lemma TrimStartMatchesUnchanged(s: string, p: string)
    requires s != [] && p != [] && s[0] != p[0]
    ensures TrimStartMatches(s, p) == s
  {
    if |p| <= |s| {
      assert s[..|p|][0] == s[0];
    }
  }

  /** A text whose last character differs from the pattern's does not end with it. */
  lemma TrimEndMatchesUnchanged(s: string, p: string)
    requires s != [] && p != [] && s[|s| - 1] != p[|p| - 1]
    ensures TrimEndMatches(s, p) == s
  {
    if |p| <= |s| {
      assert s[|s| - |p|..][|p| - 1] == s[|s| - 1];
    }
  }

  /** One stage of the module docstring: a pattern's runs come off the start, then off the end. */
  function StripRuns(s: string, p: string): (r: string)
    ensures |r| <= |s|
  {
    TrimEndMatches(TrimStartMatches(s, p), p)
  }

  /** A text that neither starts nor ends like the pattern keeps it through a stage. */
  lemma StripRunsUnchanged(s: string, p: string)
    requires s != [] && p != [] && s[0] != p[0] && s[|s| - 1] != p[|p| - 1]
    ensures StripRuns(s, p) == s
  {
    TrimStartMatchesUnchanged(s, p);
    TrimEndMatchesUnchanged(s, p);
  }

  /**
   * The module docstring of `parse_file`: runs of `"""`, then of `'''`, then
   * of `"`, then of `'` come off each end, and the rest is trimmed.
   */
  function ModuleDocstring(doc: string): (r: string)
    ensures |r| <= |doc|
  {
    Trim(StripRuns(StripRuns(StripRuns(StripRuns(doc, TripleDouble), TripleSingle), "\""), "'"))
  }

  /** A module docstring in triple single quotes is its text, when the text is trimmed and starts and ends with no quote. */
  lemma ModuleDocstringOf(w: string)
    requires w != [] && !IsWhitespace(w[0]) && !IsWhitespace(w[|w| - 1])
    requires w[0] != '"' && w[0] != '\'' && w[|w| - 1] != '"' && w[|w| - 1] != '\''
    ensures ModuleDocstring(TripleSingle + w + TripleSingle) == w
  {
    TripleQuoteStages(w);
    UnquotedStages(w, "\"", "'");
    ModuleDocstringStages(TripleSingle + w + TripleSingle, w);
  }

  /** A trimmed text that starts and ends with neither pattern is left alone by the last stages. */
  lemma UnquotedStages(w: string, p: string, q: string)
    requires w != [] && !IsWhitespace(w[0]) && !IsWhitespace(w[|w| - 1])
    requires p != [] && q != []
    requires w[0] != p[0] && w[|w| - 1] != p[|p| - 1] && w[0] != q[0] && w[|w| - 1] != q[|q| - 1]
    ensures Trim(StripRuns(StripRuns(w, p), q)) == w
  {
    StripRunsUnchanged(w, p);
    StripRunsUnchanged(w, q);
    TrimmedUnchanged(w);
  }

  /** The first two stages take a text in triple single quotes to the text. */
  lemma TripleQuoteStages(w: string)
    requires w != [] && w[0] != '\'' && w[|w| - 1] != '\''
    ensures StripRuns(StripRuns(TripleSingle + w + TripleSingle, TripleDouble), TripleSingle) == w
  {
    QuotedStages(TripleSingle, w, TripleDouble);
  }

  /** A text in quotes `q` keeps them through a stage for `p`, and loses them through one for `q`. */
  lemma QuotedStages(q: string, w: string, p: string)
    requires q != [] && w != [] && p != []
    requires q[0] != p[0] && q[|q| - 1] != p[|p| - 1]
    requires w[0] != q[0] && w[|w| - 1] != q[|q| - 1]
    ensures StripRuns(StripRuns(q + w + q, p), q) == w
  {
    var doc := q + w + q;
    assert doc[0] == q[0] && doc[|doc| - 1] == q[|q| - 1];
    StripRunsUnchanged(doc, p);
    StripDelimiters(q, w, q);
  }

  lemma TrimmedUnchanged(w: string)
    requires w == [] || (!IsWhitespace(w[0]) && !IsWhitespace(w[|w| - 1]))
    ensures Trim(w) == w
  {
    TrimStartNoLeading(w);
    TrimEndNoTrailing(w);
  }

  lemma ModuleDocstringStages(doc: string, w: string)
    requires StripRuns(StripRuns(doc, TripleDouble), TripleSingle) == w
    requires Trim(StripRuns(StripRuns(w, "\""), "'")) == w
    ensures ModuleDocstring(doc) == w
  {
  }



  // ---------------------------------------------------------- functions

  /**
   * The split of `parse_function`: the source before its first `:`, trimmed,
   * is the signature and the rest after it, trimmed, the body; without a
   * colon there is neither.
   */
  function SplitAtColon(source: Option<string>): (r: (Option<string>, Option<string>))
    ensures r.0.None? <==> (source.None? || ':' !in source.value)
    ensures r.0.None? <==> r.1.None?
  {
    match source
    case None => (None, None)
    case Some(src) =>
      match FindChar(src, ':')
      case None => (None, None)
      case Some(i) =>
        var head := Before(src, i);
        var rest := Trim(src[i + 1..]);
        (Some(head), Some(rest))
  }

  /** The signature has no colon, and both parts are trimmed. */
  lemma SplitAtColonParts(source: Option<string>)
    ensures var r := SplitAtColon(source);
      (r.0.Some? ==> ':' !in r.0.value && Trimmed(r.0.value)) && (r.1.Some? ==> Trimmed(r.1.value))
  {
    if source.Some? && FindChar(source.value, ':').Some? {
      var src := source.value;
      var i := FindChar(src, ':').value;
      assert SplitAtColon(source) == (Some(Before(src, i)), Some(Trim(src[i + 1..])));
    }
  }

  /** The trimmed text before the first colon, at `i`. */
  function Before(src: string, i: nat): (r: string)
    requires i < |src| && forall j :: 0 <= j < i ==> src[j] != ':'
    ensures ':' !in r && Trimmed(r)
  {
    assert ':' !in src[..i];
    TrimNoChar(src[..i], ':');
    Trim(src[..i])
  }

  /** A definition `head: rest` with no colon in its head splits into the trimmed head and the trimmed rest. */
  lemma SplitOfDefinition(head: string, rest: string)
    requires ':' !in head
    ensures SplitAtColon(Some(head + ":" + rest)) == (Some(Trim(head)), Some(Trim(rest)))
  {
    var src := head + ":" + rest;
    assert src[|head|] == ':';
    assert FindChar(src, ':') == Some(|head|) by {
      assert forall j :: 0 <= j < |head| ==> src[j] == head[j];
    }
    assert src[..|head|] == head;
    assert src[|head| + 1..] == rest;
    assert Before(src, |head|) == Trim(head);
  }

  /** A child of a definition node: its kind and text. */
  datatype PyNode = PyNode(kind: string, text: string)

  predicate IsDecorator(n: PyNode)
  {
    n.kind == "decorator"
  }

  function TextOf(n: PyNode): string
  {
    n.text
  }

  /** `extract_decorators`: the texts of the decorator children, in order. */
  method ExtractDecorators(children: seq<PyNode>) returns (decorators: seq<string>)
    ensures decorators == MapSeq(Filter(children, IsDecorator), TextOf)
    ensures forall k :: 0 <= k < |decorators| ==> PyNode("decorator", decorators[k]) in children
  {
    decorators := [];
    var i := 0;
    while i < |children|
      invariant i <= |children|
      invariant decorators == MapSeq(Filter(children[..i], IsDecorator), TextOf)
    {
      MapFilterStep(children, i, IsDecorator, TextOf);
      if children[i].kind == "decorator" {
        decorators := decorators + [children[i].text];
      }
      i := i + 1;
    }
    SeqTakeAll(children);
    DecoratorsPresent(children, decorators);
  }

  /** Every collected decorator text is the text of a decorator child. */
  lemma DecoratorsPresent(children: seq<PyNode>, decorators: seq<string>)
    requires decorators == MapSeq(Filter(children, IsDecorator), TextOf)
    ensures forall k :: 0 <= k < |decorators| ==> PyNode("decorator", decorators[k]) in children
  {
    var f := Filter(children, IsDecorator);
    forall k | 0 <= k < |decorators|
      ensures PyNode("decorator", decorators[k]) in children
    {
      assert IsDecorator(f[k]) && f[k] in children;
      assert f[k] == PyNode("decorator", decorators[k]);
    }
  }

  /**
   * `parse_function`: a missing identifier is named "unknown"; the
   * visibility follows the underscore rule; the signature and body come from
   * the split at the first colon.
   */
  function ParseFunction(identifier: Option<string>, doc: Option<string>, decorators: seq<string>,
                         source: Option<string>): (f: FunctionUnit)
    ensures f.name == identifier.UnwrapOr("unknown")
    ensures (f.visibility == Private) <==> (f.name != [] && f.name[0] == '_')
    ensures (f.signature, f.body) == SplitAtColon(source)
    ensures f.doc == doc && f.attributes == decorators && f.source == source
  {
    var name := identifier.UnwrapOr("unknown");
    var split := SplitAtColon(source);
    FunctionUnit(name, VisibilityOfName(name), doc, split.0, split.1, source, decorators)
  }

  /** A definition child of a class body: its kind and what `parse_function` reads from it. */
  datatype PyDef = PyDef(kind: string, identifier: Option<string>, doc: Option<string>,
                         decorators: seq<string>, source: Option<string>)

  predicate IsMethodDef(d: PyDef)
  {
    d.kind == "function_definition" || d.kind == "decorated_definition"
  }

  function MethodOf(d: PyDef): FunctionUnit
  {
    ParseFunction(d.identifier, d.doc, d.decorators, d.source)
  }

  /** The loop of `parse_class` over the class block. */
  method ClassMethods(block: seq<PyDef>) returns (methods: seq<FunctionUnit>)
    ensures methods == MapSeq(Filter(block, IsMethodDef), MethodOf)
  {
    methods := [];
    var i := 0;
    while i < |block|
      invariant i <= |block|
      invariant methods == MapSeq(Filter(block[..i], IsMethodDef), MethodOf)
    {
      MapFilterStep(block, i, IsMethodDef, MethodOf);
      if IsMethodDef(block[i]) {
        methods := methods + [MethodOf(block[i])];
      }
      i := i + 1;
    }
    SeqTakeAll(block);
  }

  /** `parse_class`: headed `class <name>`, the underscore rule, the decorators as attributes. */
  method ParseClass(identifier: Option<string>, doc: Option<string>, decorators: seq<string>,
                    source: Option<string>, block: seq<PyDef>) returns (s: StructUnit)
    ensures s.name == identifier.UnwrapOr("unknown") && s.head == "class " + s.name
    ensures (s.visibility == Private) <==> (s.name != [] && s.name[0] == '_')
    ensures s.methods == MapSeq(Filter(block, IsMethodDef), MethodOf)
    ensures s.doc == doc && s.attributes == decorators && s.source == source && s.fields == []
  {
    var name := identifier.UnwrapOr("unknown");
    var methods := ClassMethods(block);
    s := StructUnit(name, "class " + name, VisibilityOfName(name), doc, source, decorators, [], methods);
  }

  /** `parse_module`: a module named by its identifier, or "unknown", with the underscore rule and nothing inside. */
  function ParseModule(identifier: Option<string>, doc: Option<string>, source: Option<string>): (m: ModuleUnit)
    ensures m.name == identifier.UnwrapOr("unknown")
    ensures (m.visibility == Private) <==> (m.name != [] && m.name[0] == '_')
    ensures m.doc == doc && m.source == source
    ensures m.functions == [] && m.structs == [] && m.submodules == [] && m.declares == [] && m.attributes == []
  {
    var name := identifier.UnwrapOr("unknown");
    ModuleUnit(name, [], doc, [], VisibilityOfName(name), [], [], [], [], [], source)
  }

  // ------------------------------------------------------------ the file

  predicate IsImport(n: PyNode)
  {
    n.kind == "import_statement" || n.kind == "import_from_statement"
  }

  function ImportDeclare(n: PyNode): DeclareStatements
  {
    DeclareStatements(n.text, Import)
  }

  /** The import pass of `parse_file`: every import statement, in order, as an import declaration. */
  method CollectImports(nodes: seq<PyNode>) returns (declares: seq<DeclareStatements>)
    ensures declares == MapSeq(Filter(nodes, IsImport), ImportDeclare)
  {
    declares := [];
    var i := 0;
    while i < |nodes|
      invariant i <= |nodes|
      invariant declares == MapSeq(Filter(nodes[..i], IsImport), ImportDeclare)
    {
      MapFilterStep(nodes, i, IsImport, ImportDeclare);
      if IsImport(nodes[i]) {
        declares := declares + [ImportDeclare(nodes[i])];
      }
      i := i + 1;
    }
    SeqTakeAll(nodes);
  }

  /** Every collected import declaration is an import, with the text of an import statement. */
  lemma ImportsDeclared(nodes: seq<PyNode>)
    ensures var d := MapSeq(Filter(nodes, IsImport), ImportDeclare);
      forall k :: 0 <= k < |d| ==> d[k].kind == Import && exists n :: n in nodes && IsImport(n) && n.text == d[k].source
  {
    var f := Filter(nodes, IsImport);
    var d := MapSeq(f, ImportDeclare);
    forall k | 0 <= k < |d|
      ensures d[k].kind == Import && exists n :: n in nodes && IsImport(n) && n.text == d[k].source
    {
      assert d[k] == ImportDeclare(f[k]);
      assert f[k] in nodes && IsImport(f[k]);
    }
  }

  /** What a top-level node of `parse_file` becomes. */
  datatype Definition = FunctionDef | ClassDef

  /**
   * The dispatch of `parse_file`: a function or class definition is itself;
   * a decorated definition is what its first function or class child is
   * (given as `inner`); anything else is skipped.
   */
  function TopLevelDefinition(kind: string, inner: Option<string>): (d: Option<Definition>)
    ensures d == Some(FunctionDef) <==>
              (kind == "function_definition" || (kind == "decorated_definition" && inner == Some("function_definition")))
    ensures d == Some(ClassDef) <==>
              (kind == "class_definition" || (kind == "decorated_definition" && inner == Some("class_definition")))
  {
    if kind == "function_definition" then Some(FunctionDef)
    else if kind == "class_definition" then Some(ClassDef)
    else if kind == "decorated_definition" && inner == Some("function_definition") then Some(FunctionDef)
    else if kind == "decorated_definition" && inner == Some("class_definition") then Some(ClassDef)
    else None
  }
}
