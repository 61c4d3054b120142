/**
 * The text-level logic of the TypeScript parser (`src/parser/lang/ts.rs`).
 * Tree-sitter nodes appear as their kind and text, and a field the parser
 * looks up (`name`, `parameters`, `return_type`) as an `Option`.
 */
module TsParser {
  import opened Wrappers
  import opened Strings
  import opened Units

  // ------------------------------------------------------- doc comments

  /** A line of a doc comment without its leading whitespace and its `*` run with the whitespace after it. */
  function CleanDocLine(line: string): (r: string)
    ensures r == [] || !IsWhitespace(r[0])
  {
    var t := TrimStart(line);
    if StartsWith(t, "*") then TrimStart(TrimStartMatches(t, "*")) else t
  }

  /**
   * `extract_doc_comment`: only a comment opening with a slash and two stars documents; its
   * delimiters go, each line is cleaned, the lines are joined and trimmed,
   * and an empty result is no documentation.
   */
  /** The lines of a comment body, each cleaned, joined and trimmed. */
  function DocText(inner: string): (r: string)
    ensures r == [] || (!IsWhitespace(r[0]) && !IsWhitespace(r[|r| - 1]))
  {
    Trim(Join(MapSeq(Lines(inner), CleanDocLine), "\n"))
  }

  function ExtractDocComment(kind: string, text: string): (doc: Option<string>)
    ensures kind != "comment" || !StartsWith(text, "/**") ==> doc.None?
    ensures doc.Some? ==> doc.value != [] && Trimmed(doc.value)
  {
    if kind == "comment" && StartsWith(text, "/**") then
      var cleaned := DocText(TrimEndMatches(TrimStartMatches(text, "/**"), "*/"));
      if cleaned == [] then None else Some(cleaned)
    else None
  }

  /** The one line ` w ` cleans to `w`. */
  lemma DocLineOf(w: string)
    requires w != [] && !IsWhitespace(w[0]) && !IsWhitespace(w[|w| - 1]) && w[0] != '*'
    ensures Trim(CleanDocLine(" " + w + " ")) == w
  {
    assert TrimStart(" " + w + " ") == w + " " by {
      assert " " + w + " " == " " + (w + " ");
      TrimStartSkips(" ", w + " ");
      TrimStartNoLeading(w + " ");
    }
    assert !StartsWith(w + " ", "*") by {
      assert (w + " ")[0] == w[0];
    }
    TrimBeforeGap(w, " ");
  }

  /** A one-line doc comment around `w` documents `w`. */
  lemma DocCommentOfLine(w: string)
    requires w != [] && !IsWhitespace(w[0]) && !IsWhitespace(w[|w| - 1]) && w[0] != '*' && '\n' !in w
    ensures ExtractDocComment("comment", "/**" + (" " + w + " ") + "*/") == Some(w)
  {
    DocDelimiters(" " + w + " ");
    DocTextOfLine(w);
  }

  /** The delimiters come off a comment body that starts and ends with a blank. */
  lemma DocDelimiters(line: string)
    requires line != [] && line[0] == ' ' && line[|line| - 1] == ' '
    ensures StartsWith("/**" + line + "*/", "/**")
    ensures TrimEndMatches(TrimStartMatches("/**" + line + "*/", "/**"), "*/") == line
  {
    StartsWithPrefix("/**", line + "*/");
    AppendAssoc("/**", line, "*/");
    StripDelimiters("/**", line, "*/");
  }

  /** A single padded line cleans to its text. */
  lemma DocTextOfLine(w: string)
    requires w != [] && !IsWhitespace(w[0]) && !IsWhitespace(w[|w| - 1]) && w[0] != '*' && '\n' !in w
    ensures DocText(" " + w + " ") == w
  {
    var line := " " + w + " ";
    assert '\n' !in line;
    LinesOfLine(line);
    assert MapSeq([line], CleanDocLine) == [CleanDocLine(line)];
    DocLineOf(w);
  }


  // ---------------------------------------------------- finding the doc

  /**
   * A node before the declaration, nearest first: its kind, its text,
   * whether tree-sitter marks it extra, and the source text between its end
   * and the start of the node after it.
   */
  datatype Sibling = Sibling(kind: string, text: string, extra: bool, gap: string)

  /** A comment is attached to the node after it when one byte, or only blanks, lie between them. */
  predicate Attached(gap: string)
  {
    |gap| == 1 || (gap != [] && forall k :: 0 <= k < |gap| ==> gap[k] in " \n\t\r")
  }

  /**
   * The loop of `find_documentation_for_node` as written: `Some(d)` when it
   * returns `d`, `None` when it runs out of siblings. Its `break` sits inside
   * the comment branch, where the kind is always "comment", so no sibling
   * stops the scan.
   */
  function DocScanAsWritten(previous: seq<Sibling>): Option<Option<string>>
  {
    if previous == [] then None
    else if previous[0].kind == "comment" && Attached(previous[0].gap) then
      Some(ExtractDocComment(previous[0].kind, previous[0].text))
    else DocScanAsWritten(previous[1..])
  }

  /** The same loop with the stop its comment describes: a sibling that is neither a comment nor extra ends it. */
  function DocScan(previous: seq<Sibling>): Option<Option<string>>
  {
    if previous == [] then None
    else if previous[0].kind == "comment" && Attached(previous[0].gap) then
      Some(ExtractDocComment(previous[0].kind, previous[0].text))
    else if previous[0].kind != "comment" && !previous[0].extra then None
    else DocScan(previous[1..])
  }

  /**
   * `find_documentation_for_node` as written: the scan's result, or when it
   * finds nothing and the node sits in an export statement, the statement's
   * own documentation.
   */
  function FindDocumentationAsWritten(previous: seq<Sibling>, exportPrevious: Option<seq<Sibling>>): Option<string>
  {
    match DocScanAsWritten(previous)
    case Some(d) => d
    case None =>
      if exportPrevious.None? then None
      else DocScanAsWritten(exportPrevious.value).UnwrapOr(None)
  }

  /** `find_documentation_for_node` with the scan stopping at the previous declaration. */
  function FindDocumentation(previous: seq<Sibling>, exportPrevious: Option<seq<Sibling>>): Option<string>
  {
    match DocScan(previous)
    case Some(d) => d
    case None =>
      if exportPrevious.None? then None
      else DocScan(exportPrevious.value).UnwrapOr(None)
  }

  /** The comment attached to a node documents it, whatever lies further back. */
  lemma AttachedCommentDocuments(c: Sibling, further: seq<Sibling>, exportPrevious: Option<seq<Sibling>>)
    requires c.kind == "comment" && Attached(c.gap)
    ensures FindDocumentation([c] + further, exportPrevious) == ExtractDocComment("comment", c.text)
    ensures FindDocumentationAsWritten([c] + further, exportPrevious) == ExtractDocComment("comment", c.text)
  {
    assert ([c] + further)[0] == c;
  }

  /** With the stop, a declaration right before the node hides every comment before it. */
  lemma DeclarationStopsScan(d: Sibling, further: seq<Sibling>)
    requires d.kind != "comment" && !d.extra
    ensures FindDocumentation([d] + further, None) == None
  {
    assert ([d] + further)[0] == d;
  }

  /** As written, a declaration right before the node is skipped, and the scan goes on behind it. */
  lemma DeclarationSkippedAsWritten(d: Sibling, further: seq<Sibling>, exportPrevious: Option<seq<Sibling>>)
    requires d.kind != "comment"
    ensures FindDocumentationAsWritten([d] + further, exportPrevious) == FindDocumentationAsWritten(further, exportPrevious)
  {
    assert ([d] + further)[0] == d && ([d] + further)[1..] == further;
  }

  /**
   * As written, in a file holding the doc comment of a line `w`, then a
   * function declaration `decl`, then another function, the second function
   * takes the documentation of the first (`w` = `A`, `decl` =
   * `function a() {}`, say).
   */
  lemma DocOfPreviousDeclaration(decl: string, w: string)
    requires w != [] && !IsWhitespace(w[0]) && !IsWhitespace(w[|w| - 1]) && w[0] != '*' && '\n' !in w
    ensures var a := Sibling("function_declaration", decl, false, "\n");
      var c := Sibling("comment", "/**" + (" " + w + " ") + "*/", true, "\n");
      FindDocumentationAsWritten([a, c], None) == Some(w) &&
      FindDocumentation([a, c], None) == None
  {
    var a := Sibling("function_declaration", decl, false, "\n");
    var c := Sibling("comment", "/**" + (" " + w + " ") + "*/", true, "\n");
    assert [a, c] == [a] + [c] && [c] == [c] + [];
    DeclarationSkippedAsWritten(a, [c], None);
    AttachedCommentDocuments(c, [], None);
    DocCommentOfLine(w);
    DeclarationStopsScan(a, [c]);
  }


  /** The loop of `find_documentation_for_node`, with the stop. */
  method ScanSiblings(previous: seq<Sibling>) returns (found: Option<Option<string>>)
    ensures found == DocScan(previous)
  {
    var i := 0;
    while i < |previous|
      invariant i <= |previous|
      invariant DocScan(previous) == DocScan(previous[i..])
    {
      var prev := previous[i];
      assert previous[i..][0] == prev && previous[i..][1..] == previous[i + 1..];
      if prev.kind == "comment" && Attached(prev.gap) {
        return Some(ExtractDocComment(prev.kind, prev.text));
      }
      if prev.kind != "comment" && !prev.extra {
        return None;
      }
      i := i + 1;
    }
    return None;
  }

  /** `find_documentation_for_node`, with the stop: the siblings first, then those of the enclosing export statement. */
  method FindDocumentationOf(previous: seq<Sibling>, exportPrevious: Option<seq<Sibling>>) returns (doc: Option<string>)
    ensures doc == FindDocumentation(previous, exportPrevious)
  {
    var found := ScanSiblings(previous);
    if found.Some? {
      return found.value;
    }
    if exportPrevious.Some? {
      var outer := ScanSiblings(exportPrevious.value);
      doc := outer.UnwrapOr(None);
    } else {
      doc := None;
    }
  }

  // ------------------------------------------------------------ exports

  /** A child of the program node: its kind and text. */
  datatype TopNode = TopNode(kind: string, text: string)

  predicate NonEmpty(s: string)
  {
    s != []
  }

  /** A listed name: non-empty, trimmed, without commas, made of characters of the list. */
  predicate CleanName(n: string, items: string)
  {
    n != [] && Trimmed(n) && ',' !in n &&
    forall x :: x in n ==> x in items
  }

  /** A trimmed piece of a comma split is a listed name unless it is empty. */
  lemma TrimmedPiece(items: string, j: nat)
    requires j < |SplitChar(items, ',')|
    ensures Trim(SplitChar(items, ',')[j]) != [] ==> CleanName(Trim(SplitChar(items, ',')[j]), items)
  {
    var p := SplitChar(items, ',')[j];
    TrimNoChar(p, ',');
    SplitPieceChars(items, ',', j);
    TrimChars(p);
  }

  /** A non-empty element of the trimmed pieces is a listed name. */
  lemma TrimmedNonEmptyPiece(items: string, parts: seq<string>, trimmed: seq<string>, n: string)
    requires parts == SplitChar(items, ',') && trimmed == MapSeq(parts, Trim)
    requires n in trimmed && n != []
    ensures CleanName(n, items)
  {
    var j :| 0 <= j < |trimmed| && trimmed[j] == n;
    TrimmedPiece(items, j);
  }

  /** The names of a comma-separated list: each piece trimmed, empty pieces dropped. */
  function ListNames(items: string): (names: seq<string>)
    ensures forall k :: 0 <= k < |names| ==> CleanName(names[k], items)
  {
    var parts := SplitChar(items, ',');
    var trimmed := MapSeq(parts, Trim);
    var names := Filter(trimmed, NonEmpty);
    forall k | 0 <= k < |names|
      ensures CleanName(names[k], items)
    {
      assert names[k] in trimmed && NonEmpty(names[k]);
      TrimmedNonEmptyPiece(items, parts, trimmed, names[k]);
    }
    names
  }

  /** Trimming keeps only characters of the text. */
  lemma TrimChars(s: string)
    ensures forall x :: x in Trim(s) ==> x in s
  {
    forall x | x in Trim(s) ensures x in s {
      if x !in s {
        TrimNoChar(s, x);
      }
    }
  }

  /** A name of an export list: non-empty, trimmed, and free of commas and braces. */
  predicate ExportName(n: string)
  {
    n != [] && Trimmed(n) && ',' !in n && '{' !in n && '}' !in n
  }

  /**
   * The names of `export { A, B }`: the text after the first `{` up to the
   * next `{`, cut at its first `}`, read as a list. Text without both braces
   * names nothing.
   */
  function ExportListNames(text: string): (names: seq<string>)
    ensures forall k :: 0 <= k < |names| ==> ExportName(names[k])
    ensures '{' !in text || '}' !in text ==> names == []
  {
    if '{' in text && '}' in text then
      var pieces := SplitChar(text, '{');
      if |pieces| >= 2 then
        BracedNames(pieces[1]);
        ListNames(SplitChar(pieces[1], '}')[0])
      else []
    else []
  }

  /** The list cut from a text without `{` at its first `}` names only export names. */
  lemma BracedNames(p: string)
    requires '{' !in p
    ensures forall k :: 0 <= k < |ListNames(SplitChar(p, '}')[0])| ==> ExportName(ListNames(SplitChar(p, '}')[0])[k])
  {
    var items := SplitChar(p, '}')[0];
    assert '}' !in items;
    assert '{' !in items by {
      SplitPieceChars(p, '}', 0);
    }
    var names := ListNames(items);
    forall k | 0 <= k < |names| ensures ExportName(names[k]) {
      assert CleanName(names[k], items);
    }
  }


  /** Every character of a piece of a split is a character of the text. */
  lemma {:induction false} SplitPieceChars(s: string, c: char, j: nat)
    requires j < |SplitChar(s, c)|
    ensures forall x :: x in SplitChar(s, c)[j] ==> x in s
    decreases |s|
  {
    match FindChar(s, c)
    case None =>
    case Some(i) =>
      var t := s[i + 1..];
      assert forall x :: x in t ==> x in s by {
        assert s == s[..i + 1] + t;
      }
      assert forall x :: x in s[..i] ==> x in s by {
        assert s == s[..i] + s[i..];
      }
      if j > 0 {
        SplitPieceChars(t, c, j - 1);
      }
  }

  /** `export default X`: the third word with its trailing `;` run removed. */
  function DefaultExportName(text: string): (name: Option<string>)
    ensures !StartsWith(text, "export default") ==> name.None?
    ensures name.Some? ==> !EndsWith(name.value, ";") && NoWhitespace(name.value)
  {
    if StartsWith(text, "export default") then
      var parts := SplitWhitespace(text);
      if |parts| >= 3 then
        var n := TrimEndMatches(parts[2], ";");
        assert forall k :: 0 <= k < |n| ==> n[k] == parts[2][k];
        Some(n)
      else None
    else None
  }

  /** Three words separated by single spaces split into those words. */
  lemma ThreeWords(a: string, b: string, c: string, sp: string)
    requires a != [] && b != [] && c != [] && NoWhitespace(a) && NoWhitespace(b) && NoWhitespace(c)
    requires sp != [] && AllWhitespace(sp)
    ensures SplitWhitespace(a + sp + b + sp + c) == [a, b, c]
  {
    var y := a + sp + b + sp;
    TwoWordsThenSpace(a, b, sp);
    LastWord(y, c);
    assert [a, b] + [c] == [a, b, c];
  }

  lemma TwoWordsThenSpace(a: string, b: string, sp: string)
    requires a != [] && b != [] && NoWhitespace(a) && NoWhitespace(b)
    requires sp != [] && AllWhitespace(sp)
    ensures SplitWhitespace(a + sp + b + sp) == [a, b]
    ensures IsWhitespace((a + sp + b + sp)[|a + sp + b + sp| - 1])
  {
    FirstWordThenSpace(a, sp);
    WordThenSpace(a + sp, b, sp);
    assert [a] + [b] == [a, b];
  }

  lemma FirstWordThenSpace(w: string, sp: string)
    requires w != [] && NoWhitespace(w) && sp != [] && AllWhitespace(sp)
    ensures SplitWhitespace(w + sp) == [w]
    ensures IsWhitespace((w + sp)[|w + sp| - 1])
  {
    assert TrimEnd(w + sp) == w by {
      TrimEndSkips(w, sp);
      TrimEndNoTrailing(w);
    }
    assert TrailingWordLength(w) == |w| by {
      var x: string := [];
      TrailingWordLengthOfWord(x, w);
      assert x + w == w;
    }
    assert SplitWhitespace(w[..0]) == [] by {
      assert TrimEnd(w[..0]) == [];
    }
    assert w[0..] == w;
    assert (w + sp)[|w + sp| - 1] == sp[|sp| - 1];
  }

  /** A word after whitespace is the last word. */
  lemma LastWord(y: string, c: string)
    requires y == [] || IsWhitespace(y[|y| - 1])
    requires c != [] && NoWhitespace(c)
    ensures SplitWhitespace(y + c) == SplitWhitespace(y) + [c]
  {
    assert AllWhitespace([]);
    assert y + c + [] == y + c;
    SplitWhitespaceSnoc(y, c, []);
  }

  /** A word followed by whitespace adds one word, and the whole ends in whitespace. */
  lemma WordThenSpace(x: string, w: string, sp: string)
    requires x == [] || IsWhitespace(x[|x| - 1])
    requires w != [] && NoWhitespace(w) && sp != [] && AllWhitespace(sp)
    ensures SplitWhitespace(x + w + sp) == SplitWhitespace(x) + [w]
    ensures IsWhitespace((x + w + sp)[|x + w + sp| - 1])
  {
    SplitWhitespaceSnoc(x, w, sp);
    assert (x + w + sp)[|x + w + sp| - 1] == sp[|sp| - 1];
  }


  lemma KeywordsAreWords()
    ensures NoWhitespace("export") && NoWhitespace("default")
  {
    assert forall k :: 0 <= k < 6 ==> "export"[k] in "exportdfaul";
    assert forall k :: 0 <= k < 7 ==> "default"[k] in "exportdfaul";
  }

  /** `export default N;` names `N`. */
  lemma DefaultExportOf(n: string)
    requires n != [] && NoWhitespace(n) && n[|n| - 1] != ';'
    ensures DefaultExportName("export" + " " + "default" + " " + (n + ";")) == Some(n)
  {
    var text := "export" + " " + "default" + " " + (n + ";");
    assert StartsWith(text, "export default") by {
      assert text[..14] == "export default";
    }
    assert SplitWhitespace(text) == ["export", "default", n + ";"] by {
      KeywordsAreWords();
      assert NoWhitespace(n + ";") by {
        assert forall k :: 0 <= k < |n| ==> (n + ";")[k] == n[k];
        assert (n + ";")[|n|] == ';';
      }
      assert AllWhitespace(" ");
      ThreeWords("export", "default", n + ";", " ");
    }
    TrimEndMatchesSuffix(n, ";");
    assert !EndsWith(n, ";") by {
      assert n[|n| - 1..] == [n[|n| - 1]];
    }
  }

  /** The names listed by the export statements, in order. */
  function ExportedNames(nodes: seq<TopNode>): seq<string>
  {
    if nodes == [] then []
    else
      var n := nodes[|nodes| - 1];
      ExportedNames(nodes[..|nodes| - 1]) + (if n.kind == "export_statement" then ExportListNames(n.text) else [])
  }

  /** The default export: the last export statement that names one. */
  function DefaultExport(nodes: seq<TopNode>): Option<string>
  {
    if nodes == [] then None
    else
      var n := nodes[|nodes| - 1];
      var d := if n.kind == "export_statement" then DefaultExportName(n.text) else None;
      if d.Some? then d else DefaultExport(nodes[..|nodes| - 1])
  }

  /** One more top-level node adds its listed names, and its default name when it has one. */
  lemma ExportsStep(nodes: seq<TopNode>, i: nat)
    requires i < |nodes|
    ensures ExportedNames(nodes[..i + 1]) ==
            ExportedNames(nodes[..i]) + (if nodes[i].kind == "export_statement" then ExportListNames(nodes[i].text) else [])
    ensures var d := if nodes[i].kind == "export_statement" then DefaultExportName(nodes[i].text) else None;
            DefaultExport(nodes[..i + 1]) == if d.Some? then d else DefaultExport(nodes[..i])
  {
    SeqTakeStep(nodes, i);
  }

  /** The first pass of `parse_file` over the program's children. */
  method CollectExports(nodes: seq<TopNode>) returns (exported: seq<string>, defaultName: Option<string>)
    ensures exported == ExportedNames(nodes)
    ensures defaultName == DefaultExport(nodes)
  {
    exported := [];
    defaultName := None;
    var i := 0;
    while i < |nodes|
      invariant i <= |nodes|
      invariant exported == ExportedNames(nodes[..i])
      invariant defaultName == DefaultExport(nodes[..i])
    {
      var node := nodes[i];
      ExportsStep(nodes, i);
      if node.kind == "export_statement" {
        exported := exported + ExportListNames(node.text);
        var d := DefaultExportName(node.text);
        if d.Some? {
          defaultName := d;
        }
      }
      i := i + 1;
    }
    SeqTakeAll(nodes);
  }

  /**
   * Whether a top-level declaration counts as exported: it sits in an export
   * statement, or its name is listed or is the default export.
   */
  function IsExported(inExport: bool, name: Option<string>, exported: seq<string>, defaultName: Option<string>): (b: bool)
    ensures b <==> (inExport || (name.Some? && (name.value in exported || defaultName == Some(name.value))))
  {
    inExport || match name
      case None => false
      case Some(n) => n in exported || defaultName == Some(n)
  }

  /** A name listed in any export statement is exported, wherever the statement stands. */
  lemma {:induction false} ListedIsExported(nodes: seq<TopNode>, k: nat, name: string)
    requires k < |nodes| && nodes[k].kind == "export_statement" && name in ExportListNames(nodes[k].text)
    ensures name in ExportedNames(nodes)
    ensures IsExported(false, Some(name), ExportedNames(nodes), DefaultExport(nodes))
    decreases |nodes|
  {
    var prefix := nodes[..|nodes| - 1];
    var last := nodes[|nodes| - 1];
    assert ExportedNames(nodes) == ExportedNames(prefix) + (if last.kind == "export_statement" then ExportListNames(last.text) else []);
    if k < |nodes| - 1 {
      assert prefix[k] == nodes[k];
      ListedIsExported(prefix, k, name);
    }
  }

  function VisibilityOf(exported: bool): (v: Visibility)
    ensures (v == Public) <==> exported
    ensures v == Public || v == Private
  {
    if exported then Public else Private
  }

  // ---------------------------------------------------------- functions

  /** `process_function`'s signature: `function`, the name, the trimmed parameters and the return type. */
  function FunctionSignature(name: string, params: Option<string>, ret: Option<string>): (sig: string)
    ensures StartsWith(sig, "function " + name)
    ensures EndsWith(sig, ret.UnwrapOr(""))
  {
    var head := "function " + name;
    var tail := Trim(params.UnwrapOr("")) + ret.UnwrapOr("");
    StartsWithPrefix(head, tail);
    EndsWithSuffix(head + Trim(params.UnwrapOr("")), ret.UnwrapOr(""));
    AppendAssoc(head, Trim(params.UnwrapOr("")), ret.UnwrapOr(""));
    head + tail
  }

  /** An arrow function's signature: the variable's name, the trimmed parameters and the return type. */
  function ArrowSignature(name: string, params: Option<string>, ret: Option<string>): (sig: string)
    ensures StartsWith(sig, name)
    ensures EndsWith(sig, ret.UnwrapOr(""))
  {
    var tail := Trim(params.UnwrapOr("")) + ret.UnwrapOr("");
    StartsWithPrefix(name, tail);
    EndsWithSuffix(name + Trim(params.UnwrapOr("")), ret.UnwrapOr(""));
    AppendAssoc(name, Trim(params.UnwrapOr("")), ret.UnwrapOr(""));
    name + tail
  }

  /** An arrow function's signature is the function signature without the keyword. */
  lemma ArrowOmitsKeyword(name: string, params: Option<string>, ret: Option<string>)
    ensures FunctionSignature(name, params, ret) == "function " + ArrowSignature(name, params, ret)
  {
    AppendAssoc("function ", name, Trim(params.UnwrapOr("")) + ret.UnwrapOr(""));
  }

  /** `process_function`: exported functions are public; no body is kept. */
  function ProcessFunction(name: string, source: string, params: Option<string>, ret: Option<string>,
                           exported: bool, doc: Option<string>): (f: FunctionUnit)
    ensures f.name == name && f.source == Some(source) && f.doc == doc
    ensures (f.visibility == Public) <==> exported
    ensures f.signature == Some(FunctionSignature(name, params, ret))
    ensures f.body.None? && f.attributes == []
  {
    FunctionUnit(name, VisibilityOf(exported), doc, Some(FunctionSignature(name, params, ret)), None, Some(source), [])
  }

  /** The value of a variable declarator: its kind and its parameters and return type. */
  datatype ValueNode = ValueNode(kind: string, params: Option<string>, ret: Option<string>)

  /** `process_function_variable`: an arrow function or a function expression bound to a name. */
  function ProcessFunctionVariable(name: string, declSource: string, value: Option<ValueNode>,
                                   exported: bool, doc: Option<string>): (f: FunctionUnit)
    ensures f.name == name && f.source == Some(declSource) && f.doc == doc
    ensures (f.visibility == Public) <==> exported
    ensures value.Some? && value.value.kind == "arrow_function" ==>
              f.signature == Some(ArrowSignature(name, value.value.params, value.value.ret))
    ensures value.Some? && value.value.kind == "function_expression" ==>
              f.signature == Some(FunctionSignature(name, value.value.params, value.value.ret))
    ensures f.signature.Some? <==> value.Some? && value.value.kind in {"arrow_function", "function_expression"}
    ensures f.body.None? && f.attributes == []
  {
    var sig := match value
      case None => None
      case Some(v) =>
        if v.kind == "arrow_function" then Some(ArrowSignature(name, v.params, v.ret))
        else if v.kind == "function_expression" then Some(FunctionSignature(name, v.params, v.ret))
        else None;
    FunctionUnit(name, VisibilityOf(exported), doc, sig, None, Some(declSource), [])
  }

  // --------------------------------------------------- classes, interfaces

  /**
   * A child of a class or interface body: its kind, its `name` field, its
   * text, the text of its first accessibility modifier, its parameters and
   * its return type.
   */
  datatype Member = Member(kind: string, name: Option<string>, text: string, modifier: Option<string>,
                           params: Option<string>, ret: Option<string>)

  predicate IsClassMethod(m: Member)
  {
    (m.kind == "method_definition" || m.kind == "constructor_definition") && m.name.Some?
  }

  predicate IsConstructor(m: Member)
  {
    m.kind == "constructor_definition"
  }

  /** A class method is private only when its accessibility modifier is `private`. */
  predicate IsPrivateMethod(m: Member)
  {
    !IsConstructor(m) && m.modifier.Some? && Trim(m.modifier.value) == "private"
  }

  /** A method's signature: `constructor`, or the modifier and a space then the name; then parameters and return type. */
  function ClassMethodSignature(m: Member): (sig: string)
    ensures IsConstructor(m) ==> StartsWith(sig, "constructor")
    ensures !IsConstructor(m) && m.modifier.Some? ==> StartsWith(sig, Trim(m.modifier.value) + " ")
    ensures !IsConstructor(m) && m.modifier.None? ==> StartsWith(sig, m.name.UnwrapOr(""))
  {
    var tail := Trim(m.params.UnwrapOr("")) + m.ret.UnwrapOr("");
    if IsConstructor(m) then
      StartsWithPrefix("constructor", tail);
      "constructor" + tail
    else
      var prefix := if m.modifier.Some? then Trim(m.modifier.value) + " " else "";
      StartsWithPrefix(prefix, m.name.UnwrapOr("") + tail);
      AppendAssoc(prefix, m.name.UnwrapOr(""), tail);
      StartsWithPrefix(m.name.UnwrapOr(""), tail);
      prefix + m.name.UnwrapOr("") + tail
  }

  /** A method of `process_class`: public unless marked `private`, signature as above, no documentation or body. */
  function ClassMethod(m: Member): (f: FunctionUnit)
    ensures f.name == m.name.UnwrapOr("") && f.source == Some(m.text)
    ensures (f.visibility == Private) <==> IsPrivateMethod(m)
    ensures f.visibility == Public || f.visibility == Private
    ensures f.signature == Some(ClassMethodSignature(m))
    ensures IsPrivateMethod(m) ==> StartsWith(f.signature.value, "private ")
    ensures f.doc.None? && f.body.None? && f.attributes == []
  {
    FunctionUnit(m.name.UnwrapOr(""), if IsPrivateMethod(m) then Private else Public, None,
                 Some(ClassMethodSignature(m)), None, Some(m.text), [])
  }

  /** The loop of `process_class` over the class body. */
  method ClassMethods(members: seq<Member>) returns (methods: seq<FunctionUnit>)
    ensures methods == MapSeq(Filter(members, IsClassMethod), ClassMethod)
  {
    methods := [];
    var i := 0;
    while i < |members|
      invariant i <= |members|
      invariant methods == MapSeq(Filter(members[..i], IsClassMethod), ClassMethod)
    {
      MapFilterStep(members, i, IsClassMethod, ClassMethod);
      if IsClassMethod(members[i]) {
        methods := methods + [ClassMethod(members[i])];
      }
      i := i + 1;
    }
    SeqTakeAll(members);
  }

  predicate IsInterfaceMethod(m: Member)
  {
    m.kind == "method_signature" && m.name.Some?
  }

  /** A method of `process_interface`: always public, its signature the name, parameters and return type. */
  function InterfaceMethod(m: Member): (f: FunctionUnit)
    ensures f.name == m.name.UnwrapOr("") && f.source == Some(m.text)
    ensures f.visibility == Public
    ensures f.signature == Some(ArrowSignature(m.name.UnwrapOr(""), m.params, m.ret))
    ensures f.doc.None? && f.body.None? && f.attributes == []
  {
    FunctionUnit(m.name.UnwrapOr(""), Public, None, Some(ArrowSignature(m.name.UnwrapOr(""), m.params, m.ret)),
                 None, Some(m.text), [])
  }

  /** The loop of `process_interface` over the interface body. */
  method InterfaceMethods(members: seq<Member>) returns (methods: seq<FunctionUnit>)
    ensures methods == MapSeq(Filter(members, IsInterfaceMethod), InterfaceMethod)
    ensures forall k :: 0 <= k < |methods| ==> methods[k].visibility == Public
  {
    methods := [];
    var i := 0;
    while i < |members|
      invariant i <= |members|
      invariant methods == MapSeq(Filter(members[..i], IsInterfaceMethod), InterfaceMethod)
    {
      MapFilterStep(members, i, IsInterfaceMethod, InterfaceMethod);
      if IsInterfaceMethod(members[i]) {
        methods := methods + [InterfaceMethod(members[i])];
      }
      i := i + 1;
    }
    SeqTakeAll(members);
  }

  /**
   * The struct `process_class`, `process_interface`, `process_type_alias`
   * and `process_enum` build: headed by the keyword and the name, public
   * exactly when exported.
   */
  function Declaration(keyword: string, name: string, source: string, exported: bool, doc: Option<string>,
                       methods: seq<FunctionUnit>): (s: StructUnit)
    requires keyword in {"class", "interface", "type", "enum"}
    ensures s.name == name && s.head == keyword + " " + name
    ensures (s.visibility == Public) <==> exported
    ensures s.doc == doc && s.source == Some(source) && s.methods == methods && s.fields == [] && s.attributes == []
  {
    StructUnit(name, keyword + " " + name, VisibilityOf(exported), doc, Some(source), [], [], methods)
  }

  // --------------------------------------------------------- the file

  /** The file's documentation: the doc comment that is the program's first child. */
  function FileDocumentation(children: seq<TopNode>): (doc: Option<string>)
    ensures children == [] || children[0].kind != "comment" ==> doc.None?
    ensures doc.Some? ==> doc == ExtractDocComment("comment", children[0].text)
  {
    if children != [] && children[0].kind == "comment" then ExtractDocComment(children[0].kind, children[0].text)
    else None
  }

  /** The declarations `parse_file` records: an import, or an export statement that declares nothing. */
  function TopLevelDeclare(node: TopNode, hasDeclaration: bool): (d: Option<DeclareStatements>)
    ensures d.Some? <==> node.kind == "import_statement" || (node.kind == "export_statement" && !hasDeclaration)
    ensures d.Some? ==> d.value.source == node.text
    ensures d.Some? && node.kind == "import_statement" ==> d.value.kind == Import
  {
    if node.kind == "import_statement" then Some(DeclareStatements(node.text, Import))
    else if node.kind == "export_statement" && !hasDeclaration then Some(DeclareStatements(node.text, Other("export")))
    else None
  }
}
