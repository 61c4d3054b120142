/**
 * The text-level logic of the Rust parser (`src/parser/lang/rust.rs`).
 * Tree-sitter nodes and query captures appear as their kind and their
 * source text; a capture the query did not make is `None`.
 */
module RustParser {
  import opened Wrappers
  import opened Strings
  import opened Units

  // ------------------------------------------------------------ visibility

  /**
   * `determine_visibility` on the text of the item's visibility modifier,
   * `None` when the item has none.
   */
  function DetermineVisibility(modifier: Option<string>): (v: Visibility)
    ensures v.Public? <==> modifier == Some("pub")
    ensures v.Crate? <==> modifier == Some("pub(crate)")
    ensures v.Restricted? <==> (modifier.Some? && StartsWith(modifier.value, "pub(") && modifier.value != "pub(crate)")
    ensures v.Restricted? ==> v.path == modifier.value
    ensures !v.Protected?
  {
    match modifier
    case None => Private
    case Some(s) =>
      if s == "pub" then Public
      else if s == "pub(crate)" then Crate
      else if StartsWith(s, "pub(") then Restricted(s)
      else Private
  }

  /** The modifier text that denotes `v`: none for a private item. */
  function ModifierText(v: Visibility): (m: Option<string>)
    ensures m.None? <==> (v.Private? || v.Protected?)
  {
    match v
    case Public => Some("pub")
    case Crate => Some("pub(crate)")
    case Restricted(path) => Some(path)
    case _ => None
  }

  /** Every visibility a Rust item can have is read back from its modifier text. */
  lemma VisibilityRoundTrip(v: Visibility)
    requires !v.Protected?
    requires v.Restricted? ==> StartsWith(v.path, "pub(") && v.path != "pub(crate)"
    ensures DetermineVisibility(ModifierText(v)) == v
  {
  }

  /** Two modifiers that both denote a visibility other than private denote the same one only when they are the same text. */
  lemma VisibilityInjective(m1: Option<string>, m2: Option<string>)
    requires !DetermineVisibility(m1).Private? && !DetermineVisibility(m2).Private?
    ensures (DetermineVisibility(m1) == DetermineVisibility(m2)) <==> (m1 == m2)
  {
  }

  /** `pub(super)` and `pub(in crate::level1)` are restricted to the path they name. */
  lemma RestrictedModifiers()
    ensures DetermineVisibility(Some("pub(super)")) == Restricted("pub(super)")
    ensures DetermineVisibility(Some("pub(in crate::level1)")) == Restricted("pub(in crate::level1)")
  {
    StartsWithPrefix("pub(", "super)");
    StartsWithPrefix("pub(", "in crate::level1)");
    assert "pub(super)" == "pub(" + "super)";
    assert "pub(in crate::level1)" == "pub(" + "in crate::level1)";
  }

  // ------------------------------------------------------------ heads

  /** The text up to and including the first `;`, trimmed. */
  function ThroughSemicolon(src: string): (r: Option<string>)
    ensures r.None? <==> ';' !in src
    ensures r.Some? ==> r.value != [] && r.value[|r.value| - 1] == ';'
    ensures r.Some? ==> ';' !in r.value[..|r.value| - 1]
    ensures r.Some? ==> !IsWhitespace(r.value[0])
  {
    match FindChar(src, ';')
    case None => None
    case Some(i) =>
      var prefix := src[..i + 1];
      assert prefix[i] == ';';
      TrimOfSemicolonPrefix(prefix);
      var head := Trim(prefix);
      SemicolonOnlyLast(prefix, head);
      Some(head)
  }

  /** A tail of a text whose only `;` is its last character has no other `;` either. */
  lemma SemicolonOnlyLast(prefix: string, head: string)
    requires prefix != [] && forall j :: 0 <= j < |prefix| - 1 ==> prefix[j] != ';'
    requires head != [] && |head| <= |prefix| && head == prefix[|prefix| - |head|..]
    ensures ';' !in head[..|head| - 1]
  {
    forall k | 0 <= k < |head| - 1
      ensures head[k] != ';'
    {
      assert head[k] == prefix[|prefix| - |head| + k];
    }
  }

  /** A text that ends in a `;` trims to its start-trimmed form, which still ends in the `;`. */
  lemma TrimOfSemicolonPrefix(prefix: string)
    requires prefix != [] && prefix[|prefix| - 1] == ';'
    ensures Trim(prefix) == TrimStart(prefix)
    ensures |TrimStart(prefix)| > 0 && TrimStart(prefix)[|TrimStart(prefix)| - 1] == ';'
  {
    TrimStartKeepsLast(prefix);
    TrimEndNoTrailing(TrimStart(prefix));
  }

  /**
   * `parse_item_head`: the trimmed text before the first `{`; failing that,
   * the text through the first `;`; failing that, the visibility text, the
   * item kind and the name.
   */
  function ParseItemHead(src: Option<string>, kind: string, visStr: string, name: string): (head: string)
    ensures src.Some? && '{' in src.value ==> head == SplitAtBrace(src.value).signature
    ensures src.Some? && '{' !in src.value && ';' in src.value ==> Some(head) == ThroughSemicolon(src.value)
    ensures (src.None? || ('{' !in src.value && ';' !in src.value)) ==>
              head == (if visStr == [] then kind + " " + name else visStr + " " + kind + " " + name)
  {
    if src.Some? && '{' in src.value then SplitAtBrace(src.value).signature
    else if src.Some? && ';' in src.value then ThroughSemicolon(src.value).value
    else if visStr == [] then kind + " " + name
    else visStr + " " + kind + " " + name
  }

  /** A head that was written before the body's `{` is given back as written. */
  lemma ParseItemHeadOf(head: string, gap: string, body: string, kind: string, visStr: string, name: string)
    requires '{' !in head && (head == [] || (!IsWhitespace(head[0]) && !IsWhitespace(head[|head| - 1])))
    requires AllWhitespace(gap)
    requires body != [] && body[0] == '{' && !IsWhitespace(body[|body| - 1])
    ensures ParseItemHead(Some(head + gap + body), kind, visStr, name) == head
  {
    SplitAtBraceOf(head, gap, body);
    assert (head + gap + body)[|head + gap|] == '{';
  }

  /** The head the struct, enum and trait queries build: `[vis ]kind name<generics>`. */
  function ItemHead(visStr: string, kind: string, name: string, generics: string): (head: string)
    ensures visStr == [] ==> head == kind + " " + name + generics
    ensures visStr != [] ==> head == visStr + " " + kind + " " + name + generics
  {
    if visStr == [] then kind + " " + name + generics else visStr + " " + kind + " " + name + generics
  }

  /** A struct's head also gets the `;` of a unit struct: one with no field list whose source ends in `;`. */
  function StructHead(visStr: string, name: string, generics: string, hasFieldList: bool, src: Option<string>): (head: string)
    ensures !hasFieldList && src.Some? && EndsWith(TrimEnd(src.value), ";") ==> head == ItemHead(visStr, "struct", name, generics) + ";"
    ensures !(!hasFieldList && src.Some? && EndsWith(TrimEnd(src.value), ";")) ==> head == ItemHead(visStr, "struct", name, generics)
  {
    var head := ItemHead(visStr, "struct", name, generics);
    if !hasFieldList && src.Some? && EndsWith(TrimEnd(src.value), ";") then head + ";" else head
  }

  /** A unit struct, whose source ends in `;` and that has no field list, keeps the `;` in its head. */
  lemma UnitStructHead(visStr: string, name: string, generics: string, src: string)
    requires src != [] && src[|src| - 1] == ';'
    ensures StructHead(visStr, name, generics, false, Some(src)) == ItemHead(visStr, "struct", name, generics) + ";"
  {
    TrimEndNoTrailing(src);
    assert src[|src| - 1..] == ";";
  }

  // ------------------------------------------------------------ impls

  /**
   * The head the impl query builds: `impl<generics> Trait for Type` for a
   * trait impl, `impl<generics> Type` otherwise; a missing type is
   * `UnknownType`.
   */
  function ImplHead(generics: string, traitText: Option<string>, typeText: Option<string>): (head: string)
    ensures StartsWith(head, "impl" + generics + " ")
    ensures traitText.Some? ==> head == "impl" + generics + " " + traitText.value + " for " + typeText.UnwrapOr("UnknownType")
    ensures traitText.None? ==> head == "impl" + generics + " " + typeText.UnwrapOr("UnknownType")
  {
    var ty := typeText.UnwrapOr("UnknownType");
    var head := if traitText.Some? then "impl" + generics + " " + traitText.value + " for " + ty
      else "impl" + generics + " " + ty;
    assert head == ("impl" + generics + " ") + head[|"impl" + generics + " "|..];
    StartsWithPrefix("impl" + generics + " ", head[|"impl" + generics + " "|..]);
    head
  }

  /** The head of an impl the query does not match: the trimmed text before `{`, else `impl`. */
  function ImplHeadFallback(src: Option<string>): (head: string)
    ensures src.Some? && '{' in src.value ==> head == SplitAtBrace(src.value).signature
    ensures !(src.Some? && '{' in src.value) ==> head == "impl"
  {
    if src.Some? && '{' in src.value then SplitAtBrace(src.value).signature else "impl"
  }

  /** `parse_impl` treats an impl as a trait impl when its head contains ` for `. */
  predicate IsTraitImpl(head: string)
  {
    Contains(head, " for ")
  }

  /** A head built for a trait impl is a trait impl's head. */
  lemma TraitImplHeadIsTraitImpl(generics: string, t: string, typeText: Option<string>)
    ensures IsTraitImpl(ImplHead(generics, Some(t), typeText))
  {
    var a := "impl" + generics + " " + t;
    var b := typeText.UnwrapOr("UnknownType");
    ContainsMiddle(a, " for ", b);
  }

  /** A method of a trait impl is public, whatever its own modifier says; other methods keep theirs. */
  function ImplMethods(head: string, methods: seq<FunctionUnit>): (r: seq<FunctionUnit>)
    ensures |r| == |methods|
    ensures forall k :: 0 <= k < |r| ==>
              r[k] == methods[k].(visibility := if IsTraitImpl(head) then Public else methods[k].visibility)
  {
    if IsTraitImpl(head) then MapSeq(methods, (m: FunctionUnit) => m.(visibility := Public)) else methods
  }

  /** Every method of a trait is public. */
  function TraitMethods(methods: seq<FunctionUnit>): (r: seq<FunctionUnit>)
    ensures |r| == |methods|
    ensures forall k :: 0 <= k < |r| ==> r[k] == methods[k].(visibility := Public)
  {
    MapSeq(methods, (m: FunctionUnit) => m.(visibility := Public))
  }

  /** The methods of a trait impl are all public. */
  lemma TraitImplMethodsPublic(generics: string, t: string, typeText: Option<string>, methods: seq<FunctionUnit>)
    ensures forall m :: m in ImplMethods(ImplHead(generics, Some(t), typeText), methods) ==> m.visibility == Public
  {
    TraitImplHeadIsTraitImpl(generics, t, typeText);
  }

  // ------------------------------------------------------------ functions

  /** The signature the function query assembles: `fn name params[ -> ret][;]`, before trimming. */
  function AssembledSignature(name: string, params: string, ret: string, hasBody: bool): (sig: string)
    ensures StartsWith(sig, "fn " + name + params)
    ensures !hasBody ==> EndsWith(sig, ";")
    ensures hasBody && ret != [] ==> EndsWith(sig, " -> " + ret)
    ensures hasBody && ret == [] ==> sig == "fn " + name + params
  {
    var start := "fn " + name + params;
    var tail := (if ret != [] then " -> " + ret else []) + (if hasBody then [] else ";");
    StartsWithPrefix(start, tail);
    EndsWithSuffix(start + (if ret != [] then " -> " + ret else []), if hasBody then [] else ";");
    EndsWithSuffix(start, " -> " + ret);
    AppendAssoc(start, if ret != [] then " -> " + ret else [], if hasBody then [] else ";");
    start + tail
  }

  /**
   * The signature `parse_function` keeps.  The assembled one is trimmed; it
   * is replaced by the source text before `{` (or through `;`) when the
   * query found no parameters and the signature shows no `()`; without a
   * source it is dropped when it is just `fn name`.
   */
  function FunctionSignature(name: string, params: string, ret: string, hasBody: bool, src: Option<string>): (r: Option<string>)
    ensures !SignatureProblematic(name, params, ret, hasBody) ==> r == Some(Trim(AssembledSignature(name, params, ret, hasBody)))
    ensures SignatureProblematic(name, params, ret, hasBody) && src.Some? && '{' in src.value ==>
              r == Some(SplitAtBrace(src.value).signature)
    ensures SignatureProblematic(name, params, ret, hasBody) && src.Some? && '{' !in src.value && ';' in src.value ==>
              r == ThroughSemicolon(src.value)
    ensures r.None? ==> src.None? && SignatureProblematic(name, params, ret, hasBody)
  {
    var sig := Trim(AssembledSignature(name, params, ret, hasBody));
    if !SignatureProblematic(name, params, ret, hasBody) then Some(sig)
    else match src
      case Some(s) =>
        if '{' in s then Some(SplitAtBrace(s).signature)
        else if ';' in s then ThroughSemicolon(s)
        else Some(sig)
      case None =>
        if Trim(sig) == "fn " + name then None else Some(sig)
  }

  /** The test `is_query_sig_problematic`: an empty signature, or no parameters and no `()` in it. */
  predicate SignatureProblematic(name: string, params: string, ret: string, hasBody: bool)
  {
    var sig := Trim(AssembledSignature(name, params, ret, hasBody));
    sig == [] || (params == [] && !Contains(sig, "()"))
  }

  /** With parameters and a return type that end in no blank, the signature is the assembled text itself. */
  lemma SignatureAsAssembled(name: string, params: string, ret: string, src: Option<string>)
    requires params != [] && !IsWhitespace(params[|params| - 1])
    requires ret == [] || !IsWhitespace(ret[|ret| - 1])
    ensures FunctionSignature(name, params, ret, true, src) == Some(AssembledSignature(name, params, ret, true))
  {
    var sig := AssembledSignature(name, params, ret, true);
    assert sig[0] == 'f';
    TrimStartNoLeading(sig);
    assert sig[|sig| - 1] == (if ret == [] then params[|params| - 1] else ret[|ret| - 1]);
    TrimEndNoTrailing(sig);
  }

  /** `parse_function` on the captures of the function query. */
  function ParseFunction(modifier: Option<string>, nameCapture: Option<string>, params: Option<string>,
                         ret: Option<string>, body: Option<string>, src: Option<string>,
                         doc: Option<string>, attributes: seq<string>): (f: FunctionUnit)
    ensures f.name == nameCapture.UnwrapOr("unknown")
    ensures f.visibility == DetermineVisibility(modifier)
    ensures f.signature == FunctionSignature(f.name, params.UnwrapOr([]), ret.UnwrapOr([]), body.Some?, src)
    ensures f.body == body && f.source == src && f.doc == doc && f.attributes == attributes
  {
    var name := nameCapture.UnwrapOr("unknown");
    FunctionUnit(name, DetermineVisibility(modifier), doc,
      FunctionSignature(name, params.UnwrapOr([]), ret.UnwrapOr([]), body.Some?, src), body, src, attributes)
  }

  // ------------------------------------------------------------ documentation and attributes

  /** A sibling node: its kind and its text. */
  datatype Node = Node(kind: string, text: string)

  /** The backward scans for documentation and attributes go past comments and attributes only. */
  predicate StopsScan(n: Node)
  {
    n.kind != "line_comment" && n.kind != "block_comment" && n.kind != "attribute_item"
  }

  /** How many of the nearest-first siblings `previous` the backward scans visit. */
  function ScanLength(previous: seq<Node>): (n: nat)
    ensures n <= |previous|
    ensures forall k :: 0 <= k < n ==> !StopsScan(previous[k])
    ensures n < |previous| ==> StopsScan(previous[n])
  {
    if previous == [] || StopsScan(previous[0]) then 0 else 1 + ScanLength(previous[1..])
  }

  /** A middle line of a block doc comment: leading `*`s removed, then trimmed. */
  function CleanBlockLine(line: string): string
  {
    Trim(TrimStartMatches(line, "*"))
  }

  /** The non-empty cleaned lines of `lines`, in order. */
  function CleanedLines(lines: seq<string>): (r: seq<string>)
    ensures forall k :: 0 <= k < |r| ==> |r[k]| > 0
    ensures |r| <= |lines|
  {
    if lines == [] then []
    else
      var c := CleanBlockLine(lines[0]);
      (if c != [] then [c] else []) + CleanedLines(lines[1..])
  }

  /** The documentation lines one sibling contributes: a `///` line comment one, a block doc comment its middle lines. */
  function DocLinesOf(n: Node): seq<string>
  {
    if n.kind == "line_comment" && StartsWith(n.text, "///") then
      [Trim(TrimStartMatches(n.text, "///"))]
    else if n.kind == "block_comment" && StartsWith(n.text, "/**") then
      (var lines := Lines(n.text);
       if |lines| > 1 then CleanedLines(lines[1..|lines| - 1]) else [])
    else []
  }

  /** The documentation lines of the nearest-first siblings `scanned`, farthest first. */
  function CollectedDocLines(scanned: seq<Node>): seq<string>
  {
    if scanned == [] then []
    else DocLinesOf(scanned[|scanned| - 1]) + CollectedDocLines(scanned[..|scanned| - 1])
  }

  /** The documentation lines of siblings given in source order. */
  function DocLinesInOrder(siblings: seq<Node>): seq<string>
  {
    if siblings == [] then [] else DocLinesOf(siblings[0]) + DocLinesInOrder(siblings[1..])
  }

  /** The backward scan yields the lines in source order. */
  lemma {:induction false} CollectedInSourceOrder(siblings: seq<Node>)
    ensures CollectedDocLines(Reverse(siblings)) == DocLinesInOrder(siblings)
  {
    if siblings != [] {
      var r := Reverse(siblings);
      assert r[|r| - 1] == siblings[0];
      assert r[..|r| - 1] == Reverse(siblings[1..]);
      CollectedInSourceOrder(siblings[1..]);
    }
  }

  /** Lines joined by newlines, or `None` when there are none. */
  function JoinedDoc(lines: seq<string>): (doc: Option<string>)
    ensures doc.None? <==> lines == []
  {
    if lines == [] then None else Some(Join(lines, "\n"))
  }

  /** Going back over a comment's middle lines, each one put in front, rebuilds them in order. */
  lemma CleanedLinesStep(lines: seq<string>, j: nat, docs: seq<string>)
    requires j < |lines|
    ensures CleanBlockLine(lines[j]) == [] ==> CleanedLines(lines[j..]) + docs == CleanedLines(lines[j + 1..]) + docs
    ensures CleanBlockLine(lines[j]) != [] ==>
              CleanedLines(lines[j..]) + docs == [CleanBlockLine(lines[j])] + (CleanedLines(lines[j + 1..]) + docs)
  {
    var ls := lines[j..];
    assert ls[0] == lines[j] && ls[1..] == lines[j + 1..];
    var c := CleanBlockLine(lines[j]);
    var front := if c != [] then [c] else [];
    assert CleanedLines(ls) == front + CleanedLines(lines[j + 1..]);
    SeqAppendAssoc(front, CleanedLines(lines[j + 1..]), docs);
    if c == [] {
      assert front + CleanedLines(lines[j + 1..]) == CleanedLines(lines[j + 1..]);
    }
  }

  /** One more sibling visited: its lines go in front of those found so far. */
  lemma CollectedDocLinesStep(previous: seq<Node>, i: nat)
    requires i < |previous|
    ensures CollectedDocLines(previous[..i + 1]) == DocLinesOf(previous[i]) + CollectedDocLines(previous[..i])
  {
    SeqTakeStep(previous, i);
  }

  /** A scan that stopped at `i` visited `ScanLength(previous)` siblings. */
  lemma ScanEnd(previous: seq<Node>, i: nat)
    requires i <= ScanLength(previous)
    requires i == |previous| || StopsScan(previous[i])
    ensures i == ScanLength(previous)
  {
  }

  /** The loop over a block comment's middle lines, last to first, each non-empty one put in front of `docs`. */
  method PrependCleanedLines(middle: seq<string>, docs: seq<string>) returns (r: seq<string>)
    ensures r == CleanedLines(middle) + docs
  {
    r := docs;
    var j: nat := |middle|;
    while j > 0
      invariant j <= |middle|
      invariant r == CleanedLines(middle[j..]) + docs
    {
      j := j - 1;
      var cleaned := CleanBlockLine(middle[j]);
      CleanedLinesStep(middle, j, docs);
      if cleaned != [] {
        r := [cleaned] + r;
      }
    }
    assert middle[0..] == middle;
  }

  /** The lines one sibling puts in front of those found so far. */
  method PrependDocLines(node: Node, docs: seq<string>) returns (r: seq<string>)
    ensures r == DocLinesOf(node) + docs
  {
    r := docs;
    if node.kind == "line_comment" {
      if StartsWith(node.text, "///") {
        r := [Trim(TrimStartMatches(node.text, "///"))] + docs;
      }
    } else if node.kind == "block_comment" {
      if StartsWith(node.text, "/**") {
        var lines := Lines(node.text);
        if |lines| > 1 {
          r := PrependCleanedLines(lines[1..|lines| - 1], docs);
        }
      }
    }
  }

  /**
   * `extract_documentation` over the item's previous siblings, nearest
   * first: each doc comment's lines are put in front of those found so far.
   */
  method ExtractDocumentation(previous: seq<Node>) returns (doc: Option<string>)
    ensures doc == JoinedDoc(CollectedDocLines(previous[..ScanLength(previous)]))
  {
    var docs: seq<string> := [];
    var i := 0;
    while i < |previous| && !StopsScan(previous[i])
      invariant i <= ScanLength(previous)
      invariant docs == CollectedDocLines(previous[..i])
    {
      docs := PrependDocLines(previous[i], docs);
      CollectedDocLinesStep(previous, i);
      i := i + 1;
    }
    ScanEnd(previous, i);
    doc := JoinedDoc(docs);
  }

  /** The attribute texts among the nearest-first siblings `scanned`, farthest first. */
  function CollectedAttributes(scanned: seq<Node>): seq<string>
  {
    if scanned == [] then []
    else
      var n := scanned[|scanned| - 1];
      (if n.kind == "attribute_item" then [n.text] else []) + CollectedAttributes(scanned[..|scanned| - 1])
  }

  /**
   * `extract_attributes`: the attribute items before the node, back to the
   * first sibling that is neither an attribute nor a comment, in source
   * order; the node itself first when it is an attribute.
   */
  method ExtractAttributes(node: Node, previous: seq<Node>) returns (attributes: seq<string>)
    ensures attributes == CollectedAttributes(previous[..ScanLength(previous)]) +
                          (if node.kind == "attribute_item" then [node.text] else [])
  {
    attributes := [];
    if node.kind == "attribute_item" {
      attributes := [node.text];
    }
    ghost var own := attributes;
    var i := 0;
    while i < |previous| && !StopsScan(previous[i])
      invariant i <= ScanLength(previous)
      invariant attributes == CollectedAttributes(previous[..i]) + own
    {
      CollectedAttributesStep(previous, i, own);
      if previous[i].kind == "attribute_item" {
        attributes := [previous[i].text] + attributes;
      }
      i := i + 1;
    }
    ScanEnd(previous, i);
  }

  /** One more sibling visited: its text goes in front when it is an attribute. */
  lemma CollectedAttributesStep(previous: seq<Node>, i: nat, own: seq<string>)
    requires i < |previous|
    ensures previous[i].kind == "attribute_item" ==>
              CollectedAttributes(previous[..i + 1]) + own == [previous[i].text] + (CollectedAttributes(previous[..i]) + own)
    ensures previous[i].kind != "attribute_item" ==>
              CollectedAttributes(previous[..i + 1]) + own == CollectedAttributes(previous[..i]) + own
  {
    SeqTakeStep(previous, i);
    var front := if previous[i].kind == "attribute_item" then [previous[i].text] else [];
    assert CollectedAttributes(previous[..i + 1]) == front + CollectedAttributes(previous[..i]);
    SeqAppendAssoc(front, CollectedAttributes(previous[..i]), own);
    if front == [] {
      assert front + CollectedAttributes(previous[..i]) == CollectedAttributes(previous[..i]);
    }
  }

  /** Every attribute collected is the text of an attribute item the scan visited, or the node's own. */
  lemma {:induction false} CollectedAttributesFrom(scanned: seq<Node>, a: string)
    ensures (a in CollectedAttributes(scanned)) <==>
            (exists k :: 0 <= k < |scanned| && scanned[k].kind == "attribute_item" && scanned[k].text == a)
  {
    if scanned != [] {
      var init := scanned[..|scanned| - 1];
      CollectedAttributesFrom(init, a);
      assert forall k :: 0 <= k < |init| ==> init[k] == scanned[k];
    }
  }

  // ------------------------------------------------------------ merging captured attributes

  /** `attributes` with each captured text appended unless it is already there. */
  function Merged(attributes: seq<string>, captured: seq<string>): (r: seq<string>)
    ensures |attributes| <= |r| && r[..|attributes|] == attributes
  {
    if captured == [] then attributes
    else
      var m := Merged(attributes, captured[..|captured| - 1]);
      var c := captured[|captured| - 1];
      if c in m then m else m + [c]
  }

  predicate Distinct(s: seq<string>)
  {
    forall i, j :: 0 <= i < j < |s| ==> s[i] != s[j]
  }

  /** The merge holds exactly the attributes and the captured texts. */
  lemma {:induction false} MergedElements(attributes: seq<string>, captured: seq<string>, a: string)
    ensures (a in Merged(attributes, captured)) <==> (a in attributes || a in captured)
  {
    if captured != [] {
      var init := captured[..|captured| - 1];
      MergedElements(attributes, init, a);
      assert captured == init + [captured[|captured| - 1]];
    }
  }

  /** The merge adds no duplicate. */
  lemma {:induction false} MergedDistinct(attributes: seq<string>, captured: seq<string>)
    requires Distinct(attributes)
    ensures Distinct(Merged(attributes, captured))
  {
    if captured != [] {
      MergedDistinct(attributes, captured[..|captured| - 1]);
    }
  }

  /** The loop over the query's `attribute_node` captures, pushing each that is not yet present. */
  method MergeAttributes(attributes: seq<string>, captured: seq<string>) returns (r: seq<string>)
    ensures r == Merged(attributes, captured)
  {
    r := attributes;
    var i := 0;
    while i < |captured|
      invariant i <= |captured|
      invariant r == Merged(attributes, captured[..i])
    {
      SeqTakeStep(captured, i);
      if captured[i] !in r {
        r := r + [captured[i]];
      }
      i := i + 1;
    }
    assert captured[..i] == captured;
  }

  // ------------------------------------------------------------ declarations

  /** The declaration `parse_file` records for a top-level `use`, `extern crate` or `mod name;`. */
  function TopLevelDeclare(n: Node): (r: Option<DeclareStatements>)
    ensures r.Some? ==> r.value.source == n.text
    ensures (r.Some? && r.value.kind == Use) <==> n.kind == "use_declaration"
    ensures (r.Some? && r.value.kind == Other("extern_crate")) <==> n.kind == "extern_crate_declaration"
    ensures (r.Some? && r.value.kind == Mod) <==> n.kind == "mod_declaration"
    ensures r.Some? ==> r.value.kind in {Use, Mod, Other("extern_crate")}
  {
    if n.kind == "use_declaration" then Some(DeclareStatements(n.text, Use))
    else if n.kind == "extern_crate_declaration" then Some(DeclareStatements(n.text, Other("extern_crate")))
    else if n.kind == "mod_declaration" then Some(DeclareStatements(n.text, Mod))
    else None
  }

  /** Inside a module body only `use` declarations are recorded. */
  function ModuleDeclare(n: Node): (r: Option<DeclareStatements>)
    ensures r.Some? <==> n.kind == "use_declaration"
    ensures r.Some? ==> r == TopLevelDeclare(n)
  {
    if n.kind == "use_declaration" then Some(DeclareStatements(n.text, Use)) else None
  }

  /** The start of the file's first item: a node that is no comment and no (inner) attribute. */
  predicate IsItem(n: Node)
  {
    n.kind != "line_comment" && n.kind != "block_comment" && n.kind != "attribute_item" && n.kind != "inner_attribute_item"
  }

  /**
   * The node whose previous siblings `parse_file` scans for the file's
   * documentation: the first item, or the last node when there is none.
   */
  function FileDocAnchor(children: seq<Node>): (r: Option<nat>)
    ensures r.None? <==> children == []
    ensures r.Some? ==> r.value < |children|
    ensures r.Some? && IsItem(children[r.value]) ==> forall k :: 0 <= k < r.value ==> !IsItem(children[k])
    ensures r.Some? && !IsItem(children[r.value]) ==> r.value == |children| - 1 && forall k :: 0 <= k < |children| ==> !IsItem(children[k])
  {
    match FirstItem(children)
    case Some(i) => Some(i)
    case None => if children == [] then None else Some(|children| - 1)
  }

  /** The index of the first item among `children`. */
  function FirstItem(children: seq<Node>): (r: Option<nat>)
    ensures r.Some? ==> r.value < |children| && IsItem(children[r.value])
    ensures r.Some? ==> forall k :: 0 <= k < r.value ==> !IsItem(children[k])
    ensures r.None? ==> forall k :: 0 <= k < |children| ==> !IsItem(children[k])
  {
    if children == [] then None
    else if IsItem(children[0]) then Some(0)
    else match FirstItem(children[1..])
      case None => None
      case Some(j) => Some(j + 1)
  }

  /** The file's documentation: that of its anchor node. */
  method FileDocumentation(children: seq<Node>) returns (doc: Option<string>)
    ensures FileDocAnchor(children).None? ==> doc.None?
    ensures FileDocAnchor(children).Some? ==>
              var previous := Reverse(children[..FileDocAnchor(children).value]);
              doc == JoinedDoc(CollectedDocLines(previous[..ScanLength(previous)]))
  {
    doc := None;
    var anchor := FileDocAnchor(children);
    if anchor.Some? {
      doc := ExtractDocumentation(Reverse(children[..anchor.value]));
    }
  }
}
