/**
 * The text-level logic of the Go parser (`src/parser/lang/go.rs`).
 * Tree-sitter nodes appear as their kind, their text and, where the parser
 * looks at them, their rows; a child the parser did not find is `None`.
 */
module GoParser {
  import opened Wrappers
  import opened Strings
  import opened Units
  import CppParser

  // ------------------------------------------------------------ visibility

  /** `determine_visibility`: a Go name is exported when it starts with an upper-case letter. */
  function DetermineVisibility(name: string): (v: Visibility)
    ensures (v == Public) <==> (name != [] && IsUpper(name[0]))
    ensures v == Public || v == Private
  {
    if name != [] && IsUpper(name[0]) then Public else Private
  }

  /** Only the first letter decides: whatever follows it does not change the visibility. */
  lemma VisibilityOfFirstLetter(c: char, rest1: string, rest2: string)
    ensures DetermineVisibility([c] + rest1) == DetermineVisibility([c] + rest2)
  {
    assert ([c] + rest1)[0] == c == ([c] + rest2)[0];
  }

  // -------------------------------------------------------------- receiver

  /** Removing every leading `*` leaves a suffix of the text, and what went was all `*`. */
  lemma {:induction false} StarsRemoved(t: string)
    ensures var r := TrimStartMatches(t, "*");
      forall j :: 0 <= j < |t| - |r| ==> t[j] == '*'
    decreases |t|
  {
    if StartsWith(t, "*") {
      assert t[0] == t[..1][0] == '*';
      StarsRemoved(t[1..]);
      assert TrimStartMatches(t, "*") == TrimStartMatches(t[1..], "*");
    }
  }

  /**
   * The receiver type of `parse_method`: the receiver parameter's type with
   * every leading `*` removed. `None` stands for a missing receiver list,
   * parameter declaration or type node, each of which gives "unknown".
   */
  function ReceiverType(typeText: Option<string>): (r: string)
    ensures typeText.None? ==> r == "unknown"
    ensures typeText.Some? ==> |r| <= |typeText.value| && r == typeText.value[|typeText.value| - |r|..]
    ensures typeText.Some? ==> forall j :: 0 <= j < |typeText.value| - |r| ==> typeText.value[j] == '*'
    ensures typeText.Some? ==> r == [] || r[0] != '*'
  {
    match typeText
    case None => "unknown"
    case Some(t) =>
      var r := TrimStartMatches(t, "*");
      StarsRemoved(t);
      assert r != [] ==> r[..1] == [r[0]];
      r
  }

  /** A receiver `*T` and a receiver `T` name the same type. */
  lemma StarredReceiver(t: string)
    requires t == [] || t[0] != '*'
    ensures ReceiverType(Some("*" + t)) == t
    ensures ReceiverType(Some(t)) == t
  {
    TrimStartMatchesPrefix("*", t);
    assert !StartsWith(t, "*") by {
      if t != [] {
        assert t[..1][0] == t[0];
      }
    }
  }

  // ------------------------------------------------------------- functions

  /** The body node of a function or method: where it starts inside the declaration's text, and its own text. */
  datatype BodyNode = BodyNode(offset: nat, text: string)

  /**
   * The signature of `parse_function` and `parse_method`: the declaration's
   * text before its body, trimmed, when the body starts after the
   * declaration does; the whole text when there is no body.
   */
  function Signature(text: string, body: Option<BodyNode>): (sig: Option<string>)
    requires body.Some? ==> body.value.offset <= |text|
    ensures body.None? ==> sig == Some(text)
    ensures body.Some? ==> (sig.Some? <==> body.value.offset > 0)
    ensures body.Some? && sig.Some? ==> |sig.value| <= body.value.offset
  {
    match body
    case None => Some(text)
    case Some(b) => if b.offset > 0 then Some(Trim(text[..b.offset])) else None
  }

  /** A declaration written `sig gap body` has the signature `sig`. */
  lemma SignatureOf(sig: string, gap: string, body: string)
    requires sig != [] && !IsWhitespace(sig[0]) && !IsWhitespace(sig[|sig| - 1])
    requires AllWhitespace(gap)
    ensures Signature(sig + gap + body, Some(BodyNode(|sig + gap|, body))) == Some(sig)
  {
    assert (sig + gap + body)[..|sig + gap|] == sig + gap;
    TrimBeforeGap(sig, gap);
  }

  /**
   * `parse_function`: the name defaults to "unknown", the visibility follows
   * the name, the signature is cut before the body and Go has no attributes.
   */
  function ParseFunction(name: Option<string>, text: string, body: Option<BodyNode>, doc: Option<string>): (f: FunctionUnit)
    requires body.Some? ==> body.value.offset <= |text|
    ensures f.name == name.UnwrapOr("unknown")
    ensures (f.visibility == Public) <==> (f.name != [] && IsUpper(f.name[0]))
    ensures f.signature == Signature(text, body)
    ensures f.body.Some? <==> body.Some?
    ensures body.Some? ==> f.body == Some(body.value.text)
    ensures f.doc == doc && f.source == Some(text) && f.attributes == []
  {
    var n := name.UnwrapOr("unknown");
    FunctionUnit(n, DetermineVisibility(n), doc, Signature(text, body),
                 if body.Some? then Some(body.value.text) else None, Some(text), [])
  }

  /** A method as `parse_method` returns it: its receiver type beside the function. */
  datatype ParsedMethod = ParsedMethod(receiver: string, fn: FunctionUnit)

  /** `parse_method`: a function whose name is the field identifier, paired with its receiver type. */
  function ParseMethod(receiverType: Option<string>, name: Option<string>, text: string, body: Option<BodyNode>,
                       doc: Option<string>): (m: ParsedMethod)
    requires body.Some? ==> body.value.offset <= |text|
    ensures m.receiver == ReceiverType(receiverType)
    ensures m.fn == ParseFunction(name, text, body, doc)
  {
    ParsedMethod(ReceiverType(receiverType), ParseFunction(name, text, body, doc))
  }

  // --------------------------------------------------------- documentation

  /** A node before a declaration: its kind, text, whether tree-sitter marks it extra, and its rows. */
  datatype Sibling = Sibling(kind: string, text: string, extra: bool, startRow: nat, endRow: nat)

  /** The scan walks over extra nodes that are not comments. */
  predicate Skipped(s: Sibling)
  {
    s.kind != "comment" && s.extra
  }

  /** A comment documents a node on `row` when it ends, or starts, on the row before. */
  predicate Adjacent(row: nat, s: Sibling)
  {
    row == s.endRow + 1 || row == s.startRow + 1
  }

  /** The number of siblings the scan walks over before it stops. */
  function ScanStop(previous: seq<Sibling>): (k: nat)
    ensures k <= |previous|
    ensures forall j :: 0 <= j < k ==> Skipped(previous[j])
    ensures k < |previous| ==> !Skipped(previous[k])
  {
    if previous == [] || !Skipped(previous[0]) then 0 else 1 + ScanStop(previous[1..])
  }

  /**
   * The documentation of a node on `row` from its previous siblings, nearest
   * first: the first sibling that is not skipped, when it is an adjacent
   * comment, cleaned as in the C++ parser; otherwise nothing.
   */
  function Documentation(row: nat, previous: seq<Sibling>): (doc: Option<string>)
    ensures doc.Some? ==> ScanStop(previous) < |previous| && previous[ScanStop(previous)].kind == "comment"
  {
    var k := ScanStop(previous);
    if k < |previous| && previous[k].kind == "comment" && Adjacent(row, previous[k]) then
      Some(CppParser.CleanComment(previous[k].text))
    else None
  }

  /** Extra nodes between a comment and the declaration do not hide the comment. */
  lemma DocumentationSkips(row: nat, s: Sibling, previous: seq<Sibling>)
    requires Skipped(s)
    ensures Documentation(row, [s] + previous) == Documentation(row, previous)
  {
    var t := [s] + previous;
    assert t[1..] == previous;
    var k := ScanStop(previous);
    assert ScanStop(t) == 1 + k;
    if k < |previous| {
      assert t[1 + k] == previous[k];
    }
  }

  /** A comment on the line above is the documentation, and anything else directly before means none. */
  lemma DocumentationOfNearest(row: nat, s: Sibling, previous: seq<Sibling>)
    requires !Skipped(s)
    ensures Documentation(row, [s] + previous) ==
              if s.kind == "comment" && Adjacent(row, s) then Some(CppParser.CleanComment(s.text)) else None
  {
    assert ([s] + previous)[0] == s;
  }

  /** `extract_documentation`: walks back over the previous siblings, nearest first. */
  method ExtractDocumentation(row: nat, previous: seq<Sibling>) returns (doc: Option<string>)
    ensures doc == Documentation(row, previous)
  {
    var i := 0;
    while i < |previous|
      invariant i <= ScanStop(previous)
    {
      var sibling := previous[i];
      if sibling.kind == "comment" {
        assert i == ScanStop(previous);
        if Adjacent(row, sibling) {
          return Some(CppParser.CleanComment(sibling.text));
        } else {
          return None;
        }
      } else if !sibling.extra {
        assert i == ScanStop(previous);
        return None;
      }
      i := i + 1;
    }
    assert i == ScanStop(previous);
    return None;
  }

  // ---------------------------------------------------------------- fields

  /** A child node of a field declaration. */
  datatype Node = Node(kind: string, text: string)

  /** A field declaration: its kind, documentation, source and children. */
  datatype FieldDecl = FieldDecl(kind: string, doc: Option<string>, source: Option<string>, children: seq<Node>)

  predicate IsName(n: Node)
  {
    n.kind == "identifier" || n.kind == "field_identifier"
  }

  predicate IsType(n: Node)
  {
    EndsWith(n.kind, "_type") || n.kind == "qualified_type"
  }

  function TextOf(n: Node): string
  {
    n.text
  }

  /** The index of the first child that is a type, or the number of children. */
  function TypeStart(children: seq<Node>): (k: nat)
    ensures k <= |children|
    ensures forall j :: 0 <= j < k ==> !IsType(children[j])
    ensures k < |children| ==> IsType(children[k])
  {
    if children == [] || IsType(children[0]) then 0 else 1 + TypeStart(children[1..])
  }

  /** The names a field declaration lists: its identifier children before the type, in order. */
  function FieldNames(children: seq<Node>): (names: seq<string>)
  {
    MapSeq(Filter(children[..TypeStart(children)], IsName), TextOf)
  }

  /** The first type child ends the names: it and whatever follows it contribute none. */
  lemma {:induction false} TypeStartOf(pre: seq<Node>, ty: Node, rest: seq<Node>)
    requires forall k :: 0 <= k < |pre| ==> !IsType(pre[k])
    requires IsType(ty)
    ensures TypeStart(pre + [ty] + rest) == |pre|
    decreases |pre|
  {
    var cs := pre + [ty] + rest;
    if pre == [] {
      assert cs[0] == ty;
    } else {
      assert cs[0] == pre[0];
      assert cs[1..] == pre[1..] + [ty] + rest;
      TypeStartOf(pre[1..], ty, rest);
    }
  }

  /** The names of a declaration are its identifiers before the first type. */
  lemma FieldNamesBeforeType(pre: seq<Node>, ty: Node, rest: seq<Node>)
    requires forall k :: 0 <= k < |pre| ==> !IsType(pre[k])
    requires IsType(ty)
    ensures FieldNames(pre + [ty] + rest) == MapSeq(Filter(pre, IsName), TextOf)
  {
    var cs := pre + [ty] + rest;
    assert TypeStart(cs) == |pre| by {
      TypeStartOf(pre, ty, rest);
    }
    assert cs[..|pre|] == pre;
    assert FieldNames(cs) == MapSeq(Filter(cs[..|pre|], IsName), TextOf);
  }

  /** The loop that gathers a field declaration's names, stopping at its type. */
  method CollectFieldNames(children: seq<Node>) returns (names: seq<string>)
    ensures names == FieldNames(children)
  {
    names := [];
    var i := 0;
    while i < |children|
      invariant i <= TypeStart(children)
      invariant names == MapSeq(Filter(children[..i], IsName), TextOf)
    {
      var child := children[i];
      if IsName(child) {
        MapFilterStep(children, i, IsName, TextOf);
        names := names + [child.text];
      } else if IsType(child) {
        assert i == TypeStart(children);
        break;
      } else {
        MapFilterStep(children, i, IsName, TextOf);
      }
      i := i + 1;
    }
  }

  /** One field per name, all sharing the declaration's documentation and source. */
  function FieldsOf(d: FieldDecl, names: seq<string>): (fields: seq<FieldUnit>)
    ensures |fields| == |names|
    ensures forall k :: 0 <= k < |names| ==> fields[k] == FieldUnit(names[k], d.doc, [], d.source)
  {
    if names == [] then [] else FieldsOf(d, names[..|names| - 1]) + [FieldUnit(names[|names| - 1], d.doc, [], d.source)]
  }

  /** The fields of a struct's field list: those of each `field_declaration`, in order. */
  function AllFields(decls: seq<FieldDecl>): (fields: seq<FieldUnit>)
  {
    if decls == [] then []
    else
      var d := decls[|decls| - 1];
      AllFields(decls[..|decls| - 1]) + (if d.kind == "field_declaration" then FieldsOf(d, FieldNames(d.children)) else [])
  }

  /** The inner loop of `parse_struct`: one field pushed per name. */
  method AppendFields(fields: seq<FieldUnit>, d: FieldDecl, names: seq<string>) returns (r: seq<FieldUnit>)
    ensures r == fields + FieldsOf(d, names)
  {
    r := fields;
    var j := 0;
    while j < |names|
      invariant j <= |names|
      invariant r == fields + FieldsOf(d, names)[..j]
    {
      assert FieldsOf(d, names)[..j + 1] == FieldsOf(d, names)[..j] + [FieldUnit(names[j], d.doc, [], d.source)];
      r := r + [FieldUnit(names[j], d.doc, [], d.source)];
      j := j + 1;
    }
    assert FieldsOf(d, names)[..j] == FieldsOf(d, names);
  }

  /** The loop of `parse_struct` over the field list. */
  method ParseFields(decls: seq<FieldDecl>) returns (fields: seq<FieldUnit>)
    ensures fields == AllFields(decls)
  {
    fields := [];
    var i := 0;
    while i < |decls|
      invariant i <= |decls|
      invariant fields == AllFields(decls[..i])
    {
      var d := decls[i];
      SeqTakeStep(decls, i);
      if d.kind == "field_declaration" {
        var names := CollectFieldNames(d.children);
        fields := AppendFields(fields, d, names);
      }
      i := i + 1;
    }
    SeqTakeAll(decls);
  }

  // ------------------------------------------------------ structs, interfaces

  /**
   * `parse_struct`: the name defaults to "unknown", the documentation is the
   * type spec's or else the declaration's, and the head is `type <name> struct`.
   */
  function ParseStruct(name: Option<string>, specDoc: Option<string>, declDoc: Option<string>,
                       source: Option<string>, fields: seq<FieldUnit>): (s: StructUnit)
    ensures s.name == name.UnwrapOr("unknown")
    ensures s.head == "type " + s.name + " struct"
    ensures s.visibility == DetermineVisibility(s.name)
    ensures s.doc == (if specDoc.Some? then specDoc else declDoc)
    ensures s.source == source && s.attributes == [] && s.fields == fields && s.methods == []
  {
    var n := name.UnwrapOr("unknown");
    StructUnit(n, "type " + n + " struct", DetermineVisibility(n), if specDoc.Some? then specDoc else declDoc,
               source, [], fields, [])
  }

  /** A child of an interface type: its kind, documentation, text and the identifiers the parser looks up. */
  datatype InterfaceChild = InterfaceChild(kind: string, doc: Option<string>, text: string,
                                           identifier: Option<string>, fieldIdentifier: Option<string>)

  predicate IsMethodElem(c: InterfaceChild)
  {
    c.kind == "method_elem"
  }

  /** An interface method: only a signature, its whole text, and its name, or "unknown_interface_method". */
  function InterfaceMethod(c: InterfaceChild): (f: FunctionUnit)
    ensures f.name == (if c.identifier.Some? then c.identifier.value
                       else c.fieldIdentifier.UnwrapOr("unknown_interface_method"))
    ensures f.visibility == DetermineVisibility(f.name)
    ensures f.signature == Some(c.text) && f.source == Some(c.text) && f.body.None?
  {
    var n := if c.identifier.Some? then c.identifier.value else c.fieldIdentifier.UnwrapOr("unknown_interface_method");
    FunctionUnit(n, DetermineVisibility(n), c.doc, Some(c.text), None, Some(c.text), [])
  }

  /** The loop of `parse_interface` over the interface type's children. */
  method InterfaceMethods(children: seq<InterfaceChild>) returns (methods: seq<FunctionUnit>)
    ensures methods == MapSeq(Filter(children, IsMethodElem), InterfaceMethod)
  {
    methods := [];
    var i := 0;
    while i < |children|
      invariant i <= |children|
      invariant methods == MapSeq(Filter(children[..i], IsMethodElem), InterfaceMethod)
    {
      MapFilterStep(children, i, IsMethodElem, InterfaceMethod);
      if IsMethodElem(children[i]) {
        methods := methods + [InterfaceMethod(children[i])];
      }
      i := i + 1;
    }
    SeqTakeAll(children);
  }

  /** `parse_interface`: a trait with the same name, visibility and documentation rules as a struct. */
  function ParseInterface(name: Option<string>, specDoc: Option<string>, declDoc: Option<string>,
                          source: Option<string>, methods: seq<FunctionUnit>): (t: TraitUnit)
    ensures t.name == name.UnwrapOr("unknown")
    ensures t.visibility == DetermineVisibility(t.name)
    ensures t.doc == (if specDoc.Some? then specDoc else declDoc)
    ensures t.source == source && t.attributes == [] && t.methods == methods
  {
    var n := name.UnwrapOr("unknown");
    TraitUnit(n, DetermineVisibility(n), if specDoc.Some? then specDoc else declDoc, source, [], methods)
  }

  // ------------------------------------------------------ grouping methods

  /** The methods with receiver `r`, in the order they were parsed. */
  function MethodsOf(ms: seq<ParsedMethod>, r: string): (fs: seq<FunctionUnit>)
    ensures forall f :: f in fs ==> ParsedMethod(r, f) in ms
  {
    if ms == [] then []
    else MethodsOf(ms[..|ms| - 1], r) + (if ms[|ms| - 1].receiver == r then [ms[|ms| - 1].fn] else [])
  }

  /** Every parsed method is among those of its receiver. */
  lemma {:induction false} MethodsOfMember(ms: seq<ParsedMethod>, k: nat)
    requires k < |ms|
    ensures ms[k].fn in MethodsOf(ms, ms[k].receiver)
    decreases |ms|
  {
    if k < |ms| - 1 {
      MethodsOfMember(ms[..|ms| - 1], k);
    }
  }

  /** A receiver no method has has no methods. */
  lemma {:induction false} MethodsOfAbsent(ms: seq<ParsedMethod>, r: string)
    requires r !in Receivers(ms)
    ensures MethodsOf(ms, r) == []
    decreases |ms|
  {
    if ms != [] {
      assert ms[|ms| - 1].receiver in Receivers(ms);
      assert Receivers(ms[..|ms| - 1]) <= Receivers(ms) by {
        forall x | x in Receivers(ms[..|ms| - 1]) ensures x in Receivers(ms) {
          var k :| 0 <= k < |ms| - 1 && ms[..|ms| - 1][k].receiver == x;
          assert ms[k].receiver == x;
        }
      }
      MethodsOfAbsent(ms[..|ms| - 1], r);
    }
  }

  function Receivers(ms: seq<ParsedMethod>): set<string>
  {
    set k | 0 <= k < |ms| :: ms[k].receiver
  }

  /** `methods_by_type` once every method is in: each receiver with its methods. */
  function ByReceiver(ms: seq<ParsedMethod>): (m: map<string, seq<FunctionUnit>>)
    ensures m.Keys == Receivers(ms)
  {
    map r | r in Receivers(ms) :: MethodsOf(ms, r)
  }

  /** One more method adds its receiver. */
  lemma ReceiversSnoc(ms: seq<ParsedMethod>, i: nat)
    requires i < |ms|
    ensures Receivers(ms[..i + 1]) == Receivers(ms[..i]) + {ms[i].receiver}
  {
    var p, q := ms[..i], ms[..i + 1];
    forall x | x in Receivers(q) ensures x in Receivers(p) + {ms[i].receiver} {
      var k :| 0 <= k < |q| && q[k].receiver == x;
      if k < i {
        assert p[k].receiver == x;
      }
    }
    forall x | x in Receivers(p) ensures x in Receivers(q) {
      var k :| 0 <= k < |p| && p[k].receiver == x;
      assert q[k].receiver == x;
    }
    assert q[i].receiver == ms[i].receiver;
  }

  /** One more method goes at the end of its receiver's list, and no other list changes. */
  lemma MethodsOfSnoc(ms: seq<ParsedMethod>, i: nat, x: string)
    requires i < |ms|
    ensures MethodsOf(ms[..i + 1], x) == MethodsOf(ms[..i], x) + (if ms[i].receiver == x then [ms[i].fn] else [])
  {
    SeqTakeStep(ms, i);
  }

  /** One more method goes at the end of its receiver's list. */
  lemma ByReceiverStep(ms: seq<ParsedMethod>, i: nat)
    requires i < |ms|
    ensures var before := ByReceiver(ms[..i]);
      var r := ms[i].receiver;
      ByReceiver(ms[..i + 1]) == before[r := (if r in before then before[r] else []) + [ms[i].fn]]
  {
    var before := ByReceiver(ms[..i]);
    var after := ByReceiver(ms[..i + 1]);
    var r := ms[i].receiver;
    var expected := before[r := (if r in before then before[r] else []) + [ms[i].fn]];
    assert after.Keys == expected.Keys by {
      ReceiversSnoc(ms, i);
    }
    forall x | x in after ensures after[x] == expected[x] {
      MethodsOfSnoc(ms, i, x);
      if x == r && r !in before {
        MethodsOfAbsent(ms[..i], r);
      }
    }
  }

  /** The loop that fills `methods_by_type` with `entry().or_default().push`. */
  method GroupByReceiver(ms: seq<ParsedMethod>) returns (byType: map<string, seq<FunctionUnit>>)
    ensures byType == ByReceiver(ms)
  {
    byType := map[];
    var i := 0;
    assert Receivers(ms[..0]) == {};
    while i < |ms|
      invariant i <= |ms|
      invariant byType == ByReceiver(ms[..i])
    {
      ByReceiverStep(ms, i);
      var r := ms[i].receiver;
      var existing := if r in byType then byType[r] else [];
      byType := byType[r := existing + [ms[i].fn]];
      i := i + 1;
    }
    SeqTakeAll(ms);
  }

  /** The receiver an impl head `methods for <receiver>` names. */
  function HeadReceiver(head: string): string
  {
    if StartsWith(head, "methods for ") then head[12..] else []
  }

  /** The impl `parse_file` makes for a receiver's methods: its head names the receiver back. */
  function MethodsImpl(receiver: string, methods: seq<FunctionUnit>): (i: ImplUnit)
    ensures HeadReceiver(i.head) == receiver && i.methods == methods
  {
    var head := "methods for " + receiver;
    assert head[..12] == "methods for " && head[12..] == receiver;
    ImplUnit(head, None, None, [], methods)
  }

  /** The structs with their methods, the impls made for them, their receivers and the receivers left over. */
  datatype Attached = Attached(structs: seq<StructUnit>, impls: seq<ImplUnit>, names: seq<string>,
                               rest: map<string, seq<FunctionUnit>>)

  /**
   * The loop over the structs: a struct whose name still has methods takes
   * them, gets an impl of them, and the entry is removed.
   */
  function Attach(structs: seq<StructUnit>, byType: map<string, seq<FunctionUnit>>): (a: Attached)
    ensures |a.structs| == |structs| && |a.impls| == |a.names|
  {
    if structs == [] then Attached([], [], [], byType)
    else
      var s := structs[0];
      if s.name in byType then
        var a := Attach(structs[1..], byType - {s.name});
        Attached([s.(methods := s.methods + byType[s.name])] + a.structs,
                 [MethodsImpl(s.name, byType[s.name])] + a.impls, [s.name] + a.names, a.rest)
      else
        var a := Attach(structs[1..], byType);
        Attached([s] + a.structs, a.impls, a.names, a.rest)
  }

  /** No struct before index `k` has the same name. */
  predicate FirstWithName(structs: seq<StructUnit>, k: nat)
    requires k < |structs|
  {
    forall j :: 0 <= j < k ==> structs[j].name != structs[k].name
  }

  /** What struct `k` becomes: the first struct of a name that has methods takes them all. */
  function AttachedStruct(structs: seq<StructUnit>, k: nat, byType: map<string, seq<FunctionUnit>>): StructUnit
    requires k < |structs|
  {
    var s := structs[k];
    if s.name in byType && FirstWithName(structs, k) then s.(methods := s.methods + byType[s.name]) else s
  }

  /** Dropping the first struct, and its name from the map when it took methods, keeps what the others become. */
  lemma AttachedStructShift(structs: seq<StructUnit>, k: nat, byType: map<string, seq<FunctionUnit>>)
    requires 1 <= k < |structs|
    ensures var rest := if structs[0].name in byType then byType - {structs[0].name} else byType;
      AttachedStruct(structs[1..], k - 1, rest) == AttachedStruct(structs, k, byType)
  {
    var tail := structs[1..];
    assert tail[k - 1] == structs[k];
    if FirstWithName(structs, k) {
      forall j | 0 <= j < k - 1 ensures tail[j].name != tail[k - 1].name {
        assert tail[j] == structs[j + 1];
      }
    }
    if FirstWithName(tail, k - 1) && structs[k].name != structs[0].name {
      forall j | 0 <= j < k ensures structs[j].name != structs[k].name {
        if j > 0 {
          assert tail[j - 1] == structs[j];
        }
      }
    }
  }

  /** Each struct becomes itself, or, the first of its name with methods, itself with those methods appended. */
  lemma {:induction false} AttachStructs(structs: seq<StructUnit>, byType: map<string, seq<FunctionUnit>>)
    ensures var a := Attach(structs, byType);
      forall k :: 0 <= k < |structs| ==> a.structs[k] == AttachedStruct(structs, k, byType)
    decreases |structs|
  {
    if structs != [] {
      var rest := if structs[0].name in byType then byType - {structs[0].name} else byType;
      AttachStructs(structs[1..], rest);
      forall k | 1 <= k < |structs|
        ensures Attach(structs, byType).structs[k] == AttachedStruct(structs, k, byType)
      {
        AttachedStructShift(structs, k, byType);
      }
    }
  }

  /** The names of the structs before index `n`. */
  ghost function NamesBefore(structs: seq<StructUnit>, n: nat): set<string>
    requires n <= |structs|
  {
    set j | 0 <= j < n :: structs[j].name
  }

  /** From index `n` on, in struct order, the name of each struct that is the first of its name and has methods. */
  function FirstNamesWithMethods(structs: seq<StructUnit>, byType: map<string, seq<FunctionUnit>>, n: nat): seq<string>
    requires n <= |structs|
    decreases |structs| - n
  {
    if n == |structs| then []
    else (if structs[n].name in byType && FirstWithName(structs, n) then [structs[n].name] else [])
         + FirstNamesWithMethods(structs, byType, n + 1)
  }

  /** Past the first `n` structs, the loop meets the map without the names those structs had. */
  lemma {:induction false} AttachNamesFrom(structs: seq<StructUnit>, byType: map<string, seq<FunctionUnit>>, n: nat)
    requires n <= |structs|
    ensures Attach(structs[n..], byType - NamesBefore(structs, n)).names == FirstNamesWithMethods(structs, byType, n)
    decreases |structs| - n
  {
    if n < |structs| {
      var s := structs[n];
      var m := byType - NamesBefore(structs, n);
      assert structs[n..][0] == s && structs[n..][1..] == structs[n + 1..];
      assert NamesBefore(structs, n + 1) == NamesBefore(structs, n) + {s.name};
      assert s.name in NamesBefore(structs, n) <==> !FirstWithName(structs, n);
      AttachNamesFrom(structs, byType, n + 1);
      if s.name in m {
        assert m - {s.name} == byType - NamesBefore(structs, n + 1);
      } else {
        assert m == byType - NamesBefore(structs, n + 1);
      }
    } else {
      assert structs[n..] == [];
    }
  }

  /**
   * The struct impls come in struct order: one for each struct that is the
   * first of its name and has methods, holding that name's methods.
   */
  lemma AttachNamesInOrder(structs: seq<StructUnit>, byType: map<string, seq<FunctionUnit>>)
    ensures var a := Attach(structs, byType);
      a.names == FirstNamesWithMethods(structs, byType, 0) &&
      forall k :: 0 <= k < |a.impls| ==> a.names[k] in byType && a.impls[k] == MethodsImpl(a.names[k], byType[a.names[k]])
  {
    AttachNamesFrom(structs, byType, 0);
    assert structs[0..] == structs;
    assert byType - NamesBefore(structs, 0) == byType;
    AttachPartition(structs, byType);
  }

  /**
   * The receivers that got an impl and those left over split the map: the
   * former are distinct, each impl holds its receiver's methods, and the
   * leftovers keep theirs.
   */
  predicate Partitioned(byType: map<string, seq<FunctionUnit>>, names: seq<string>, impls: seq<ImplUnit>,
                        rest: map<string, seq<FunctionUnit>>)
  {
    |impls| == |names| &&
    (forall k :: 0 <= k < |names| ==>
       names[k] in byType && names[k] !in rest && impls[k] == MethodsImpl(names[k], byType[names[k]])) &&
    (forall j, k :: 0 <= j < k < |names| ==> names[j] != names[k]) &&
    (forall r :: r in rest ==> r in byType && rest[r] == byType[r]) &&
    (forall r :: r in byType ==> r in rest || r in names)
  }

  /** The loop over the structs splits the map between struct impls and leftovers. */
  lemma {:induction false} AttachPartition(structs: seq<StructUnit>, byType: map<string, seq<FunctionUnit>>)
    ensures var a := Attach(structs, byType);
      Partitioned(byType, a.names, a.impls, a.rest)
    decreases |structs|
  {
    if structs == [] {
      assert Attach(structs, byType) == Attached([], [], [], byType);
    } else {
      var s := structs[0];
      if s.name in byType {
        AttachPartition(structs[1..], byType - {s.name});
        var a := Attach(structs[1..], byType - {s.name});
        PartitionedPrepend(byType, s.name, a.names, a.impls, a.rest);
      } else {
        AttachPartition(structs[1..], byType);
      }
    }
  }

  /** A receiver handled first, ahead of a split of the rest of the map, extends that split. */
  lemma PartitionedPrepend(byType: map<string, seq<FunctionUnit>>, r: string, names: seq<string>, impls: seq<ImplUnit>,
                           rest: map<string, seq<FunctionUnit>>)
    requires r in byType && Partitioned(byType - {r}, names, impls, rest)
    ensures Partitioned(byType, [r] + names, [MethodsImpl(r, byType[r])] + impls, rest)
  {
    var names' := [r] + names;
    var impls' := [MethodsImpl(r, byType[r])] + impls;
    forall k | 0 <= k < |names'|
      ensures names'[k] in byType && names'[k] !in rest && impls'[k] == MethodsImpl(names'[k], byType[names'[k]])
    {
      if k > 0 {
        assert names'[k] == names[k - 1] && impls'[k] == impls[k - 1];
      }
    }
    forall j, k | 0 <= j < k < |names'| ensures names'[j] != names'[k] {
      assert names'[k] == names[k - 1];
      if j > 0 {
        assert names'[j] == names[j - 1];
      }
    }
    forall x | x in byType ensures x in rest || x in names' {
      if x != r && x !in rest {
        var k :| 0 <= k < |names| && names[k] == x;
        assert names'[k + 1] == x;
      }
    }
  }

  /** A receiver taken from the leftovers moves to the handled ones. */
  lemma PartitionedMove(byType: map<string, seq<FunctionUnit>>, names: seq<string>, impls: seq<ImplUnit>,
                        rest: map<string, seq<FunctionUnit>>, r: string)
    requires Partitioned(byType, names, impls, rest) && r in rest
    ensures Partitioned(byType, names + [r], impls + [MethodsImpl(r, rest[r])], rest - {r})
  {
    var names' := names + [r];
    var impls' := impls + [MethodsImpl(r, rest[r])];
    forall k | 0 <= k < |names'|
      ensures names'[k] in byType && names'[k] !in rest - {r} && impls'[k] == MethodsImpl(names'[k], byType[names'[k]])
    {
      if k < |names| {
        assert names'[k] == names[k] && impls'[k] == impls[k];
      }
    }
    forall j, k | 0 <= j < k < |names'| ensures names'[j] != names'[k] {
      assert names'[j] == names[j];
      if k < |names| {
        assert names'[k] == names[k];
      }
    }
    forall x | x in byType ensures x in rest - {r} || x in names' {
      if x == r {
        assert names'[|names|] == r;
      } else if x !in rest {
        var k :| 0 <= k < |names| && names[k] == x;
        assert names'[k] == x;
      }
    }
  }

  /** A split with no leftovers gives one impl per receiver. */
  lemma PartitionedDone(byType: map<string, seq<FunctionUnit>>, names: seq<string>, impls: seq<ImplUnit>)
    requires Partitioned(byType, names, impls, map[])
    ensures OneImplPerReceiver(byType, impls)
  {
    forall r | r in byType ensures exists k :: 0 <= k < |impls| && impls[k] == MethodsImpl(r, byType[r]) {
      var k :| 0 <= k < |names| && names[k] == r;
      assert impls[k] == MethodsImpl(r, byType[r]);
    }
    forall k | 0 <= k < |impls| ensures Owned(byType, impls[k]) {
      assert HeadReceiver(impls[k].head) == names[k];
    }
    forall j, k | 0 <= j < k < |impls| ensures impls[j].head != impls[k].head {
      assert HeadReceiver(impls[j].head) == names[j] && HeadReceiver(impls[k].head) == names[k];
    }
  }

  /** The loop over the structs, in place of `for struct_item in &mut file_unit.structs`. */
  method AttachMethods(structs: seq<StructUnit>, byType: map<string, seq<FunctionUnit>>) returns (a: Attached)
    ensures a == Attach(structs, byType)
  {
    var cur := byType;
    var out: seq<StructUnit> := [];
    var impls: seq<ImplUnit> := [];
    var names: seq<string> := [];
    var i := 0;
    while i < |structs|
      invariant i <= |structs|
      invariant var b := Attach(structs[i..], cur);
        Attach(structs, byType) == Attached(out + b.structs, impls + b.impls, names + b.names, b.rest)
    {
      var s := structs[i];
      assert structs[i..][0] == s && structs[i..][1..] == structs[i + 1..];
      if s.name in cur {
        var taken := s.(methods := s.methods + cur[s.name]);
        var impl := MethodsImpl(s.name, cur[s.name]);
        ghost var b := Attach(structs[i + 1..], cur - {s.name});
        assert Attach(structs[i..], cur) == Attached([taken] + b.structs, [impl] + b.impls, [s.name] + b.names, b.rest);
        SeqAppendAssoc(out, [taken], b.structs);
        SeqAppendAssoc(impls, [impl], b.impls);
        SeqAppendAssoc(names, [s.name], b.names);
        out := out + [taken];
        impls := impls + [impl];
        names := names + [s.name];
        cur := cur - {s.name};
      } else {
        ghost var b := Attach(structs[i + 1..], cur);
        assert Attach(structs[i..], cur) == Attached([s] + b.structs, b.impls, b.names, b.rest);
        SeqAppendAssoc(out, [s], b.structs);
        out := out + [s];
      }
      i := i + 1;
    }
    assert structs[i..] == [];
    assert out + [] == out && impls + [] == impls && names + [] == names;
    a := Attached(out, impls, names, cur);
  }

  /**
   * `impls` holds one impl per receiver of `m`, headed by that receiver and
   * holding its methods, and nothing else: no two impls share a head.
   */
  predicate OneImplPerReceiver(m: map<string, seq<FunctionUnit>>, impls: seq<ImplUnit>)
  {
    (forall r :: r in m ==> exists k :: 0 <= k < |impls| && impls[k] == MethodsImpl(r, m[r])) &&
    (forall k :: 0 <= k < |impls| ==> Owned(m, impls[k])) &&
    (forall j, k :: 0 <= j < k < |impls| ==> impls[j].head != impls[k].head)
  }

  /** The impl is the one its head's receiver gets from the map. */
  predicate Owned(m: map<string, seq<FunctionUnit>>, i: ImplUnit)
  {
    HeadReceiver(i.head) in m && i == MethodsImpl(HeadReceiver(i.head), m[HeadReceiver(i.head)])
  }

  /** The loop over what is left of `methods_by_type`, in an order the map does not fix. */
  method LeftoverImpls(rest: map<string, seq<FunctionUnit>>) returns (impls: seq<ImplUnit>)
    ensures OneImplPerReceiver(rest, impls)
  {
    var left := rest;
    impls := [];
    ghost var done: seq<string> := [];
    while left != map[]
      invariant Partitioned(rest, done, impls, left)
      decreases |left|
    {
      var r :| r in left;
      PartitionedMove(rest, done, impls, left, r);
      impls := impls + [MethodsImpl(r, left[r])];
      done := done + [r];
      left := left - {r};
    }
    PartitionedDone(rest, done, impls);
  }

  /** Every receiver of the map has an impl: the struct impls for some, the leftovers for the others. */
  lemma GroupedImplsCover(byType: map<string, seq<FunctionUnit>>, names: seq<string>, structImpls: seq<ImplUnit>,
                          rest: map<string, seq<FunctionUnit>>, leftover: seq<ImplUnit>)
    requires Partitioned(byType, names, structImpls, rest) && OneImplPerReceiver(rest, leftover)
    ensures var impls := structImpls + leftover;
      forall r :: r in byType ==> exists k :: 0 <= k < |impls| && impls[k] == MethodsImpl(r, byType[r])
  {
    var impls := structImpls + leftover;
    forall r | r in byType
      ensures exists k :: 0 <= k < |impls| && impls[k] == MethodsImpl(r, byType[r])
    {
      if r in rest {
        var k :| 0 <= k < |leftover| && leftover[k] == MethodsImpl(r, rest[r]);
        assert impls[|structImpls| + k] == leftover[k];
      } else {
        var k :| 0 <= k < |names| && names[k] == r;
        assert impls[k] == structImpls[k];
      }
    }
  }

  /** Every impl belongs to a receiver of the map. */
  lemma GroupedImplsOwned(byType: map<string, seq<FunctionUnit>>, names: seq<string>, structImpls: seq<ImplUnit>,
                          rest: map<string, seq<FunctionUnit>>, leftover: seq<ImplUnit>)
    requires Partitioned(byType, names, structImpls, rest) && OneImplPerReceiver(rest, leftover)
    ensures var impls := structImpls + leftover;
      forall k :: 0 <= k < |impls| ==> Owned(byType, impls[k])
  {
    var impls := structImpls + leftover;
    forall k | 0 <= k < |impls| ensures Owned(byType, impls[k]) {
      if k < |structImpls| {
        assert impls[k] == structImpls[k];
        assert HeadReceiver(impls[k].head) == names[k];
      } else {
        var i := k - |structImpls|;
        assert impls[k] == leftover[i];
        assert Owned(rest, leftover[i]);
      }
    }
  }

  /** No two impls share a head: struct receivers are distinct and never left over. */
  lemma GroupedImplsDistinct(byType: map<string, seq<FunctionUnit>>, names: seq<string>, structImpls: seq<ImplUnit>,
                             rest: map<string, seq<FunctionUnit>>, leftover: seq<ImplUnit>)
    requires Partitioned(byType, names, structImpls, rest) && OneImplPerReceiver(rest, leftover)
    ensures var impls := structImpls + leftover;
      forall j, k :: 0 <= j < k < |impls| ==> impls[j].head != impls[k].head
  {
    var impls := structImpls + leftover;
    forall j, k | 0 <= j < k < |impls| ensures impls[j].head != impls[k].head {
      if k < |structImpls| {
        assert impls[j] == structImpls[j] && impls[k] == structImpls[k];
        assert HeadReceiver(impls[j].head) == names[j] && HeadReceiver(impls[k].head) == names[k];
      } else if j >= |structImpls| {
        assert impls[j] == leftover[j - |structImpls|] && impls[k] == leftover[k - |structImpls|];
      } else {
        var i := k - |structImpls|;
        assert impls[j] == structImpls[j] && impls[k] == leftover[i];
        assert Owned(rest, leftover[i]);
        assert HeadReceiver(impls[j].head) == names[j] && names[j] !in rest;
      }
    }
  }

  /**
   * The grouping at the end of `parse_file`: each method goes to the first
   * struct of its receiver's name, and the impls, those for structs in
   * struct order followed by those for the other receivers, hold each
   * receiver's methods exactly once.
   */
  method GroupMethods(structs: seq<StructUnit>, ms: seq<ParsedMethod>)
    returns (newStructs: seq<StructUnit>, impls: seq<ImplUnit>)
    ensures |newStructs| == |structs|
    ensures forall k :: 0 <= k < |structs| ==>
              newStructs[k] == (if structs[k].name in Receivers(ms) && FirstWithName(structs, k)
                                then structs[k].(methods := structs[k].methods + MethodsOf(ms, structs[k].name))
                                else structs[k])
    ensures OneImplPerReceiver(ByReceiver(ms), impls)
    ensures |Attach(structs, ByReceiver(ms)).impls| <= |impls|
    ensures impls[..|Attach(structs, ByReceiver(ms)).impls|] == Attach(structs, ByReceiver(ms)).impls
    ensures var names := FirstNamesWithMethods(structs, ByReceiver(ms), 0);
      |names| <= |impls| &&
      forall k :: 0 <= k < |names| ==> names[k] in ByReceiver(ms) && impls[k] == MethodsImpl(names[k], ByReceiver(ms)[names[k]])
  {
    var byType := GroupByReceiver(ms);
    var a := AttachMethods(structs, byType);
    var leftover := LeftoverImpls(a.rest);
    newStructs := a.structs;
    impls := a.impls + leftover;
    AttachStructs(structs, byType);
    AttachPartition(structs, byType);
    GroupedImplsCover(byType, a.names, a.impls, a.rest, leftover);
    GroupedImplsOwned(byType, a.names, a.impls, a.rest, leftover);
    GroupedImplsDistinct(byType, a.names, a.impls, a.rest, leftover);
    AttachNamesInOrder(structs, byType);
    assert impls[..|a.impls|] == a.impls;
  }

  /** Every parsed method is in the impl of its receiver, among that receiver's methods. */
  lemma MethodLandsInItsImpl(ms: seq<ParsedMethod>, k: nat)
    requires k < |ms|
    ensures ms[k].receiver in Receivers(ms)
    ensures ms[k].fn in MethodsImpl(ms[k].receiver, MethodsOf(ms, ms[k].receiver)).methods
  {
    MethodsOfMember(ms, k);
  }
}
