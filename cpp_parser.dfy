/**
 * The text-level logic of the C/C++ parser (`src/parser/lang/cpp.rs`).
 * Tree-sitter nodes appear as their kind and their source text; the parser's
 * use of the syntax tree (which child is the declarator, which node is the
 * previous sibling) is replaced by parameters and lists.
 */
module CppParser {
  import opened Wrappers
  import opened Strings
  import opened Units

  // ------------------------------------------------------------ comments

  /**
   * `clean_comment`: every leading `//`, then every leading `/*` and every
   * trailing `*/` removed, and the rest trimmed.
   */
  function CleanComment(comment: string): (r: string)
    ensures |r| <= |comment|
    ensures r == [] || (!IsWhitespace(r[0]) && !IsWhitespace(r[|r| - 1]))
  {
    Trim(TrimEndMatches(TrimStartMatches(TrimStartMatches(comment, "//"), "/*"), "*/"))
  }

  /** A line comment is its trimmed text. */
  lemma CleanLineComment(t: string)
    requires t == [] || t[0] != '/'
    requires !EndsWith(t, "*/")
    ensures CleanComment("//" + t) == Trim(t)
  {
    assert TrimStartMatches("//" + t, "//") == t by {
      TrimStartMatchesPrefix("//", t);
      StartsWithPair(t, '/', '/');
    }
    assert TrimStartMatches(t, "/*") == t by {
      StartsWithPair(t, '/', '*');
    }
  }

  /** A block comment is its trimmed text. */
  lemma CleanBlockComment(t: string)
    requires t == [] || t[0] != '/'
    requires !EndsWith(t, "*/")
    ensures CleanComment("/*" + t + "*/") == Trim(t)
  {
    BlockOpenerOff(t);
    TrimEndMatchesSuffix(t, "*/");
  }

  /** Of a block comment the line-comment stage removes nothing and the block stage removes the opener. */
  lemma BlockOpenerOff(t: string)
    requires t == [] || t[0] != '/'
    ensures TrimStartMatches(TrimStartMatches("/*" + t + "*/", "//"), "/*") == t + "*/"
  {
    var u := t + "*/";
    AppendAssoc("/*", t, "*/");
    var c := "/*" + u;
    assert c[1] == '*';
    StartsWithPair(c, '/', '/');
    TrimStartMatchesPrefix("/*", u);
    assert u[0] == (if t == [] then '*' else t[0]);
    StartsWithPair(u, '/', '*');
  }

  /** `is_whitespace` on a node kind: a newline, a space or a tab. */
  function IsWhitespaceKind(kind: string): (b: bool)
    ensures b ==> |kind| == 1 && IsWhitespace(kind[0])
    ensures b ==> kind != "\r"
  {
    kind == "\n" || kind == " " || kind == "\t"
  }

  /** A node of the syntax tree, by its kind and its text. */
  datatype Sibling = Sibling(kind: string, text: string)

  /** The backward scan for comments stops at anything that is no comment and no whitespace. */
  predicate StopsScan(s: Sibling)
  {
    s.kind != "comment" && !Contains(s.kind, "comment") && !IsWhitespaceKind(s.kind)
  }

  /**
   * The cleaned texts of the `comment` nodes met before the scan stops, in
   * the order they are met.  Nodes whose kind merely contains `comment`, and
   * whitespace nodes, are passed over.
   */
  function LeadingComments(nodes: seq<Sibling>): (r: seq<string>)
    ensures |r| <= |nodes|
  {
    if nodes == [] || StopsScan(nodes[0]) then []
    else if nodes[0].kind == "comment" then [CleanComment(nodes[0].text)] + LeadingComments(nodes[1..])
    else LeadingComments(nodes[1..])
  }

  /** A run of comments ended by a stopping node yields exactly those comments, cleaned, in order. */
  lemma {:induction false} LeadingCommentsOfRun(cs: seq<Sibling>, rest: seq<Sibling>)
    requires forall k :: 0 <= k < |cs| ==> cs[k].kind == "comment"
    requires rest == [] || StopsScan(rest[0])
    ensures |LeadingComments(cs + rest)| == |cs|
    ensures forall k :: 0 <= k < |cs| ==> LeadingComments(cs + rest)[k] == CleanComment(cs[k].text)
    decreases |cs|
  {
    if cs == [] {
      assert cs + rest == rest;
    } else {
      assert (cs + rest)[0] == cs[0];
      assert (cs + rest)[1..] == cs[1..] + rest;
      LeadingCommentsOfRun(cs[1..], rest);
    }
  }

  /** One step of the scan over `nodes[i..]`. */
  lemma LeadingCommentsStep(nodes: seq<Sibling>, i: nat)
    requires i < |nodes| && !StopsScan(nodes[i])
    ensures LeadingComments(nodes[i..]) ==
      (if nodes[i].kind == "comment" then [CleanComment(nodes[i].text)] else []) + LeadingComments(nodes[i + 1..])
  {
    assert nodes[i..][0] == nodes[i];
    assert nodes[i..][1..] == nodes[i + 1..];
  }

  /** The scan over `nodes[i..]` is over once it meets a stopping node or the end. */
  lemma LeadingCommentsEnd(nodes: seq<Sibling>, i: nat)
    requires i <= |nodes| && (i == |nodes| || StopsScan(nodes[i]))
    ensures LeadingComments(nodes[i..]) == []
  {
    if i < |nodes| {
      assert nodes[i..][0] == nodes[i];
    }
  }

  /**
   * `extract_documentation`: walks the previous siblings, nearest first,
   * collecting cleaned comments until the scan stops; the comments are
   * then reversed into source order and joined by newlines.
   */
  method ExtractDocumentation(previous: seq<Sibling>) returns (doc: Option<string>)
    ensures doc.None? <==> LeadingComments(previous) == []
    ensures doc.Some? ==> doc.value == Join(Reverse(LeadingComments(previous)), "\n")
  {
    var comments: seq<string> := [];
    var i := 0;
    while i < |previous| && !StopsScan(previous[i])
      invariant 0 <= i <= |previous|
      invariant comments + LeadingComments(previous[i..]) == LeadingComments(previous)
    {
      LeadingCommentsStep(previous, i);
      if previous[i].kind == "comment" {
        comments := comments + [CleanComment(previous[i].text)];
      }
      i := i + 1;
    }
    LeadingCommentsEnd(previous, i);
    assert comments == LeadingComments(previous);
    comments := Reverse(comments);
    if comments == [] {
      doc := None;
    } else {
      doc := Some(Join(comments, "\n"));
    }
  }

  /**
   * The file documentation of `parse_file`: the same scan over the root's
   * children from the first one on, kept in that order.
   */
  method FileDocumentation(children: seq<Sibling>) returns (doc: Option<string>)
    ensures doc.None? <==> LeadingComments(children) == []
    ensures doc.Some? ==> doc.value == Join(LeadingComments(children), "\n")
  {
    var comments: seq<string> := [];
    var i := 0;
    while i < |children| && !StopsScan(children[i])
      invariant 0 <= i <= |children|
      invariant comments + LeadingComments(children[i..]) == LeadingComments(children)
    {
      LeadingCommentsStep(children, i);
      if children[i].kind == "comment" {
        comments := comments + [CleanComment(children[i].text)];
      }
      i := i + 1;
    }
    LeadingCommentsEnd(children, i);
    assert comments == LeadingComments(children);
    if comments == [] {
      doc := None;
    } else {
      doc := Some(Join(comments, "\n"));
    }
  }

  // ----------------------------------------------------- function names

  /** The words that `extract_function_name_from_signature` never takes as a name. */
  predicate IsSpecifier(w: string) { w == "const" || w == "override" || w == "virtual" }

  /**
   * The name `extract_function_name_from_signature` picks from the words
   * before the `(`: the last word, after its last `::` if it has one, or
   * the word before it when the last one is a specifier.
   */
  function NameFromWords(parts: seq<string>): (r: Option<string>)
    requires forall k :: 0 <= k < |parts| ==> NoWhitespace(parts[k])
    ensures parts == [] ==> r.None?
    ensures r.Some? ==> NoWhitespace(r.value)
  {
    if parts == [] then None
    else
      var last := parts[|parts| - 1];
      if Contains(last, "::") then
        var colons := RFind(last, "::").value;
        assert NoWhitespace(last);
        var name := last[colons + 2..];
        assert forall k :: 0 <= k < |name| ==> name[k] == last[colons + 2 + k];
        Some(name)
      else if last != [] && !IsSpecifier(last) then Some(last)
      else if |parts| > 1 && parts[|parts| - 2] != [] && !IsSpecifier(parts[|parts| - 2]) then
        Some(parts[|parts| - 2])
      else None
  }

  /** `extract_function_name_from_signature`: the name among the words before the first `(`. */
  function ExtractFunctionName(signature: string): (r: Option<string>)
    ensures '(' !in signature ==> r.None?
    ensures r.Some? ==> NoWhitespace(r.value)
  {
    match FindChar(signature, '(')
    case None => None
    case Some(p) => NameFromWords(SplitWhitespace(Trim(signature[..p])))
  }

  /** The name of `pre + "(" + rest` comes from the words of `pre` when `pre` has no `(` and starts with no blank. */
  lemma NameBeforeParen(pre: string, rest: string)
    requires '(' !in pre && (pre == [] || !IsWhitespace(pre[0]))
    ensures ExtractFunctionName(pre + "(" + rest) == NameFromWords(SplitWhitespace(TrimEnd(pre)))
  {
    var sig := pre + "(" + rest;
    assert FindChar(sig, '(') == Some(|pre|) && sig[..|pre|] == pre by {
      FindCharAfterTrimEnd(pre, '(', rest);
    }
    assert Trim(pre) == TrimEnd(pre) by {
      TrimStartNoLeading(pre);
    }
  }

  /** The words of `x + w + y` with its end trimmed, where `x` ends at a blank, `w` is a word and `y` is blank. */
  lemma WordsOfTrimmed(x: string, w: string, y: string)
    requires x == [] || IsWhitespace(x[|x| - 1])
    requires w != [] && NoWhitespace(w) && AllWhitespace(y)
    ensures SplitWhitespace(TrimEnd(x + w + y)) == SplitWhitespace(x) + [w]
  {
    assert TrimEnd(x + w + y) == x + w by {
      TrimEndSkips(x + w, y);
      TrimEndNoTrailing(x + w);
    }
    assert x + w == x + w + [];
    SplitWhitespaceSnoc(x, w, []);
  }

  /** A signature text `x + w + y + "(" + rest` of the shape the lemmas below take. */
  predicate NameShape(x: string, w: string, y: string)
  {
    (x == [] || (!IsWhitespace(x[0]) && IsWhitespace(x[|x| - 1]))) &&
    w != [] && NoWhitespace(w) && AllWhitespace(y) && '(' !in x + w + y
  }

  /** "int add(int a, int b)" names `add`: the last word before `(` when it is not a specifier. */
  lemma FunctionNameIsLastWord(x: string, w: string, y: string, rest: string)
    requires NameShape(x, w, y)
    requires !Contains(w, "::") && !IsSpecifier(w)
    ensures ExtractFunctionName(x + w + y + "(" + rest) == Some(w)
  {
    NameBeforeParen(x + w + y, rest);
    WordsOfTrimmed(x, w, y);
    var parts := SplitWhitespace(x) + [w];
    assert parts[|parts| - 1] == w;
  }

  /** The last `::` of `q + "::" + m` is the one in front of `m` when `m` has no colon. */
  lemma LastScope(q: string, m: string)
    requires ':' !in m
    ensures Contains(q + "::" + m, "::")
    ensures RFind(q + "::" + m, "::") == Some(|q|)
  {
    var w := q + "::" + m;
    OccursAtPair(w, ':', ':', |q|);
    forall j | |q| < j
      ensures !OccursAt(w, "::", j)
    {
      OccursAtPair(w, ':', ':', j);
      assert j + 1 < |w| ==> w[j + 1] == m[j + 1 - |q| - 2];
    }
  }

  /** "void Rectangle::setDimensions(double w, double h)" names `setDimensions`: the text after the last `::`. */
  lemma FunctionNameAfterScope(x: string, q: string, m: string, y: string, rest: string)
    requires NameShape(x, q + "::" + m, y)
    requires ':' !in m
    ensures ExtractFunctionName(x + (q + "::" + m) + y + "(" + rest) == Some(m)
  {
    var w := q + "::" + m;
    NameBeforeParen(x + w + y, rest);
    WordsOfTrimmed(x, w, y);
    LastScope(q, m);
    var parts := SplitWhitespace(x) + [w];
    assert parts[|parts| - 1] == w;
    assert w[|q| + 2..] == m;
  }

  /** A word without a colon contains no `::`. */
  lemma NoColonNoScope(k: string)
    requires ':' !in k
    ensures !Contains(k, "::")
  {
    forall i | 0 <= i <= |k| - 2
      ensures !OccursAt(k, "::", i)
    {
      OccursAtPair(k, ':', ':', i);
    }
  }

  /** The specifiers contain no `::`. */
  lemma SpecifierHasNoScope(k: string)
    requires IsSpecifier(k)
    ensures !Contains(k, "::")
  {
    NoColonNoScope(k);
  }

  /** When the last word before `(` is a specifier, the word before it is the name. */
  lemma FunctionNameBeforeSpecifier(x: string, v: string, z: string, k: string, y: string, rest: string)
    requires x == [] || (!IsWhitespace(x[0]) && IsWhitespace(x[|x| - 1]))
    requires v != [] && NoWhitespace(v) && !IsSpecifier(v)
    requires z != [] && AllWhitespace(z)
    requires NameShape(x + v + z, k, y) && IsSpecifier(k)
    ensures ExtractFunctionName(x + v + z + k + y + "(" + rest) == Some(v)
  {
    var x2 := x + v + z;
    var words := SplitWhitespace(x) + [v] + [k];
    assert ExtractFunctionName(x2 + k + y + "(" + rest) == NameFromWords(SplitWhitespace(TrimEnd(x2 + k + y))) by {
      NameBeforeParen(x2 + k + y, rest);
    }
    assert SplitWhitespace(TrimEnd(x2 + k + y)) == words by {
      WordsOfTrimmed(x2, k, y);
      SplitWhitespaceSnoc(x, v, z);
    }
    assert NameFromWords(words) == Some(v) by {
      SpecifierHasNoScope(k);
      assert words[|words| - 1] == k && words[|words| - 2] == v;
    }
  }

  /** "int add(int a, int b)" names `add`, as the parser's tests expect. */
  lemma FunctionNameAdd()
    ensures ExtractFunctionName("int " + "add" + "" + "(" + "int a, int b)") == Some("add")
  {
    NoColonNoScope("add");
    FunctionNameIsLastWord("int ", "add", "", "int a, int b)");
  }

  /** "double area() const override" names `area`: the specifiers follow the `(`. */
  lemma FunctionNameArea()
    ensures ExtractFunctionName("double " + "area" + "" + "(" + ") const override") == Some("area")
  {
    NoColonNoScope("area");
    FunctionNameIsLastWord("double ", "area", "", ") const override");
  }

  /** "void Rectangle::setDimensions(double w, double h)" names `setDimensions`. */
  lemma FunctionNameScoped()
    ensures ExtractFunctionName("void " + ("Rectangle" + "::" + "setDimensions") + "" + "(" + "double w, double h)")
      == Some("setDimensions")
  {
    FunctionNameAfterScope("void ", "Rectangle", "setDimensions", "", "double w, double h)");
  }

  // ------------------------------------------------------------ templates

  predicate NotIdentChar(c: char) { !IsIdentChar(c) }

  /** The text up to the first character that is no letter, digit or `_`. */
  function IdentifierPrefix(part: string): (name: string)
    ensures |name| <= |part| && name == part[..|name|]
    ensures forall k :: 0 <= k < |name| ==> IsIdentChar(name[k])
    ensures |name| == |part| || !IsIdentChar(part[|name|])
  {
    match FindWhere(part, NotIdentChar)
    case Some(e) => part[..e]
    case None => part
  }

  /** The identifier prefix of `c + rest` is `c` when `rest` does not continue it. */
  lemma IdentifierPrefixOf(c: string, rest: string)
    requires forall k :: 0 <= k < |c| ==> IsIdentChar(c[k])
    requires rest == [] || !IsIdentChar(rest[0])
    ensures IdentifierPrefix(c + rest) == c
  {
    var part := c + rest;
    var name := IdentifierPrefix(part);
    assert forall k :: 0 <= k < |c| ==> part[k] == c[k];
    assert |c| < |part| ==> part[|c|] == rest[0];
    assert |name| == |c|;
    assert name == part[..|c|] == c;
  }

  /** An identifier has no whitespace to trim. */
  lemma TrimIdentifier(name: string)
    requires forall k :: 0 <= k < |name| ==> IsIdentChar(name[k])
    ensures Trim(name) == name
  {
    TrimStartNoLeading(name);
    TrimEndNoTrailing(name);
  }

  /** The identifier at the first letter of `after`, if it has a letter. */
  function IdentifierAtFirstLetter(after: string): (r: Option<string>)
    ensures r.Some? ==> r.value != [] && IsAlphabetic(r.value[0])
    ensures r.Some? ==> forall k :: 0 <= k < |r.value| ==> IsIdentChar(r.value[k])
    ensures r.None? <==> forall k :: 0 <= k < |after| ==> !IsAlphabetic(after[k])
  {
    match FindWhere(after, IsAlphabetic)
    case None => None
    case Some(j) =>
      var name := IdentifierPrefix(after[j..]);
      assert name != [] by {
        assert after[j..][0] == after[j];
      }
      TrimIdentifier(name);
      Some(Trim(name))
  }

  /**
   * `extract_template_name_from_text`: the run of letters, digits and `_`
   * that starts at the first letter after the first `>`.
   */
  function ExtractTemplateName(text: string): (r: Option<string>)
    ensures '>' !in text ==> r.None?
    ensures r.Some? ==> r.value != [] && IsAlphabetic(r.value[0])
    ensures r.Some? ==> forall k :: 0 <= k < |r.value| ==> IsIdentChar(r.value[k])
  {
    match FindChar(text, '>')
    case None => None
    case Some(g) => IdentifierAtFirstLetter(text[g + 1..])
  }

  /** The first `>` of `a + ">" + rest` when `a` has none. */
  lemma FirstAngle(a: string, rest: string)
    requires '>' !in a
    ensures FindChar(a + ">" + rest, '>') == Some(|a|)
    ensures (a + ">" + rest)[|a| + 1..] == rest
  {
    var t := a + ">" + rest;
    assert t[|a|] == '>';
    forall j | 0 <= j < |a|
      ensures t[j] != '>'
    {
      assert t[j] == a[j];
    }
    assert t[|a| + 1..] == rest;
  }

  /**
   * The template name of `a + ">" + (b + c + rest)` is `c` when `a` has no
   * `>`, `b` no letter, `c` is a run of identifier characters starting with
   * a letter and `rest` does not continue it.
   */
  lemma TemplateNameIsFirstIdentifier(a: string, b: string, c: string, rest: string)
    requires '>' !in a
    requires forall k :: 0 <= k < |b| ==> !IsAlphabetic(b[k])
    requires c != [] && IsAlphabetic(c[0]) && forall k :: 0 <= k < |c| ==> IsIdentChar(c[k])
    requires rest == [] || !IsIdentChar(rest[0])
    ensures ExtractTemplateName(a + ">" + (b + c + rest)) == Some(c)
  {
    FirstAngle(a, b + c + rest);
    IdentifierAfterGap(b, c, rest);
  }

  /** After a gap without letters, the identifier found is the run `c` that starts with the first letter. */
  lemma IdentifierAfterGap(b: string, c: string, rest: string)
    requires forall k :: 0 <= k < |b| ==> !IsAlphabetic(b[k])
    requires c != [] && IsAlphabetic(c[0]) && forall k :: 0 <= k < |c| ==> IsIdentChar(c[k])
    requires rest == [] || !IsIdentChar(rest[0])
    ensures IdentifierAtFirstLetter(b + c + rest) == Some(c)
  {
    var after := b + c + rest;
    FirstAlphabetic(b, c, rest);
    assert after[|b|..] == c + rest;
    IdentifierPrefixOf(c, rest);
    TrimIdentifier(c);
  }

  /** The first letter of `b + c + rest` is the first character of `c` when `b` has none. */
  lemma FirstAlphabetic(b: string, c: string, rest: string)
    requires forall k :: 0 <= k < |b| ==> !IsAlphabetic(b[k])
    requires c != [] && IsAlphabetic(c[0])
    ensures FindWhere(b + c + rest, IsAlphabetic) == Some(|b|)
  {
    var t := b + c + rest;
    assert t[|b|] == c[0];
    forall j | 0 <= j < |b|
      ensures !IsAlphabetic(t[j])
    {
      assert t[j] == b[j];
    }
  }

  /** The last word before the first `(` of `after`, trimmed. */
  function LastWordBeforeParen(after: string): (r: Option<string>)
    ensures r.Some? ==> r.value != [] && NoWhitespace(r.value)
  {
    var trimmed := Trim(after);
    match FindChar(trimmed, '(')
    case None => None
    case Some(p) => LastWord(trimmed[..p])
  }

  /**
   * `extract_name_after_template`: the last word before the first `(` of
   * the trimmed text after the first `>`.
   */
  function ExtractNameAfterTemplate(text: string): (r: Option<string>)
    ensures '>' !in text ==> r.None?
    ensures r.Some? ==> r.value != [] && NoWhitespace(r.value)
  {
    match FindChar(text, '>')
    case None => None
    case Some(g) => LastWordBeforeParen(text[g + 1..])
  }

  /** Trimming blanks `s0` and whatever follows the first `(` keeps the text `pre` before it. */
  lemma TrimBeforeParen(s0: string, pre: string, rest: string)
    requires AllWhitespace(s0) && '(' !in pre && (pre == [] || !IsWhitespace(pre[0]))
    ensures FindChar(Trim(s0 + (pre + "(" + rest)), '(') == Some(|pre|)
    ensures Trim(s0 + (pre + "(" + rest))[..|pre|] == pre
  {
    var v := pre + "(" + rest;
    assert Trim(s0 + v) == TrimEnd(v) by {
      TrimStartSkips(s0, v);
      assert v[0] == (if pre == [] then '(' else pre[0]);
      TrimStartNoLeading(v);
    }
    FindCharAfterTrimEnd(pre, '(', rest);
  }

  /** Blanks `s0`, then words `x`, then `w`, then blanks and a `(`: the word before the `(` is `w`. */
  lemma LastWordBeforeParenOf(s0: string, x: string, w: string, y: string, rest: string)
    requires AllWhitespace(s0) && NameShape(x, w, y)
    ensures LastWordBeforeParen(s0 + (x + w + y + "(" + rest)) == Some(w)
  {
    var pre := x + w + y;
    assert pre == [] || !IsWhitespace(pre[0]) by {
      if x == [] { assert pre[0] == w[0]; } else { assert pre[0] == x[0]; }
    }
    TrimBeforeParen(s0, pre, rest);
    LastWordOf(x, w, y);
  }

  /** The last word of `x + w + y` is the word `w` when `x` ends at a blank and `y` is blank. */
  lemma LastWordOf(x: string, w: string, y: string)
    requires x == [] || IsWhitespace(x[|x| - 1])
    requires w != [] && NoWhitespace(w) && AllWhitespace(y)
    ensures LastWord(x + w + y) == Some(w)
  {
    SplitWhitespaceSnoc(x, w, y);
    var words := SplitWhitespace(x) + [w];
    assert words[|words| - 1] == w;
  }

  /** The name after the template parameters of `a + ">" + (s0 + (x + w + y + "(" + rest))` is `w`. */
  lemma NameAfterTemplateIsLastWord(a: string, s0: string, x: string, w: string, y: string, rest: string)
    requires '>' !in a && AllWhitespace(s0)
    requires NameShape(x, w, y)
    ensures ExtractNameAfterTemplate(a + ">" + (s0 + (x + w + y + "(" + rest))) == Some(w)
  {
    FirstAngle(a, s0 + (x + w + y + "(" + rest));
    LastWordBeforeParenOf(s0, x, w, y, rest);
  }

  /**
   * The test `parse_template` uses to tell a function template: after the
   * first `>` there is a `(` and neither `class ` nor `struct `.
   */
  predicate IsFunctionTemplate(text: string)
  {
    match FindChar(text, '>')
    case None => false
    case Some(g) => '(' in text[g..] && !Contains(text[g..], "class ") && !Contains(text[g..], "struct ")
  }

  /** A text that lacks the character `p[j]` does not contain `p`. */
  lemma NoSubstring(s: string, p: string, j: nat)
    requires j < |p| && p[j] !in s
    ensures !Contains(s, p)
  {
    forall i | 0 <= i <= |s| - |p|
      ensures !OccursAt(s, p, i)
    {
      assert s[i..i + |p|][j] == s[i + j] != p[j];
    }
  }

  /** A template whose text after its first `>` has a `(` but no `c` and no `s` is a function template. */
  lemma FunctionTemplateOf(a: string, rest: string)
    requires '>' !in a && '(' in rest && 'c' !in rest && 's' !in rest
    ensures IsFunctionTemplate(a + ">" + rest)
  {
    var text := a + ">" + rest;
    FirstAngle(a, rest);
    var tail := text[|a|..];
    assert tail == ">" + rest;
    NoSubstring(tail, "class ", 0);
    NoSubstring(tail, "struct ", 0);
  }

  /**
   * The name a function template should get: the word before its
   * parameter list, the name `extract_name_after_template` finds.  Other
   * templates keep the name `extract_template_name_from_text` gives.
   */
  function TemplateName(text: string): (r: Option<string>)
    ensures IsFunctionTemplate(text) ==> r == ExtractNameAfterTemplate(text)
    ensures !IsFunctionTemplate(text) ==> r == ExtractTemplateName(text)
  {
    if IsFunctionTemplate(text) then ExtractNameAfterTemplate(text) else ExtractTemplateName(text)
  }

  /**
   * As written, the template `template<typename T> T max(T a, T b)` is
   * named after its return type `T`, not `max`.
   */
  lemma TemplateNameOfMaxAsWritten()
    ensures ExtractTemplateName("template<typename T" + ">" + (" " + "T" + " max(T a, T b)")) == Some("T")
  {
    TemplateNameIsFirstIdentifier("template<typename T", " ", "T", " max(T a, T b)");
  }

  /** No piece of a function template after its `>` has a `c` or an `s`: it is named after the word before `(`. */
  lemma FunctionTemplateNameOf(a: string, s0: string, x: string, w: string, y: string, rest: string)
    requires '>' !in a && AllWhitespace(s0) && NameShape(x, w, y)
    requires forall ch :: ch in "cs" ==> ch !in s0 && ch !in x && ch !in w && ch !in y && ch !in rest
    ensures TemplateName(a + ">" + (s0 + (x + w + y + "(" + rest))) == Some(w)
  {
    var tail := s0 + (x + w + y + "(" + rest);
    assert '(' in tail && 'c' !in tail && 's' !in tail by {
      assert tail == s0 + x + w + y + "(" + rest;
      assert tail[|s0 + x + w + y|] == '(';
    }
    FunctionTemplateOf(a, tail);
    NameAfterTemplateIsLastWord(a, s0, x, w, y, rest);
  }

  /** The corrected name of `template<typename T> T max(T a, T b)` is `max`. */
  lemma TemplateNameOfMax()
    ensures TemplateName("template<typename T" + ">" + (" " + ("T " + "max" + "" + "(" + "T a, T b)"))) == Some("max")
  {
    FunctionTemplateNameOf("template<typename T", " ", "T ", "max", "", "T a, T b)");
  }

  // ------------------------------------------------------------ functions, classes, enums

  /** The name `parse_function` keeps: the declarator's name, else the name found in the signature, else "". */
  function DefinitionName(declaredName: string, signature: string): (name: string)
    ensures declaredName != [] ==> name == declaredName
    ensures declaredName == [] && ExtractFunctionName(signature).Some? ==> name == ExtractFunctionName(signature).value
    ensures declaredName == [] && ExtractFunctionName(signature).None? ==> name == []
  {
    if declaredName == [] && signature != [] then ExtractFunctionName(signature).UnwrapOr([])
    else declaredName
  }

  /**
   * `parse_function` on a definition's text, the identifier its declarator
   * holds (or "") and the documentation of its previous siblings.
   */
  function ParseFunction(text: string, declaredName: string, doc: Option<string>): (f: FunctionUnit)
    ensures f.signature.Some? && '{' !in f.signature.value
    ensures f.body.None? <==> '{' !in text
    ensures f.body.Some? ==> f.body.value != [] && f.body.value[0] == '{'
    ensures (f.visibility == Private) <==> Contains(f.signature.value, "static ")
    ensures f.visibility == Private || f.visibility == Public
    ensures f.name == DefinitionName(declaredName, f.signature.value)
    ensures f.doc == doc && f.source == Some(text) && f.attributes == []
  {
    var split := SplitAtBrace(text);
    var visibility := if Contains(split.signature, "static ") then Private else Public;
    FunctionUnit(DefinitionName(declaredName, split.signature), visibility, doc,
      Some(split.signature), split.body, Some(text), [])
  }

  /** A definition `sig + gap + body` keeps its signature and body as they were written. */
  lemma ParseFunctionOf(sig: string, gap: string, body: string, declaredName: string, doc: Option<string>)
    requires '{' !in sig && (sig == [] || (!IsWhitespace(sig[0]) && !IsWhitespace(sig[|sig| - 1])))
    requires AllWhitespace(gap)
    requires body != [] && body[0] == '{' && !IsWhitespace(body[|body| - 1])
    ensures ParseFunction(sig + gap + body, declaredName, doc).signature == Some(sig)
    ensures ParseFunction(sig + gap + body, declaredName, doc).body == Some(body)
    ensures ParseFunction(sig + gap + body, declaredName, doc).name == DefinitionName(declaredName, sig)
  {
    SplitAtBraceOf(sig, gap, body);
  }

  /** The head `parse_class` and `parse_enum` keep: the trimmed text before the first `{`, or "". */
  function HeadBeforeBrace(text: string): (head: string)
    ensures '{' !in text ==> head == []
    ensures '{' in text ==> head == SplitAtBrace(text).signature
  {
    match FindChar(text, '{')
    case None => []
    case Some(b) => Trim(text[..b])
  }

  /** `parse_class` on a class's text, its name and documentation, and the methods found in its body. */
  function ParseClass(text: string, name: string, doc: Option<string>, methods: seq<FunctionUnit>): (s: StructUnit)
    ensures s.head == HeadBeforeBrace(text)
    ensures (s.visibility == Private) <==> (Contains(s.head, "class") && !Contains(s.head, "public"))
    ensures s.visibility == Private || s.visibility == Public
    ensures s.name == name && s.doc == doc && s.methods == methods && s.source == Some(text)
    ensures s.fields == [] && s.attributes == []
  {
    var head := HeadBeforeBrace(text);
    var visibility := if Contains(head, "class") && !Contains(head, "public") then Private else Public;
    StructUnit(name, head, visibility, doc, Some(text), [], [], methods)
  }

  /** A `struct` head never contains `class` (it has no `l`), so a struct is public. */
  lemma StructIsPublic(text: string, name: string, doc: Option<string>, methods: seq<FunctionUnit>)
    requires 'l' !in HeadBeforeBrace(text)
    ensures ParseClass(text, name, doc, methods).visibility == Public
  {
    NoSubstring(HeadBeforeBrace(text), "class", 1);
  }

  /** `parse_enum`: a public struct with the head before `{` and no methods. */
  function ParseEnum(text: string, name: string, doc: Option<string>): (s: StructUnit)
    ensures s.head == HeadBeforeBrace(text) && s.visibility == Public
    ensures s.name == name && s.doc == doc && s.source == Some(text)
    ensures s.methods == [] && s.fields == [] && s.attributes == []
  {
    StructUnit(name, HeadBeforeBrace(text), Public, doc, Some(text), [], [], [])
  }

  // ------------------------------------------------------------ typedefs

  /** The start of the run of identifier characters that ends just before index `e`. */
  function IdentStart(s: string, e: nat): (start: nat)
    requires e <= |s|
    ensures start <= e
    ensures forall k :: start <= k < e ==> IsIdentChar(s[k])
    ensures start == 0 || !IsIdentChar(s[start - 1])
    decreases e
  {
    if e == 0 || !IsIdentChar(s[e - 1]) then e else IdentStart(s, e - 1)
  }

  /**
   * The name `parse_typedef` gives: the run of letters, digits and `_`
   * that ends at the last letter or digit before the last `;`, or "".
   */
  function TypedefNameOf(content: string): (name: string)
    ensures ';' !in content ==> name == []
    ensures name != [] ==> IsAlphanumeric(name[|name| - 1])
    ensures forall k :: 0 <= k < |name| ==> IsIdentChar(name[k])
  {
    match RFindChar(content, ';')
    case None => []
    case Some(sc) =>
      match RFindWhere(content[..sc], IsAlphanumeric)
      case None => []
      case Some(lw) =>
        var start := IdentStart(content, lw);
        var name := content[start..lw + 1];
        assert name[|name| - 1] == content[lw] == content[..sc][lw];
        name
  }

  /** The name found from the last `;` at `sc` and the last letter or digit before it at `lw`. */
  lemma TypedefNameAt(content: string, sc: nat, lw: nat)
    requires RFindChar(content, ';') == Some(sc)
    requires RFindWhere(content[..sc], IsAlphanumeric) == Some(lw)
    ensures lw < |content| && IdentStart(content, lw) <= lw
    ensures TypedefNameOf(content) == content[IdentStart(content, lw)..lw + 1]
  {
  }

  /** A typedef `a + n + b + ";" + c` is named `n` when nothing after `n` up to the last `;` is a letter or digit. */
  lemma TypedefNameIsLastIdentifier(a: string, n: string, b: string, c: string)
    requires a == [] || !IsIdentChar(a[|a| - 1])
    requires n != [] && IsAlphanumeric(n[|n| - 1])
    requires forall k :: 0 <= k < |n| ==> IsIdentChar(n[k])
    requires forall k :: 0 <= k < |b| ==> !IsAlphanumeric(b[k])
    requires ';' !in c
    ensures TypedefNameOf(a + n + b + ";" + c) == n
  {
    var x := a + n + b;
    var content := x + ";" + c;
    var lw := |a + n| - 1;
    LastSemicolon(x, c);
    LastAlphanumeric(a + n, b);
    assert content[..|a + n|] == a + n by {
      assert content[..|x|] == x;
      assert x[..|a + n|] == a + n;
    }
    assert IdentStart(content, lw) == |a| by {
      IdentStartPrefix(content, |a + n|, lw);
      IdentStartOfName(a, n);
    }
    TypedefNameAt(content, |x|, lw);
    assert content[|a|..lw + 1] == (a + n)[|a|..];
  }

  lemma LastSemicolon(x: string, c: string)
    requires ';' !in c
    ensures RFindChar(x + ";" + c, ';') == Some(|x|)
    ensures (x + ";" + c)[..|x|] == x
  {
    var t := x + ";" + c;
    assert t == x + ([';'] + c);
    assert t[|x|] == ';';
    forall j | |x| < j < |t|
      ensures t[j] != ';'
    {
      assert t[j] == c[j - |x| - 1];
    }
    RFindCharAt(t, ';', |x|);
    assert t[..|x|] == x;
  }

  lemma LastAlphanumeric(p: string, b: string)
    requires p != [] && IsAlphanumeric(p[|p| - 1])
    requires forall k :: 0 <= k < |b| ==> !IsAlphanumeric(b[k])
    ensures RFindWhere(p + b, IsAlphanumeric) == Some(|p| - 1)
  {
    var t := p + b;
    assert t[|p| - 1] == p[|p| - 1];
    forall j | |p| - 1 < j < |t|
      ensures !IsAlphanumeric(t[j])
    {
      assert t[j] == b[j - |p|];
    }
    RFindWhereAt(t, IsAlphanumeric, |p| - 1);
  }

  /** The identifier run ending before `e` depends only on the text before `e`. */
  lemma {:induction false} IdentStartPrefix(s: string, m: nat, e: nat)
    requires e <= m <= |s|
    ensures IdentStart(s, e) == IdentStart(s[..m], e)
    decreases e
  {
    if e > 0 {
      assert s[..m][e - 1] == s[e - 1];
      IdentStartPrefix(s, m, e - 1);
    }
  }

  /** In `a + n`, the run ending at the last character of the identifier `n` starts at `n`. */
  lemma IdentStartOfName(a: string, n: string)
    requires a == [] || !IsIdentChar(a[|a| - 1])
    requires n != [] && forall k :: 0 <= k < |n| ==> IsIdentChar(n[k])
    ensures IdentStart(a + n, |a + n| - 1) == |a|
  {
    var t := a + n;
    forall k | |a| <= k < |t| - 1
      ensures IsIdentChar(t[k])
    {
      assert t[k] == n[k - |a|];
    }
    assert |a| > 0 ==> t[|a| - 1] == a[|a| - 1];
    IdentStartOfRun(t, |a|, |t| - 1);
  }

  /** The identifier run ending before `e` starts at `i` when `[i, e)` is identifier characters and `i` is a boundary. */
  lemma {:induction false} IdentStartOfRun(s: string, i: nat, e: nat)
    requires i <= e <= |s|
    requires forall k :: i <= k < e ==> IsIdentChar(s[k])
    requires i == 0 || !IsIdentChar(s[i - 1])
    ensures IdentStart(s, e) == i
    decreases e
  {
    if e > i {
      IdentStartOfRun(s, i, e - 1);
    }
  }

  /** `typedef struct { int x; } Point;` is named `Point`. */
  lemma TypedefNameOfPoint()
    ensures TypedefNameOf("typedef struct { int x; } " + "Point" + "" + ";" + "") == "Point"
  {
    TypedefNameIsLastIdentifier("typedef struct { int x; } ", "Point", "", "");
  }

  /**
   * `parse_typedef`: the whole text is the head, and the name is found by
   * walking left from the last letter or digit before the last `;`.
   */
  method ParseTypedef(content: string, doc: Option<string>) returns (s: StructUnit)
    ensures s == StructUnit(TypedefNameOf(content), content, Public, doc, Some(content), [], [], [])
  {
    var name := [];
    var semicolon := RFindChar(content, ';');
    if semicolon.Some? {
      var before := content[..semicolon.value];
      var lastWord := RFindWhere(before, IsAlphanumeric);
      if lastWord.Some? {
        var lw := lastWord.value;
        var start: nat := lw;
        while start > 0 && IsIdentChar(content[start - 1])
          invariant start <= lw
          invariant IdentStart(content, start) == IdentStart(content, lw)
          decreases start
        {
          start := start - 1;
        }
        assert start == IdentStart(content, lw) by {
          assert IdentStart(content, start) == start;
        }
        name := content[start..lw + 1];
      }
    }
    assert name == TypedefNameOf(content);
    s := StructUnit(name, content, Public, doc, Some(content), [], [], []);
  }

  // ------------------------------------------------------------ declarations

  /**
   * `try_extract_method_declaration`: a declaration in a class body is a
   * method when its text has both parentheses and a name can be found.
   */
  function MethodDeclaration(text: string, declaredName: string, doc: Option<string>): (r: Option<FunctionUnit>)
    ensures r.Some? ==> '(' in text && ')' in text
    ensures r.Some? ==> r.value.name != [] && r.value.visibility == Public && r.value.doc == doc
    ensures r.Some? ==> r.value.signature == Some(text) && r.value.source == Some(text) && r.value.body.None?
    ensures declaredName != [] ==> (r.Some? <==> ('(' in text && ')' in text))
    ensures declaredName != [] && r.Some? ==> r.value.name == declaredName
    ensures declaredName == [] && ExtractFunctionName(text).None? ==> r.None?
    ensures declaredName == [] && ('(' in text && ')' in text) && ExtractFunctionName(text) == Some([]) ==> r.None?
    ensures declaredName == [] && r.Some? ==> Some(r.value.name) == ExtractFunctionName(text)
  {
    if '(' in text && ')' in text then
      var name := if declaredName == [] then ExtractFunctionName(text).UnwrapOr([]) else declaredName;
      if name != [] then Some(FunctionUnit(name, Public, doc, Some(text), None, Some(text), [])) else None
    else None
  }

  /**
   * The declaration `parse_file` records for a top-level node: an include
   * is an import, a macro definition a `define`, and a declaration with a
   * `(` that ends with `;` a `function_declaration`; nothing else.
   */
  function TopLevelDeclare(node: Sibling): (r: Option<DeclareStatements>)
    ensures r.Some? ==> r.value.source == node.text
    ensures (r.Some? && r.value.kind == Import) <==> node.kind == "preproc_include"
    ensures (r.Some? && r.value.kind == Other("define")) <==> (node.kind == "preproc_def" || node.kind == "preproc_function_def")
    ensures (r.Some? && r.value.kind == Other("function_declaration")) <==>
            (node.kind == "declaration" && '(' in node.text && EndsWith(node.text, ";"))
    ensures r.Some? ==> r.value.kind in {Import, Other("define"), Other("function_declaration")}
  {
    if node.kind == "preproc_include" then Some(DeclareStatements(node.text, Import))
    else if node.kind == "preproc_def" || node.kind == "preproc_function_def" then
      Some(DeclareStatements(node.text, Other("define")))
    else if node.kind == "declaration" && '(' in node.text && EndsWith(node.text, ";") then
      Some(DeclareStatements(node.text, Other("function_declaration")))
    else None
  }

  /** The declarations of `nodes`, in order. */
  function TopLevelDeclares(nodes: seq<Sibling>): (r: seq<DeclareStatements>)
    ensures |r| <= |nodes|
  {
    if nodes == [] then []
    else
      var last := nodes[|nodes| - 1];
      TopLevelDeclares(nodes[..|nodes| - 1]) +
        (match TopLevelDeclare(last) case Some(d) => [d] case None => [])
  }

  /** Every declaration recorded comes from a node, and every node that is one is recorded. */
  lemma {:induction false} TopLevelDeclaresExact(nodes: seq<Sibling>, d: DeclareStatements)
    ensures (d in TopLevelDeclares(nodes)) <==> SomeDeclares(nodes, d)
    decreases |nodes|
  {
    if nodes != [] {
      TopLevelDeclaresExact(nodes[..|nodes| - 1], d);
      TopLevelDeclaresLast(nodes, d);
      SomeDeclaresSplit(nodes, d);
    }
  }

  /** Some node of `nodes` declares `d`. */
  predicate SomeDeclares(nodes: seq<Sibling>, d: DeclareStatements)
  {
    exists i :: 0 <= i < |nodes| && TopLevelDeclare(nodes[i]) == Some(d)
  }

  /** The last node adds its declaration, if any, after the others. */
  lemma TopLevelDeclaresLast(nodes: seq<Sibling>, d: DeclareStatements)
    requires nodes != []
    ensures d in TopLevelDeclares(nodes) <==>
            d in TopLevelDeclares(nodes[..|nodes| - 1]) || TopLevelDeclare(nodes[|nodes| - 1]) == Some(d)
  {
  }

  /** A node declaring `d` is among the front ones or is the last. */
  lemma SomeDeclaresSplit(nodes: seq<Sibling>, d: DeclareStatements)
    requires nodes != []
    ensures SomeDeclares(nodes, d) <==> SomeDeclares(nodes[..|nodes| - 1], d) || TopLevelDeclare(nodes[|nodes| - 1]) == Some(d)
  {
    var front := nodes[..|nodes| - 1];
    if SomeDeclares(nodes, d) {
      var i :| 0 <= i < |nodes| && TopLevelDeclare(nodes[i]) == Some(d);
      if i < |front| {
        assert front[i] == nodes[i];
      }
    }
    if SomeDeclares(front, d) {
      var i :| 0 <= i < |front| && TopLevelDeclare(front[i]) == Some(d);
      assert nodes[i] == front[i];
    }
  }

  /** The declaration pass of `parse_file` over the top-level children of a file. */
  method CollectDeclares(nodes: seq<Sibling>) returns (declares: seq<DeclareStatements>)
    ensures declares == TopLevelDeclares(nodes)
  {
    declares := TopLevelDeclares([]);
    var i := 0;
    while i < |nodes|
      invariant i <= |nodes|
      invariant declares == TopLevelDeclares(nodes[..i])
    {
      SeqTakeStep(nodes, i);
      match TopLevelDeclare(nodes[i]) {
        case Some(d) => declares := declares + [d];
        case None =>
      }
      i := i + 1;
    }
    SeqTakeAll(nodes);
  }
}
