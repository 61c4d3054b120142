/**
 * The Rust `str` operations that the codebank parsers and formatters use.
 * Each is stated over `string` (= `seq<char>`), and character classes are ASCII.
 * Every function states what its result means, so the models that use it can
 * reason about their output.
 */
module Strings {
  import opened Wrappers

  // ---------------------------------------------------------------- classes

  /** `char::is_whitespace` on ASCII: the space and U+0009 through U+000D. */
  predicate IsWhitespace(c: char) { c == ' ' || ('\t' <= c <= '\r') }

  predicate IsUpper(c: char) { 'A' <= c <= 'Z' }

  predicate IsLower(c: char) { 'a' <= c <= 'z' }

  predicate IsAlphabetic(c: char) { IsUpper(c) || IsLower(c) }

  predicate IsNumeric(c: char) { '0' <= c <= '9' }

  predicate IsAlphanumeric(c: char) { IsAlphabetic(c) || IsNumeric(c) }

  /** A character that may continue a C identifier. */
  predicate IsIdentChar(c: char) { IsAlphanumeric(c) || c == '_' }

  predicate AllWhitespace(s: string) { forall k :: 0 <= k < |s| ==> IsWhitespace(s[k]) }

  predicate NoWhitespace(s: string) { forall k :: 0 <= k < |s| ==> !IsWhitespace(s[k]) }

  /** Neither end of `s` is whitespace. */
  predicate Trimmed(s: string) { s == [] || (!IsWhitespace(s[0]) && !IsWhitespace(s[|s| - 1])) }

  // ---------------------------------------------------------- substrings

  /** `s.starts_with(p)`. */
  predicate StartsWith(s: string, p: string) { |p| <= |s| && s[..|p|] == p }

  /** `s.ends_with(p)`. */
  predicate EndsWith(s: string, p: string) { |p| <= |s| && s[|s| - |p|..] == p }

  /** `p` occurs in `s` at index `i`. */
  predicate OccursAt(s: string, p: string, i: int)
  {
    0 <= i && i + |p| <= |s| && s[i..i + |p|] == p
  }

  /** `s.contains(p)`. */
  predicate Contains(s: string, p: string)
  {
    exists i | 0 <= i <= |s| - |p| :: OccursAt(s, p, i)
  }

  lemma OccursAtChar(s: string, c: char, i: int)
    ensures OccursAt(s, [c], i) <==> 0 <= i < |s| && s[i] == c
  {
    if 0 <= i < |s| {
      assert s[i..i + 1] == [s[i]];
    }
  }

  lemma ContainsChar(s: string, c: char)
    ensures Contains(s, [c]) <==> c in s
  {
    if c in s {
      var i :| 0 <= i < |s| && s[i] == c;
      OccursAtChar(s, c, i);
    }
    if Contains(s, [c]) {
      var i :| 0 <= i <= |s| - 1 && OccursAt(s, [c], i);
      OccursAtChar(s, c, i);
    }
  }

  /** The first occurrence of `p` in `s` at or after index `i`. */
  function FindFrom(s: string, p: string, i: nat): (r: Option<nat>)
    requires i <= |s|
    ensures r.Some? ==> i <= r.value && OccursAt(s, p, r.value)
    ensures r.Some? ==> forall j :: i <= j < r.value ==> !OccursAt(s, p, j)
    ensures r.None? ==> forall j :: i <= j ==> !OccursAt(s, p, j)
    decreases |s| - i
  {
    if OccursAt(s, p, i) then Some(i)
    else if i == |s| then None
    else FindFrom(s, p, i + 1)
  }

  /** `s.find(p)` for a string pattern: the first index at which `p` occurs. */
  function Find(s: string, p: string): (r: Option<nat>)
    ensures r.Some? <==> Contains(s, p)
    ensures r.Some? ==> OccursAt(s, p, r.value)
    ensures r.Some? ==> forall j :: 0 <= j < r.value ==> !OccursAt(s, p, j)
  {
    FindFrom(s, p, 0)
  }

  /** The last occurrence of `p` in `s` at or before index `k`. */
  function RFindUpTo(s: string, p: string, k: nat): (r: Option<nat>)
    requires k <= |s|
    ensures r.Some? ==> r.value <= k && OccursAt(s, p, r.value)
    ensures r.Some? ==> forall j :: r.value < j <= k ==> !OccursAt(s, p, j)
    ensures r.None? ==> forall j :: 0 <= j <= k ==> !OccursAt(s, p, j)
    decreases k
  {
    if OccursAt(s, p, k) then Some(k)
    else if k == 0 then None
    else RFindUpTo(s, p, k - 1)
  }

  /** `s.rfind(p)` for a string pattern: the last index at which `p` occurs. */
  function RFind(s: string, p: string): (r: Option<nat>)
    ensures r.Some? <==> Contains(s, p)
    ensures r.Some? ==> OccursAt(s, p, r.value)
    ensures r.Some? ==> forall j :: r.value < j ==> !OccursAt(s, p, j)
  {
    RFindUpTo(s, p, |s|)
  }

  /** `s.find(c)` for a character pattern. */
  function FindChar(s: string, c: char): (r: Option<nat>)
    ensures r.Some? ==> r.value < |s| && s[r.value] == c
    ensures r.Some? ==> forall j :: 0 <= j < r.value ==> s[j] != c
    ensures r.None? <==> c !in s
  {
    if s == [] then None
    else if s[0] == c then Some(0)
    else match FindChar(s[1..], c)
      case None => None
      case Some(j) => Some(j + 1)
  }

  /** `s.rfind(c)` for a character pattern. */
  function RFindChar(s: string, c: char): (r: Option<nat>)
    ensures r.Some? ==> r.value < |s| && s[r.value] == c
    ensures r.Some? ==> forall j :: r.value < j < |s| ==> s[j] != c
    ensures r.None? <==> c !in s
  {
    if s == [] then None
    else if s[|s| - 1] == c then Some(|s| - 1)
    else RFindChar(s[..|s| - 1], c)
  }

  /** `s.find(P)` for a character predicate. */
  function FindWhere(s: string, P: char -> bool): (r: Option<nat>)
    ensures r.Some? ==> r.value < |s| && P(s[r.value])
    ensures r.Some? ==> forall j :: 0 <= j < r.value ==> !P(s[j])
    ensures r.None? ==> forall j :: 0 <= j < |s| ==> !P(s[j])
  {
    if s == [] then None
    else if P(s[0]) then Some(0)
    else match FindWhere(s[1..], P)
      case None => None
      case Some(j) => Some(j + 1)
  }

  /** `s.rfind(P)` for a character predicate. */
  function RFindWhere(s: string, P: char -> bool): (r: Option<nat>)
    ensures r.Some? ==> r.value < |s| && P(s[r.value])
    ensures r.Some? ==> forall j :: r.value < j < |s| ==> !P(s[j])
    ensures r.None? ==> forall j :: 0 <= j < |s| ==> !P(s[j])
  {
    if s == [] then None
    else if P(s[|s| - 1]) then Some(|s| - 1)
    else RFindWhere(s[..|s| - 1], P)
  }

  // ---------------------------------------------------------------- trim

  /** The first `c` of `s` is at `i` when `s[i]` is `c` and no earlier character is. */
  lemma FindCharAt(s: string, c: char, i: nat)
    requires i < |s| && s[i] == c
    requires forall j :: 0 <= j < i ==> s[j] != c
    ensures FindChar(s, c) == Some(i)
  {
  }

  /** The last `c` of `s` is at `i` when `s[i]` is `c` and no later character is. */
  lemma RFindCharAt(s: string, c: char, i: nat)
    requires i < |s| && s[i] == c
    requires forall j :: i < j < |s| ==> s[j] != c
    ensures RFindChar(s, c) == Some(i)
  {
  }

  /** The last character of `s` with property `P` is at `i` when no later one has it. */
  lemma RFindWhereAt(s: string, P: char -> bool, i: nat)
    requires i < |s| && P(s[i])
    requires forall j :: i < j < |s| ==> !P(s[j])
    ensures RFindWhere(s, P) == Some(i)
  {
  }

  /** `s.trim_start()`. */
  function TrimStart(s: string): (r: string)
    ensures |r| <= |s| && r == s[|s| - |r|..]
    ensures forall k :: 0 <= k < |s| - |r| ==> IsWhitespace(s[k])
    ensures r == [] || !IsWhitespace(r[0])
    decreases |s|
  {
    if s != [] && IsWhitespace(s[0]) then TrimStart(s[1..]) else s
  }

  /** `s.trim_end()`. */
  function TrimEnd(s: string): (r: string)
    ensures |r| <= |s| && r == s[..|r|]
    ensures forall k :: |r| <= k < |s| ==> IsWhitespace(s[k])
    ensures r == [] || !IsWhitespace(r[|r| - 1])
    decreases |s|
  {
    if s != [] && IsWhitespace(s[|s| - 1]) then TrimEnd(s[..|s| - 1]) else s
  }

  /** `s.trim()`: the text between the leading and the trailing whitespace. */
  function Trim(s: string): (r: string)
    ensures |r| <= |s|
    ensures r == [] || (!IsWhitespace(r[0]) && !IsWhitespace(r[|r| - 1]))
  {
    TrimEnd(TrimStart(s))
  }

  lemma TrimStartNoLeading(s: string)
    requires s == [] || !IsWhitespace(s[0])
    ensures TrimStart(s) == s
  {
  }

  /** Trimming the start keeps a last character that is no whitespace. */
  lemma {:induction false} TrimStartKeepsLast(s: string)
    requires s != [] && !IsWhitespace(s[|s| - 1])
    ensures TrimStart(s) != [] && TrimStart(s)[|TrimStart(s)| - 1] == s[|s| - 1]
    decreases |s|
  {
    if IsWhitespace(s[0]) {
      assert s[1..][|s| - 2] == s[|s| - 1];
      TrimStartKeepsLast(s[1..]);
    }
  }

  lemma TrimEndNoTrailing(s: string)
    requires s == [] || !IsWhitespace(s[|s| - 1])
    ensures TrimEnd(s) == s
  {
  }

  /** Whitespace in front of a string does not survive `trim_start`. */
  lemma {:induction false} TrimStartSkips(w: string, s: string)
    requires AllWhitespace(w)
    ensures TrimStart(w + s) == TrimStart(s)
    decreases |w|
  {
    if w != [] {
      assert (w + s)[1..] == w[1..] + s;
      TrimStartSkips(w[1..], s);
    } else {
      assert w + s == s;
    }
  }

  /** Whitespace behind a string does not survive `trim_end`. */
  lemma {:induction false} TrimEndSkips(s: string, w: string)
    requires AllWhitespace(w)
    ensures TrimEnd(s + w) == TrimEnd(s)
    decreases |w|
  {
    if w != [] {
      assert (s + w)[..|s + w| - 1] == s + w[..|w| - 1];
      TrimEndSkips(s, w[..|w| - 1]);
    } else {
      assert s + w == s;
    }
  }

  /** Trimming is idempotent. */
  lemma TrimIdempotent(s: string)
    ensures Trim(Trim(s)) == Trim(s)
  {
    var r := Trim(s);
    TrimStartNoLeading(r);
    TrimEndNoTrailing(r);
  }

  // -------------------------------------------------- repeated patterns

  /** `s.trim_start_matches(p)`: removes every leading copy of `p`. */
  function TrimStartMatches(s: string, p: string): (r: string)
    ensures |r| <= |s| && r == s[|s| - |r|..]
    ensures p != [] ==> !StartsWith(r, p)
    ensures p == [] || !StartsWith(s, p) ==> r == s
    decreases |s|
  {
    if p != [] && StartsWith(s, p) then TrimStartMatches(s[|p|..], p) else s
  }

  /** `s.trim_end_matches(p)`: removes every trailing copy of `p`. */
  function TrimEndMatches(s: string, p: string): (r: string)
    ensures |r| <= |s| && r == s[..|r|]
    ensures p != [] ==> !EndsWith(r, p)
    ensures p == [] || !EndsWith(s, p) ==> r == s
    decreases |s|
  {
    if p != [] && EndsWith(s, p) then TrimEndMatches(s[..|s| - |p|], p) else s
  }

  /** `s.trim_matches(c)` for a character: removes the character from both ends. */
  function TrimMatchesChar(s: string, c: char): (r: string)
    ensures r == [] || (r[0] != c && r[|r| - 1] != c)
  {
    var t := TrimStartMatches(s, [c]);
    var r := TrimEndMatches(t, [c]);
    CharTrimmedEnds(t, r, c);
    r
  }

  lemma CharTrimmedEnds(t: string, r: string, c: char)
    requires !StartsWith(t, [c]) && !EndsWith(r, [c]) && |r| <= |t| && r == t[..|r|]
    ensures r == [] || (r[0] != c && r[|r| - 1] != c)
  {
    if r != [] {
      assert t[..1] == [t[0]];
      assert r[0] == t[0];
      assert r[|r| - 1..] == [r[|r| - 1]];
    }
  }

  lemma {:induction false} TrimStartMatchesPrefix(p: string, s: string)
    requires p != []
    ensures TrimStartMatches(p + s, p) == TrimStartMatches(s, p)
  {
    assert (p + s)[..|p|] == p;
    assert (p + s)[|p|..] == s;
  }

  lemma {:induction false} TrimEndMatchesSuffix(s: string, p: string)
    requires p != []
    ensures TrimEndMatches(s + p, p) == TrimEndMatches(s, p)
  {
    assert (s + p)[|s + p| - |p|..] == p;
    assert (s + p)[..|s + p| - |p|] == s;
  }

  // --------------------------------------------------------------- lines

  /** Drops one `\r` in front of a line's `\n`. */
  function StripCr(l: string): string
  {
    if l != [] && l[|l| - 1] == '\r' then l[..|l| - 1] else l
  }

  /**
   * `s.lines()`: splits at `\n`, drops a `\r` just before a `\n`, and yields
   * no final empty line when `s` ends with `\n`.
   */
  function Lines(s: string): (r: seq<string>)
    ensures forall k :: 0 <= k < |r| ==> '\n' !in r[k]
    ensures r == [] <==> s == []
    decreases |s|
  {
    if s == [] then []
    else match FindChar(s, '\n')
      case None => [s]
      case Some(i) => [StripCr(s[..i])] + Lines(s[i + 1..])
  }

  /** `parts.join(sep)`. */
  function Join(parts: seq<string>, sep: string): string
  {
    if |parts| == 0 then []
    else if |parts| == 1 then parts[0]
    else parts[0] + sep + Join(parts[1..], sep)
  }

  /** A single line is its own only line. */
  lemma LinesOfLine(s: string)
    requires s != [] && '\n' !in s
    ensures Lines(s) == [s]
  {
  }

  lemma NoCharInSlice(s: string, c: char, i: nat, j: nat)
    requires c !in s && i <= j <= |s|
    ensures c !in s[i..j]
  {
  }

  lemma EndsWithChar(s: string, c: char)
    ensures EndsWith(s, [c]) <==> s != [] && s[|s| - 1] == c
  {
    if s != [] { assert s[|s| - 1..] == [s[|s| - 1]]; }
  }

  lemma NoNewlineEnd(s: string)
    requires '\n' !in s
    ensures !EndsWith(s, "\n")
  {
    if s != [] { assert s[|s| - 1..] == [s[|s| - 1]]; }
  }

  /**
   * Without carriage returns, joining the lines with `\n` gives the text back,
   * minus one final `\n`.
   */
  lemma {:induction false} JoinLines(s: string)
    requires '\r' !in s
    ensures Join(Lines(s), "\n") == if EndsWith(s, "\n") then s[..|s| - 1] else s
    decreases |s|, 2
  {
    if s != [] {
      match FindChar(s, '\n')
      case None =>
        NoNewlineEnd(s);
      case Some(i) =>
        JoinLinesAt(s, i);
    }
  }

  lemma JoinCons(x: string, rest: seq<string>, sep: string)
    requires rest != []
    ensures Join([x] + rest, sep) == x + sep + Join(rest, sep)
  {
    assert ([x] + rest)[0] == x && ([x] + rest)[1..] == rest;
  }

  lemma {:induction false} JoinLinesAt(s: string, i: nat)
    requires '\r' !in s
    requires i < |s| && s[i] == '\n' && FindChar(s, '\n') == Some(i)
    ensures Join(Lines(s), "\n") == if EndsWith(s, "\n") then s[..|s| - 1] else s
    decreases |s|, 1
  {
    var head := s[..i];
    var tail := s[i + 1..];
    assert StripCr(head) == head by {
      NoCharInSlice(s, '\r', 0, i);
      if head != [] { assert head[i - 1] in head; }
    }
    assert Lines(s) == [head] + Lines(tail);
    assert s == head + "\n" + tail by { SplitAround(s, i); }
    assert '\r' !in tail by { NoCharInSlice(s, '\r', i + 1, |s|); }
    if tail == [] {
      assert s[..|s| - 1] == head;
    } else {
      JoinLinesTail(head, tail);
      NewlineJoin(head, tail);
    }
  }

  lemma SplitAround(s: string, i: nat)
    requires i < |s|
    ensures s == s[..i] + [s[i]] + s[i + 1..]
  {
  }

  /** Joining with a non-empty tail: the whole ends with a newline just when the tail does. */
  lemma NewlineJoin(head: string, tail: string)
    requires tail != []
    ensures EndsWith(head + "\n" + tail, "\n") <==> EndsWith(tail, "\n")
    ensures EndsWith(tail, "\n") ==> (head + "\n" + tail)[..|head| + |tail|] == head + "\n" + tail[..|tail| - 1]
  {
    var s := head + "\n" + tail;
    EndsWithChar(s, '\n');
    EndsWithChar(tail, '\n');
    assert s[|s| - 1] == tail[|tail| - 1];
    if EndsWith(tail, "\n") {
      assert s[..|head| + |tail|] == head + "\n" + tail[..|tail| - 1];
    }
  }

  lemma {:induction false} JoinLinesTail(head: string, tail: string)
    requires '\r' !in tail && tail != []
    ensures Join([head] + Lines(tail), "\n")
         == head + "\n" + if EndsWith(tail, "\n") then tail[..|tail| - 1] else tail
    decreases |tail| + 1, 0
  {
    JoinCons(head, Lines(tail), "\n");
    JoinLines(tail);
  }

  /** `s.split(c)`: the pieces between occurrences of `c`. */
  function SplitChar(s: string, c: char): (r: seq<string>)
    ensures |r| >= 1
    ensures forall k :: 0 <= k < |r| ==> c !in r[k]
    decreases |s|
  {
    match FindChar(s, c)
    case None => [s]
    case Some(i) => [s[..i]] + SplitChar(s[i + 1..], c)
  }

  /** Splitting at `c` and joining with `c` gives the text back. */
  lemma {:induction false} JoinSplitChar(s: string, c: char)
    ensures Join(SplitChar(s, c), [c]) == s
    decreases |s|
  {
    match FindChar(s, c)
    case None =>
    case Some(i) =>
      var rest := SplitChar(s[i + 1..], c);
      var parts := [s[..i]] + rest;
      assert parts[0] == s[..i] && parts[1..] == rest;
      assert Join(parts, [c]) == s[..i] + [c] + Join(rest, [c]);
      JoinSplitChar(s[i + 1..], c);
      assert s == s[..i] + [c] + s[i + 1..];
  }

  /** The length of the run of non-whitespace characters that ends `s`. */
  function TrailingWordLength(s: string): (n: nat)
    ensures n <= |s| && NoWhitespace(s[|s| - n..])
    ensures n < |s| ==> IsWhitespace(s[|s| - n - 1])
    decreases |s|
  {
    if s == [] || IsWhitespace(s[|s| - 1]) then 0
    else
      var m := TrailingWordLength(s[..|s| - 1]);
      TrailingWordStep(s, m);
      1 + m
  }

  /** The run ending before the last character grows by that character when it is no whitespace. */
  lemma TrailingWordStep(s: string, m: nat)
    requires s != [] && !IsWhitespace(s[|s| - 1]) && m <= |s| - 1
    requires NoWhitespace(s[..|s| - 1][|s| - 1 - m..])
    requires m < |s| - 1 ==> IsWhitespace(s[..|s| - 1][|s| - 1 - m - 1])
    ensures NoWhitespace(s[|s| - (m + 1)..])
    ensures m + 1 < |s| ==> IsWhitespace(s[|s| - (m + 1) - 1])
  {
    var p := s[..|s| - 1];
    var w := s[|s| - (m + 1)..];
    var v := p[|s| - 1 - m..];
    forall k | 0 <= k < |w|
      ensures !IsWhitespace(w[k])
    {
      if k < m {
        assert w[k] == v[k];
      }
    }
    if m + 1 < |s| {
      assert p[|s| - 1 - m - 1] == s[|s| - (m + 1) - 1];
    }
  }

  /**
   * `s.split_whitespace()`: the maximal runs of non-whitespace characters in
   * order.  It is stated from the end, so that the last word is the last run.
   */
  function SplitWhitespace(s: string): (r: seq<string>)
    ensures forall k :: 0 <= k < |r| ==> r[k] != [] && NoWhitespace(r[k])
    decreases |s|
  {
    var t := TrimEnd(s);
    if t == [] then []
    else
      var n := TrailingWordLength(t);
      SplitWhitespace(t[..|t| - n]) + [t[|t| - n..]]
  }

  // -------------------------------------------------------- indentation

  /** `s.replace("\n", "\n    ")`: indents every line after the first by four spaces. */
  function IndentNewlines(s: string): (r: string)
    ensures '\n' !in s ==> r == s
    decreases |s|
  {
    if s == [] then []
    else (if s[0] == '\n' then "\n    " else [s[0]]) + IndentNewlines(s[1..])
  }

  /** Removes the four spaces after each `\n` that `IndentNewlines` inserted. */
  function Dedent(s: string): string
    decreases |s|
  {
    if s == [] then []
    else if StartsWith(s, "\n    ") then "\n" + Dedent(s[5..])
    else [s[0]] + Dedent(s[1..])
  }

  /** `Dedent` undoes `IndentNewlines`: the nesting of a block loses nothing. */
  lemma {:induction false} DedentIndent(s: string)
    ensures Dedent(IndentNewlines(s)) == s
    decreases |s|
  {
    if s != [] {
      var t := IndentNewlines(s[1..]);
      DedentIndent(s[1..]);
      if s[0] == '\n' {
        var u := "\n    " + t;
        assert u[..5] == "\n    " && u[5..] == t;
      } else {
        var u := [s[0]] + t;
        assert u[1..] == t;
        assert !StartsWith(u, "\n    ") by {
          if |u| >= 5 { assert u[..5][0] == u[0] == s[0]; }
        }
      }
    }
  }

  lemma {:induction false} IndentNewlinesAppend(a: string, b: string)
    ensures IndentNewlines(a + b) == IndentNewlines(a) + IndentNewlines(b)
    decreases |a|
  {
    if a != [] {
      var h := if a[0] == '\n' then "\n    " else [a[0]];
      assert (a + b)[0] == a[0] && (a + b)[1..] == a[1..] + b;
      assert IndentNewlines(a + b) == h + IndentNewlines(a[1..] + b);
      assert IndentNewlines(a) == h + IndentNewlines(a[1..]);
      IndentNewlinesAppend(a[1..], b);
      AppendAssoc(h, IndentNewlines(a[1..]), IndentNewlines(b));
    } else {
      assert a + b == b;
    }
  }

  // ------------------------------------------------------ concatenation

  /** The concatenation of `f(x)` over `s`, in order: what a `push_str` loop builds. */
  function ConcatMap<T>(s: seq<T>, f: T -> string): string
  {
    if s == [] then [] else ConcatMap(s[..|s| - 1], f) + f(s[|s| - 1])
  }

  /** One more loop step: what the loop invariant of each `push_str` loop needs. */
  lemma ConcatMapSnoc<T>(s: seq<T>, i: nat, f: T -> string)
    requires i < |s|
    ensures ConcatMap(s[..i + 1], f) == ConcatMap(s[..i], f) + f(s[i])
  {
    assert s[..i + 1][..i] == s[..i];
  }

  /** The same step behind an output built so far, as a loop that appends to `prefix` needs it. */
  lemma ConcatMapStep<T>(prefix: string, s: seq<T>, i: nat, f: T -> string)
    requires i < |s|
    ensures prefix + ConcatMap(s[..i + 1], f) == prefix + ConcatMap(s[..i], f) + f(s[i])
  {
    ConcatMapSnoc(s, i, f);
    AppendAssoc(prefix, ConcatMap(s[..i], f), f(s[i]));
  }

  /** One more loop step, told the piece the loop appends. */
  lemma ConcatMapPush<T>(prefix: string, s: seq<T>, i: nat, f: T -> string, out: string, piece: string)
    requires i < |s| && out == prefix + ConcatMap(s[..i], f) && piece == f(s[i])
    ensures out + piece == prefix + ConcatMap(s[..i + 1], f)
  {
    ConcatMapStep(prefix, s, i, f);
  }

  lemma AppendAssoc(a: string, b: string, c: string)
    ensures a + (b + c) == a + b + c
  {
  }

  /** Taking every element of a sequence gives the sequence. */
  lemma SeqTakeAll<T>(s: seq<T>)
    ensures s[..|s|] == s
  {
  }

  /** One element more taken from a sequence: the shorter prefix, then that element. */
  lemma SeqTakeStep<T>(s: seq<T>, i: nat)
    requires i < |s|
    ensures s[..i + 1][..i] == s[..i] && s[..i + 1][i] == s[i]
  {
  }

  /** A non-empty sequence is its front followed by its last element. */
  lemma SeqSnoc<T>(s: seq<T>)
    requires s != []
    ensures s == s[..|s| - 1] + [s[|s| - 1]]
  {
  }

  /** Concatenation of sequences of any kind is associative. */
  lemma SeqAppendAssoc<T>(a: seq<T>, b: seq<T>, c: seq<T>)
    ensures a + (b + c) == a + b + c
  {
  }

  lemma {:induction false} ConcatMapAppend<T>(a: seq<T>, b: seq<T>, f: T -> string)
    ensures ConcatMap(a + b, f) == ConcatMap(a, f) + ConcatMap(b, f)
    decreases |b|
  {
    if b == [] {
      assert a + b == a;
    } else {
      assert (a + b)[..|a + b| - 1] == a + b[..|b| - 1];
      ConcatMapAppend(a, b[..|b| - 1], f);
    }
  }

  /** The elements of `s` that satisfy `keep`, in order: what `iter().filter().collect()` builds. */
  function Filter<T>(s: seq<T>, keep: T -> bool): (r: seq<T>)
    ensures |r| <= |s|
    ensures forall k :: 0 <= k < |r| ==> keep(r[k]) && r[k] in s
    ensures forall x :: x in s && keep(x) ==> x in r
  {
    if s == [] then []
    else Filter(s[..|s| - 1], keep) + (if keep(s[|s| - 1]) then [s[|s| - 1]] else [])
  }

  /** One more step of a filtering loop. */
  lemma FilterSnoc<T>(s: seq<T>, i: nat, keep: T -> bool)
    requires i < |s|
    ensures Filter(s[..i + 1], keep) == Filter(s[..i], keep) + (if keep(s[i]) then [s[i]] else [])
  {
    assert s[..i + 1][..i] == s[..i];
  }

  /**
   * Skipping the elements that fail `keep` inside the loop is the same as
   * looping over the filtered list.
   */
  lemma {:induction false} ConcatMapFilter<T>(s: seq<T>, keep: T -> bool, g: T -> string, h: T -> string)
    requires forall x :: x in s ==> h(x) == if keep(x) then g(x) else []
    ensures ConcatMap(s, h) == ConcatMap(Filter(s, keep), g)
    decreases |s|
  {
    if s != [] {
      var init := s[..|s| - 1];
      var last := s[|s| - 1];
      assert forall x :: x in init ==> x in s;
      ConcatMapFilter(init, keep, g, h);
      if keep(last) {
        ConcatMapAppend(Filter(init, keep), [last], g);
        assert [last][..0] == [];
      } else {
        assert Filter(s, keep) == Filter(init, keep) + [];
        assert Filter(init, keep) + [] == Filter(init, keep);
      }
    }
  }

  /** Filtering a list whose every element is kept changes nothing. */
  lemma {:induction false} FilterAllKept<T>(s: seq<T>, keep: T -> bool)
    requires forall k :: 0 <= k < |s| ==> keep(s[k])
    ensures Filter(s, keep) == s
    decreases |s|
  {
    if s != [] {
      FilterAllKept(s[..|s| - 1], keep);
      SeqSnoc(s);
    }
  }

  /** Filtering twice is filtering once by both conditions. */
  lemma {:induction false} FilterCompose<T>(s: seq<T>, p: T -> bool, q: T -> bool, pq: T -> bool)
    requires forall x :: pq(x) == (p(x) && q(x))
    ensures Filter(Filter(s, p), q) == Filter(s, pq)
    decreases |s|
  {
    if s != [] {
      var init := s[..|s| - 1];
      var last := s[|s| - 1];
      FilterCompose(init, p, q, pq);
      if p(last) {
        var f := Filter(init, p);
        assert (f + [last])[..|f + [last]| - 1] == f;
      } else {
        assert Filter(s, p) == Filter(init, p) + [];
        assert Filter(init, p) + [] == Filter(init, p);
      }
    }
  }

  lemma StartsWithPrefix(a: string, b: string)
    ensures StartsWith(a + b, a)
  {
    assert (a + b)[..|a|] == a;
  }

  lemma EndsWithSuffix(a: string, b: string)
    ensures EndsWith(a + b, b)
  {
    assert (a + b)[|a|..] == b;
  }

  /** `a + b + c` starts with `a` and ends with `c`. */
  lemma Enclosed(a: string, b: string, c: string)
    ensures StartsWith(a + b + c, a) && EndsWith(a + b + c, c)
  {
    AppendAssoc(a, b, c);
    StartsWithPrefix(a, b + c);
    EndsWithSuffix(a + b, c);
  }

  /** A suffix of `b` stays a suffix once something is put in front of `b`. */
  lemma EndsWithAppend(a: string, b: string, e: string)
    requires EndsWith(b, e)
    ensures EndsWith(a + b, e)
  {
    assert (a + b)[|a + b| - |e|..] == b[|b| - |e|..];
  }

  /** Nothing is kept by a filter exactly when no element passes. */
  lemma FilterEmpty<T>(s: seq<T>, keep: T -> bool)
    ensures Filter(s, keep) == [] <==> forall k :: 0 <= k < |s| ==> !keep(s[k])
  {
    var r := Filter(s, keep);
    if r != [] {
      assert keep(r[0]) && r[0] in s;
    }
  }

  /** `f` applied to each element of `s`, in order. */
  function MapSeq<T, U>(s: seq<T>, f: T -> U): (r: seq<U>)
    ensures |r| == |s|
    ensures forall k :: 0 <= k < |s| ==> r[k] == f(s[k])
  {
    if s == [] then [] else MapSeq(s[..|s| - 1], f) + [f(s[|s| - 1])]
  }

  /** One more element mapped. */
  lemma MapSeqSnoc<T, U>(s: seq<T>, x: T, f: T -> U)
    ensures MapSeq(s + [x], f) == MapSeq(s, f) + [f(x)]
  {
    assert (s + [x])[..|s|] == s;
  }

  /** One more step of a loop that maps the elements `keep` accepts and skips the others. */
  lemma MapFilterStep<T, U>(s: seq<T>, i: nat, keep: T -> bool, f: T -> U)
    requires i < |s|
    ensures keep(s[i]) ==> MapSeq(Filter(s[..i + 1], keep), f) == MapSeq(Filter(s[..i], keep), f) + [f(s[i])]
    ensures !keep(s[i]) ==> MapSeq(Filter(s[..i + 1], keep), f) == MapSeq(Filter(s[..i], keep), f)
  {
    FilterSnoc(s, i, keep);
    if keep(s[i]) {
      MapSeqSnoc(Filter(s[..i], keep), s[i], f);
    } else {
      assert Filter(s[..i], keep) + [] == Filter(s[..i], keep);
    }
  }

  /** Concatenating `h` over `s` is concatenating `g` over the `f`-images when `h` is `g` after `f`. */
  lemma {:induction false} ConcatMapMap<T, U>(s: seq<T>, f: T -> U, g: U -> string, h: T -> string)
    requires forall x :: x in s ==> h(x) == g(f(x))
    ensures ConcatMap(s, h) == ConcatMap(MapSeq(s, f), g)
    decreases |s|
  {
    if s != [] {
      var init := s[..|s| - 1];
      assert forall x :: x in init ==> x in s;
      ConcatMapMap(init, f, g, h);
      var m := MapSeq(s, f);
      assert m[..|m| - 1] == MapSeq(init, f);
    }
  }

  /** Some string of `xs` contains `p`: `xs.iter().any(|x| x.contains(p))`. */
  function AnyContains(xs: seq<string>, p: string): (b: bool)
    ensures b <==> exists i :: 0 <= i < |xs| && Contains(xs[i], p)
  {
    if xs == [] then false else Contains(xs[0], p) || AnyContains(xs[1..], p)
  }

  /** A concatenation is empty exactly when every piece is. */
  lemma {:induction false} ConcatMapEmpty<T>(s: seq<T>, f: T -> string)
    ensures ConcatMap(s, f) == [] <==> forall k :: 0 <= k < |s| ==> f(s[k]) == []
    decreases |s|
  {
    if s != [] {
      var init := s[..|s| - 1];
      ConcatMapEmpty(init, f);
      assert forall k :: 0 <= k < |init| ==> init[k] == s[k];
    }
  }

  // ------------------------------------------------- words and trimming

  /** A word written after a word boundary is the whole trailing run. */
  lemma {:induction false} TrailingWordLengthOfWord(x: string, w: string)
    requires x == [] || IsWhitespace(x[|x| - 1])
    requires NoWhitespace(w)
    ensures TrailingWordLength(x + w) == |w|
    decreases |w|
  {
    if w == [] {
      assert x + w == x;
    } else {
      assert (x + w)[..|x + w| - 1] == x + w[..|w| - 1];
      TrailingWordLengthOfWord(x, w[..|w| - 1]);
    }
  }

  /** Whitespace in front does not change the trailing run, unless the run is all of `t`. */
  lemma {:induction false} TrailingWordLengthPrepend(w: string, t: string)
    requires TrailingWordLength(t) < |t| || w == [] || IsWhitespace(w[|w| - 1])
    ensures TrailingWordLength(w + t) == TrailingWordLength(t)
    decreases |t|
  {
    if t == [] {
      assert w + t == w;
    } else if IsWhitespace(t[|t| - 1]) {
      assert (w + t)[|w + t| - 1] == t[|t| - 1];
    } else {
      assert (w + t)[..|w + t| - 1] == w + t[..|t| - 1];
      TrailingWordLengthPrepend(w, t[..|t| - 1]);
    }
  }

  /** The words of `x + w + y` are those of `x` and then `w`, when `w` is one word after a boundary and `y` is blank. */
  lemma SplitWhitespaceSnoc(x: string, w: string, y: string)
    requires x == [] || IsWhitespace(x[|x| - 1])
    requires w != [] && NoWhitespace(w) && AllWhitespace(y)
    ensures SplitWhitespace(x + w + y) == SplitWhitespace(x) + [w]
  {
    assert TrimEnd(x + w + y) == x + w by {
      TrimEndSkips(x + w, y);
      TrimEndNoTrailing(x + w);
    }
    assert TrailingWordLength(x + w) == |w| by {
      TrailingWordLengthOfWord(x, w);
    }
    assert (x + w)[..|x + w| - |w|] == x;
    assert (x + w)[|x + w| - |w|..] == w;
  }

  /**
   * Cutting `p + [c] + rest` at its first `c` when `c` is not in `p` and is
   * not whitespace: `trim_end` keeps that `c`, so it is still found at `|p|`.
   */
  lemma FindCharAfterTrimEnd(p: string, c: char, rest: string)
    requires c !in p && !IsWhitespace(c)
    ensures FindChar(p + [c] + rest, c) == Some(|p|)
    ensures FindChar(TrimEnd(p + [c] + rest), c) == Some(|p|)
    ensures TrimEnd(p + [c] + rest)[..|p|] == p
  {
    var v := p + [c] + rest;
    var t := TrimEnd(v);
    assert v[..|p|] == p && v[|p|] == c;
    assert |p| < |t| by { assert !IsWhitespace(v[|p|]); }
    assert t[..|p|] == p by {
      assert t == v[..|t|];
      assert v[..|t|][..|p|] == v[..|p|];
    }
    assert t[|p|] == c;
    assert forall j :: 0 <= j < |p| ==> v[j] != c by {
      forall j | 0 <= j < |p| ensures v[j] != c { assert v[j] == p[j]; }
    }
    FindCharAt(v, c, |p|);
    assert forall j :: 0 <= j < |p| ==> t[j] != c by {
      forall j | 0 <= j < |p| ensures t[j] != c { assert t[j] == p[j]; }
    }
    FindCharAt(t, c, |p|);
  }

  /** `s.split_whitespace().last()`. */
  function LastWord(s: string): (r: Option<string>)
    ensures r.Some? ==> r.value != [] && NoWhitespace(r.value)
    ensures r.None? <==> SplitWhitespace(s) == []
  {
    var words := SplitWhitespace(s);
    if words == [] then None else Some(words[|words| - 1])
  }

  /** The whitespace that `trim_start` removes. */
  lemma TrimStartPart(s: string) returns (lead: string)
    ensures s == lead + TrimStart(s) && AllWhitespace(lead)
  {
    lead := s[..|s| - |TrimStart(s)|];
  }

  /** The whitespace that `trim_end` removes. */
  lemma TrimEndPart(s: string) returns (tail: string)
    ensures s == TrimEnd(s) + tail && AllWhitespace(tail)
  {
    tail := s[|TrimEnd(s)|..];
  }

  /** `s` with its leading and trailing whitespace: nothing else is lost by `trim`. */
  lemma TrimParts(s: string) returns (lead: string, tail: string)
    ensures s == lead + Trim(s) + tail
    ensures AllWhitespace(lead) && AllWhitespace(tail)
  {
    lead := TrimStartPart(s);
    tail := TrimEndPart(TrimStart(s));
    AppendAssoc(lead, Trim(s), tail);
  }

  /** Nothing is left when a blank text is trimmed at the start. */
  lemma {:induction false} TrimStartAllWhitespace(s: string)
    requires AllWhitespace(s)
    ensures TrimStart(s) == []
    decreases |s|
  {
    if s != [] {
      TrimStartAllWhitespace(s[1..]);
    }
  }

  /** A text contains whatever stands in its middle. */
  lemma ContainsMiddle(a: string, p: string, b: string)
    ensures Contains(a + p + b, p)
  {
    assert (a + p + b)[|a|..|a| + |p|] == p;
    assert OccursAt(a + p + b, p, |a|);
  }

  /** `trim` only removes characters: one that is not in `s` is not in `trim(s)`. */
  lemma TrimNoChar(s: string, c: char)
    requires c !in s
    ensures c !in Trim(s)
  {
    var lead, tail := TrimParts(s);
    forall k | 0 <= k < |Trim(s)|
      ensures Trim(s)[k] != c
    {
      assert Trim(s)[k] == (lead + Trim(s) + tail)[|lead| + k];
    }
  }

  /** A two-character pattern occurs where its two characters stand. */
  lemma OccursAtPair(s: string, a: char, b: char, i: int)
    ensures OccursAt(s, [a, b], i) <==> (0 <= i && i + 2 <= |s| && s[i] == a && s[i + 1] == b)
  {
    if 0 <= i && i + 2 <= |s| {
      assert s[i..i + 2] == [s[i], s[i + 1]];
    }
  }

  /** A text starts with a two-character pattern when its first two characters are those. */
  lemma StartsWithPair(s: string, a: char, b: char)
    ensures StartsWith(s, [a, b]) <==> (|s| >= 2 && s[0] == a && s[1] == b)
  {
    if |s| >= 2 {
      assert s[..2] == [s[0], s[1]];
    }
  }

  /** `v.reverse()`. */
  function Reverse<T>(s: seq<T>): (r: seq<T>)
    ensures |r| == |s|
    ensures forall k :: 0 <= k < |s| ==> r[k] == s[|s| - 1 - k]
  {
    if s == [] then [] else Reverse(s[1..]) + [s[0]]
  }

  // ---------------------------------------------------------------- braces

  /** A definition's text cut at its first `{`: the signature before it and the body from it on. */
  datatype BraceSplit = BraceSplit(signature: string, body: Option<string>)

  /**
   * A definition split at its first `{`: the trimmed text before it and the
   * trimmed rest from the `{` on, or the whole trimmed text and no body
   * when there is no `{`.
   */
  function SplitAtBrace(text: string): (r: BraceSplit)
    ensures '{' !in r.signature
    ensures r.signature == [] || (!IsWhitespace(r.signature[0]) && !IsWhitespace(r.signature[|r.signature| - 1]))
    ensures r.body.None? <==> '{' !in text
    ensures r.body.None? ==> r.signature == Trim(text)
    ensures r.body.Some? ==> r.body.value != [] && r.body.value[0] == '{'
    ensures r.body.Some? ==> !IsWhitespace(r.body.value[|r.body.value| - 1])
  {
    match FindChar(text, '{')
    case None => BraceSplit(Trim(text), None)
    case Some(b) =>
      var rest := text[b..];
      assert rest[0] == '{';
      TrimStartNoLeading(rest);
      TrimNoChar(text[..b], '{');
      BraceSplit(Trim(text[..b]), Some(Trim(rest)))
  }

  /** Cutting `text` at a `{` and trimming both sides loses only whitespace. */
  lemma TrimmedPieces(text: string, b: nat) returns (lead: string, gap: string, tail: string)
    requires b < |text| && text[b] == '{'
    ensures AllWhitespace(lead) && AllWhitespace(gap) && AllWhitespace(tail)
    ensures text == lead + Trim(text[..b]) + gap + Trim(text[b..]) + tail
  {
    var pre, rest := text[..b], text[b..];
    assert rest[0] == '{';
    TrimStartNoLeading(rest);
    lead, gap := TrimParts(pre);
    tail := TrimEndPart(rest);
    assert text == pre + rest;
    AppendAssoc(lead + Trim(pre) + gap, Trim(rest), tail);
  }

  /** The split loses only whitespace: before the signature, between it and the body, and after the body. */
  lemma SplitAtBraceParts(text: string) returns (lead: string, gap: string, tail: string)
    requires '{' in text
    ensures AllWhitespace(lead) && AllWhitespace(gap) && AllWhitespace(tail)
    ensures text == lead + SplitAtBrace(text).signature + gap + SplitAtBrace(text).body.value + tail
  {
    var b := FindChar(text, '{').value;
    lead, gap, tail := TrimmedPieces(text, b);
  }

  /** A trimmed text followed by whitespace trims back to itself. */
  lemma TrimBeforeGap(sig: string, gap: string)
    requires sig == [] || (!IsWhitespace(sig[0]) && !IsWhitespace(sig[|sig| - 1]))
    requires AllWhitespace(gap)
    ensures Trim(sig + gap) == sig
  {
    if sig == [] {
      assert sig + gap == gap;
      TrimStartAllWhitespace(gap);
    } else {
      assert (sig + gap)[0] == sig[0];
      TrimStartNoLeading(sig + gap);
      TrimEndSkips(sig, gap);
      TrimEndNoTrailing(sig);
    }
  }

  /** Splitting `sig + gap + body` gives back `sig` and `body`. */
  lemma SplitAtBraceOf(sig: string, gap: string, body: string)
    requires '{' !in sig && (sig == [] || (!IsWhitespace(sig[0]) && !IsWhitespace(sig[|sig| - 1])))
    requires AllWhitespace(gap)
    requires body != [] && body[0] == '{' && !IsWhitespace(body[|body| - 1])
    ensures SplitAtBrace(sig + gap + body) == BraceSplit(sig, Some(body))
  {
    var text := sig + gap + body;
    var b := |sig + gap|;
    assert FindChar(text, '{') == Some(b) by {
      assert text[b] == body[0];
      assert forall j :: 0 <= j < b ==> text[j] == (sig + gap)[j];
      FindCharAt(text, '{', b);
    }
    assert Trim(text[..b]) == sig by {
      assert text[..b] == sig + gap;
      TrimBeforeGap(sig, gap);
    }
    assert Trim(text[b..]) == body by {
      assert text[b..] == body;
      TrimStartNoLeading(body);
      TrimEndNoTrailing(body);
    }
  }

  // ---------------------------------------------------------- delimiters

  /** An opener comes off a text whose rest starts differently. */
  lemma StripOpen(open: string, rest: string)
    requires open != [] && rest != [] && rest[0] != open[0]
    ensures TrimStartMatches(open + rest, open) == rest
  {
    TrimStartMatchesPrefix(open, rest);
    if |open| <= |rest| {
      assert rest[..|open|][0] == rest[0];
    }
    assert !StartsWith(rest, open);
  }

  /** A closer comes off a text whose rest ends differently. */
  lemma StripClose(rest: string, close: string)
    requires close != [] && rest != [] && rest[|rest| - 1] != close[|close| - 1]
    ensures TrimEndMatches(rest + close, close) == rest
  {
    TrimEndMatchesSuffix(rest, close);
    if |close| <= |rest| {
      assert rest[|rest| - |close|..][|close| - 1] == rest[|rest| - 1];
    }
    assert !EndsWith(rest, close);
  }

  /** Delimiters around a middle that neither starts like the opener nor ends like the closer come off exactly. */
  lemma StripDelimiters(open: string, middle: string, close: string)
    requires open != [] && close != [] && middle != []
    requires middle[0] != open[0] && middle[|middle| - 1] != close[|close| - 1]
    ensures TrimEndMatches(TrimStartMatches(open + middle + close, open), close) == middle
  {
    AppendAssoc(open, middle, close);
    assert (middle + close)[0] == middle[0];
    StripOpen(open, middle + close);
    StripClose(middle, close);
  }
}
