/**
 * The per-language rule table of `src/parser/formatter/rules.rs`: how a
 * summary elides a body, which comment marker prefixes documentation, and
 * which attribute or name fragments mark test code.
 */
module FormatterRules {
  import opened Wrappers
  import opened Strings

  /** The languages the rule table knows; C and C++ share `Cpp`. */
  datatype LanguageType = Rust | Python | TypeScript | Cpp | Unknown

  datatype Rules = Rules(
    summaryEllipsis: string,
    bodyStartMarker: string,
    bodyEndMarker: string,
    docMarker: string,
    testMarkers: seq<string>,
    testModuleMarkers: seq<string>)

  const RustRules := Rules(" { ... }", "{", "}", "///", ["#[test]", "#[cfg(test)]"], ["#[cfg(test)]", "tests"])
  const PythonRules := Rules(": ...", ":", "", "#", ["@pytest", "test_"], ["test_"])
  const TsRules := Rules(" { ... }", "{", "}", "//", ["@test", "test_"], ["test_"])
  const CRules := Rules(" { ... }", "{", "}", "//", ["@test", "test_"], ["test_"])
  const UnknownRules := Rules("...", "", "", "//", [], [])

  /**
   * The summary ellipsis re-opens the body it stands for: after its leading
   * whitespace it starts with the one-character body-start marker, and it
   * ends in a visible character.
   */
  predicate EllipsisReopensBody(r: Rules)
  {
    var e := r.summaryEllipsis;
    |r.bodyStartMarker| == 1 && !IsWhitespace(r.bodyStartMarker[0])
    && |e| >= 2 && !IsWhitespace(e[|e| - 1])
    && (e[0] == r.bodyStartMarker[0] || (e[0] == ' ' && e[1] == r.bodyStartMarker[0]))
  }

  /** `FormatterRules::for_language`. */
  function ForLanguage(lang: LanguageType): (r: Rules)
    ensures lang != Unknown ==> EllipsisReopensBody(r)
    ensures r.bodyStartMarker == [] <==> lang == Unknown
    ensures r.testMarkers == [] <==> lang == Unknown
    ensures r.testModuleMarkers == [] <==> lang == Unknown
  {
    match lang
    case Rust => RustRules
    case Python => PythonRules
    case TypeScript => TsRules
    case Cpp => CRules
    case Unknown => UnknownRules
  }

  /** The rule table's constants, one language at a time. */
  lemma ForLanguageTable()
    ensures ForLanguage(Rust).summaryEllipsis == " { ... }" && ForLanguage(Rust).docMarker == "///"
    ensures ForLanguage(Rust).testMarkers == ["#[test]", "#[cfg(test)]"]
    ensures ForLanguage(Rust).testModuleMarkers == ["#[cfg(test)]", "tests"]
    ensures ForLanguage(Python).summaryEllipsis == ": ..." && ForLanguage(Python).bodyStartMarker == ":"
    ensures ForLanguage(Python).testMarkers == ["@pytest", "test_"] && ForLanguage(Python).docMarker == "#"
    ensures ForLanguage(TypeScript) == ForLanguage(Cpp)
    ensures ForLanguage(Unknown).summaryEllipsis == "..." && ForLanguage(Unknown).bodyStartMarker == ""
  {
  }

  /** Some marker of `markers` occurs inside `s`. */
  function ContainsAny(s: string, markers: seq<string>): (b: bool)
    ensures b <==> exists j :: 0 <= j < |markers| && Contains(s, markers[j])
  {
    if markers == [] then false
    else Contains(s, markers[0]) || ContainsAny(s, markers[1..])
  }

  /** Some string of `attrs` contains some marker of `markers`. */
  function AnyContainsAny(attrs: seq<string>, markers: seq<string>): (b: bool)
    ensures b <==> exists i, j :: 0 <= i < |attrs| && 0 <= j < |markers| && Contains(attrs[i], markers[j])
  {
    if attrs == [] then false
    else ContainsAny(attrs[0], markers) || AnyContainsAny(attrs[1..], markers)
  }

  /** `is_test_function`: some attribute contains some test marker. */
  function IsTestFunction(r: Rules, attrs: seq<string>): (b: bool)
    ensures b <==> exists i, j :: 0 <= i < |attrs| && 0 <= j < |r.testMarkers| && Contains(attrs[i], r.testMarkers[j])
    ensures r.testMarkers == [] ==> !b
  {
    AnyContainsAny(attrs, r.testMarkers)
  }

  /** Some marker is a prefix of `name` or occurs inside some attribute. */
  function AnyModuleMarker(markers: seq<string>, name: string, attrs: seq<string>): (b: bool)
    ensures b <==> exists j :: 0 <= j < |markers| && (StartsWith(name, markers[j]) || exists i :: 0 <= i < |attrs| && Contains(attrs[i], markers[j]))
  {
    if markers == [] then false
    else
      var m := markers[0];
      assert AnyContainsAny(attrs, [m]) <==> exists i :: 0 <= i < |attrs| && Contains(attrs[i], m);
      StartsWith(name, m) || AnyContainsAny(attrs, [m]) || AnyModuleMarker(markers[1..], name, attrs)
  }

  /** `is_test_module`: some module marker starts the name or occurs inside an attribute. */
  function IsTestModule(r: Rules, name: string, attrs: seq<string>): (b: bool)
    ensures b <==> exists j :: 0 <= j < |r.testModuleMarkers| && (StartsWith(name, r.testModuleMarkers[j]) || exists i :: 0 <= i < |attrs| && Contains(attrs[i], r.testModuleMarkers[j]))
    ensures r.testModuleMarkers == [] ==> !b
  {
    AnyModuleMarker(r.testModuleMarkers, name, attrs)
  }

  lemma OccursInPrefix(s: string, c: string, p: string, j: int)
    requires StartsWith(s, c) && OccursAt(c, p, j)
    ensures OccursAt(s, p, j)
  {
    assert s[..|c|][j..j + |p|] == s[j..j + |p|];
  }

  /**
   * The part of a trimmed signature that a summary keeps: everything before
   * the first body-start marker, without the whitespace in front of it.
   */
  function CleanSignature(r: Rules, sig: string): (c: string)
    ensures StartsWith(sig, c)
    ensures r.bodyStartMarker != [] ==> !Contains(c, r.bodyStartMarker)
    ensures r.bodyStartMarker == [] || !Contains(sig, r.bodyStartMarker) ==> c == sig
    ensures r.bodyStartMarker != [] && Contains(sig, r.bodyStartMarker) ==>
              |c| <= Find(sig, r.bodyStartMarker).value
              && AllWhitespace(sig[|c|..Find(sig, r.bodyStartMarker).value])
    ensures c != [] && r.bodyStartMarker != [] && Contains(sig, r.bodyStartMarker) ==> !IsWhitespace(c[|c| - 1])
  {
    if r.bodyStartMarker != [] then
      match Find(sig, r.bodyStartMarker)
      case Some(idx) =>
        var c := TrimEnd(sig[..idx]);
        assert sig[..idx][..|c|] == sig[..|c|];
        assert sig[..idx][|c|..] == sig[|c|..idx];
        assert !Contains(c, r.bodyStartMarker) by {
          forall j | 0 <= j <= |c| - |r.bodyStartMarker|
            ensures !OccursAt(c, r.bodyStartMarker, j)
          {
            if OccursAt(c, r.bodyStartMarker, j) {
              OccursInPrefix(sig, c, r.bodyStartMarker, j);
            }
          }
        }
        c
      case None => sig
    else sig
  }

  /**
   * `format_signature`: the trimmed signature (or, without one, the trimmed
   * source), cut before its body, followed by the summary ellipsis.
   */
  function FormatSignature(r: Rules, source: string, signature: Option<string>): (out: string)
    ensures EndsWith(out, r.summaryEllipsis)
    ensures out[..|out| - |r.summaryEllipsis|] == CleanSignature(r, Trim(signature.UnwrapOr(source)))
  {
    var out := CleanSignature(r, Trim(signature.UnwrapOr(source))) + r.summaryEllipsis;
    assert out[|out| - |r.summaryEllipsis|..] == r.summaryEllipsis;
    out
  }

  /** `FindFrom` returns the occurrence it is shown to be the first of. */
  lemma FindIsFirst(s: string, p: string, i: nat)
    requires OccursAt(s, p, i)
    requires forall j :: 0 <= j < i ==> !OccursAt(s, p, j)
    ensures Find(s, p) == Some(i)
  {
    assert Contains(s, p);
  }

  /** The number of spaces in front of the body-start marker inside the ellipsis. */
  function EllipsisGap(r: Rules): (n: nat)
    requires EllipsisReopensBody(r)
    ensures n < |r.summaryEllipsis| && r.summaryEllipsis[n] == r.bodyStartMarker[0]
    ensures AllWhitespace(r.summaryEllipsis[..n])
  {
    if r.summaryEllipsis[0] == r.bodyStartMarker[0] then 0 else 1
  }

  /** Trimming the ellipsis alone removes the spaces in front of its marker. */
  lemma TrimOfEllipsis(r: Rules)
    requires EllipsisReopensBody(r)
    ensures Trim(r.summaryEllipsis) == r.summaryEllipsis[EllipsisGap(r)..]
  {
    var e := r.summaryEllipsis;
    var n := EllipsisGap(r);
    var t := e[n..];
    assert t[0] == e[n];
    assert t[|t| - 1] == e[|e| - 1];
    assert e == e[..n] + t;
    TrimStartSkips(e[..n], t);
    TrimStartNoLeading(t);
    TrimEndNoTrailing(t);
  }

  /** A summary `c + ellipsis` with a non-empty `c` is already trimmed. */
  lemma TrimOfSummary(r: Rules, c: string)
    requires EllipsisReopensBody(r)
    requires c != [] && !IsWhitespace(c[0]) && !IsWhitespace(c[|c| - 1])
    ensures Trim(c + r.summaryEllipsis) == c + r.summaryEllipsis
  {
    var e := r.summaryEllipsis;
    var out := c + e;
    assert out[0] == c[0] && out[|out| - 1] == e[|e| - 1];
    TrimStartNoLeading(out);
    TrimEndNoTrailing(out);
  }

  /** In `c + ellipsis` the first body-start marker is the ellipsis's own. */
  lemma FindInSummary(r: Rules, c: string)
    requires EllipsisReopensBody(r)
    requires !Contains(c, r.bodyStartMarker)
    ensures Find(c + r.summaryEllipsis, r.bodyStartMarker) == Some(|c| + EllipsisGap(r))
  {
    var e := r.summaryEllipsis;
    var m := r.bodyStartMarker;
    var out := c + e;
    var k := |c| + EllipsisGap(r);
    assert m == [m[0]];
    assert out[k] == m[0];
    OccursAtChar(out, m[0], k);
    forall j | 0 <= j < k
      ensures !OccursAt(out, m, j)
    {
      OccursAtChar(out, m[0], j);
      if j < |c| {
        OccursAtChar(c, m[0], j);
        assert out[j] == c[j];
      } else {
        assert out[j] == e[..EllipsisGap(r)][j - |c|];
      }
    }
    FindIsFirst(out, m, k);
  }

  /** What a summary keeps of an earlier summary `c + ellipsis` is `c`. */
  lemma CleanSignatureOfSummary(r: Rules, c: string)
    requires EllipsisReopensBody(r)
    requires !Contains(c, r.bodyStartMarker)
    requires c == [] || (!IsWhitespace(c[0]) && !IsWhitespace(c[|c| - 1]))
    ensures CleanSignature(r, Trim(c + r.summaryEllipsis)) == c
  {
    var e := r.summaryEllipsis;
    var n := EllipsisGap(r);
    if c == [] {
      assert c + e == e;
      CleanSignatureOfBareEllipsis(r);
    } else {
      assert Trim(c + e) == c + e by { TrimOfSummary(r, c); }
      CleanSignatureOfTrimmedSummary(r, c);
    }
  }

  /** A summary of the ellipsis alone keeps nothing. */
  lemma CleanSignatureOfBareEllipsis(r: Rules)
    requires EllipsisReopensBody(r)
    ensures CleanSignature(r, Trim(r.summaryEllipsis)) == []
  {
    var m0 := r.bodyStartMarker[0];
    assert r.bodyStartMarker == [m0];
    var t := r.summaryEllipsis[EllipsisGap(r)..];
    OccursAtChar(t, m0, 0);
    FindIsFirst(t, r.bodyStartMarker, 0);
    TrimOfEllipsis(r);
  }

  lemma CleanSignatureOfTrimmedSummary(r: Rules, c: string)
    requires EllipsisReopensBody(r)
    requires !Contains(c, r.bodyStartMarker)
    requires c != [] && !IsWhitespace(c[|c| - 1])
    ensures CleanSignature(r, c + r.summaryEllipsis) == c
  {
    var e := r.summaryEllipsis;
    var n := EllipsisGap(r);
    var out := c + e;
    var k := |c| + n;
    assert Find(out, r.bodyStartMarker) == Some(k) by { FindInSummary(r, c); }
    assert TrimEnd(out[..k]) == c by { TrimEndOfGap(c, e, n); }
  }

  /** Cutting `c + e` after a whitespace gap of `e` and trimming the end gives `c` back. */
  lemma TrimEndOfGap(c: string, e: string, n: nat)
    requires n <= |e| && AllWhitespace(e[..n])
    requires c != [] && !IsWhitespace(c[|c| - 1])
    ensures TrimEnd((c + e)[..|c| + n]) == c
  {
    assert (c + e)[..|c| + n] == c + e[..n];
    TrimEndSkips(c, e[..n]);
    TrimEndNoTrailing(c);
  }

  /** The kept part of a summary starts and ends with a visible character. */
  lemma CleanSignatureTrimmed(r: Rules, sig: string)
    requires sig == [] || (!IsWhitespace(sig[0]) && !IsWhitespace(sig[|sig| - 1]))
    ensures var c := CleanSignature(r, sig); c == [] || (!IsWhitespace(c[0]) && !IsWhitespace(c[|c| - 1]))
  {
    var c := CleanSignature(r, sig);
    if c != [] {
      assert c[0] == sig[0];
    }
  }

  /**
   * Summarising a summary changes nothing, for every rule table whose
   * ellipsis re-opens the body (Rust, Python, TypeScript and C).
   */
  lemma {:induction false} FormatSignatureIdempotent(r: Rules, source: string, signature: Option<string>)
    requires EllipsisReopensBody(r)
    ensures FormatSignature(r, FormatSignature(r, source, signature), None) == FormatSignature(r, source, signature)
  {
    var sig := Trim(signature.UnwrapOr(source));
    var c := CleanSignature(r, sig);
    var out := FormatSignature(r, source, signature);
    assert out == c + r.summaryEllipsis;
    CleanSignatureTrimmed(r, sig);
    CleanSignatureOfSummary(r, c);
  }

  /**
   * Without a body-start marker summaries are not idempotent: for every
   * signature without surrounding whitespace (`f()` say), summarising the
   * summary appends the ellipsis again.
   */
  lemma UnknownSummaryNotIdempotent(s: string)
    requires Trimmed(s)
    ensures FormatSignature(UnknownRules, s, None) == s + "..."
    ensures FormatSignature(UnknownRules, s + "...", None) == s + "..." + "..."
  {
    assert Trimmed(UnknownRules.summaryEllipsis);
    SummaryWithoutMarker(UnknownRules, s);
  }

  /**
   * With no body-start marker a signature without surrounding whitespace is
   * kept whole, and so is a summary of it, which gains a second ellipsis.
   */
  lemma SummaryWithoutMarker(r: Rules, s: string)
    requires r.bodyStartMarker == [] && Trimmed(s)
    requires r.summaryEllipsis != [] && Trimmed(r.summaryEllipsis)
    ensures FormatSignature(r, s, None) == s + r.summaryEllipsis
    ensures FormatSignature(r, s + r.summaryEllipsis, None) == s + r.summaryEllipsis + r.summaryEllipsis
  {
    var e := r.summaryEllipsis;
    TrimStartNoLeading(s);
    TrimEndNoTrailing(s);
    var t := s + e;
    assert t[|t| - 1] == e[|e| - 1];
    assert t[0] == if s == [] then e[0] else s[0];
    TrimStartNoLeading(t);
    TrimEndNoTrailing(t);
  }

  /** The Rust example the source states for `format_signature`: no body, so only the ellipsis is added. */
  lemma FormatSignatureRustExample()
    ensures FormatSignature(RustRules, "fn test()", None) == "fn test()" + " { ... }"
  {
    var s := "fn test()";
    assert '{' !in s;
    assert !Contains(s, "{") by { ContainsChar(s, '{'); }
    assert Trim(s) == s by {
      TrimStartNoLeading(s);
      TrimEndNoTrailing(s);
    }
    assert CleanSignature(RustRules, s) == s;
  }

  /** The Python example the source states for `format_signature`: the colon is supplied. */
  lemma FormatSignaturePythonExample()
    ensures FormatSignature(PythonRules, "def test()", None) == "def test()" + ": ..."
  {
    var s := "def test()";
    assert ':' !in s;
    assert !Contains(s, ":") by { ContainsChar(s, ':'); }
    assert Trim(s) == s by {
      TrimStartNoLeading(s);
      TrimEndNoTrailing(s);
    }
    assert CleanSignature(PythonRules, s) == s;
  }
}
