/**
 * What `src/parser/formatter/mod.rs` promises about its output under each
 * strategy, stated over the `...Text` functions of `Formatter` (which the
 * `Format...` methods are proved to compute).
 */
module FormatterProperties {
  import opened Wrappers
  import opened Strings
  import opened Codebank
  import opened Units
  import opened FormatterRules
  import opened Formatter

  // ------------------------------------------------------- Default

  /** Under `Default`, files, modules and functions are their own source, tests included. */
  lemma DefaultKeepsSource(lang: LanguageType, visStr: Visibility -> string, file: FileUnit, m: ModuleUnit, f: FunctionUnit)
    ensures FileText(lang, visStr, Default, file) == file.source.UnwrapOr([])
    ensures ModuleText(lang, visStr, Default, m) == m.source.UnwrapOr([])
    ensures FunctionText(lang, Default, f) == f.source.UnwrapOr([])
  {
  }

  // ----------------------------------------------------- functions

  /** Outside `Default`, a test function is rendered as nothing. */
  lemma TestFunctionOmitted(lang: LanguageType, strategy: BankStrategy, f: FunctionUnit)
    requires strategy != Default && IsTestFunction(ForLanguage(lang), f.attributes)
    ensures FunctionText(lang, strategy, f) == []
  {
  }

  /** Under `Summary`, a function, struct or trait that is not `Public` is rendered as nothing. */
  lemma SummaryOmitsNonPublic(lang: LanguageType, visStr: Visibility -> string, f: FunctionUnit, s: StructUnit, t: TraitUnit)
    ensures f.visibility != Public ==> FunctionText(lang, Summary, f) == []
    ensures s.visibility != Public ==> StructText(lang, Summary, s) == []
    ensures t.visibility != Public ==> TraitText(lang, visStr, Summary, t) == []
  {
  }

  /**
   * A public non-test function under `Summary` with a signature or a source
   * ends with the language's summary ellipsis.
   */
  lemma SummaryFunctionEndsWithEllipsis(lang: LanguageType, f: FunctionUnit)
    requires f.visibility == Public && !IsTestFunction(ForLanguage(lang), f.attributes)
    requires f.signature.Some? || f.source.Some?
    ensures EndsWith(FunctionText(lang, Summary, f), ForLanguage(lang).summaryEllipsis)
  {
    var r := ForLanguage(lang);
    var pre := DocText(r, f.doc) + AttrText(f.attributes, r.testMarkers);
    EndsWithAppend(pre, SummaryTail(r, f), r.summaryEllipsis);
  }

  /** Under `Summary` a function's body is never looked at. */
  lemma SummaryIgnoresBody(lang: LanguageType, f: FunctionUnit, body: Option<string>)
    ensures FunctionText(lang, Summary, f.(body := body)) == FunctionText(lang, Summary, f)
  {
  }

  /**
   * Under `NoTests`, a function with a signature and a body is the signature
   * and the body, joined by one space exactly when the text so far does not
   * end in a space and the body starts with neither `{` nor `:`.
   */
  lemma NoTestsSignatureBodyJoin(lang: LanguageType, f: FunctionUnit)
    requires !IsTestFunction(ForLanguage(lang), f.attributes)
    requires f.signature.Some? && f.body.Some?
    ensures var r := ForLanguage(lang);
            var soFar := DocText(r, f.doc) + AttrText(f.attributes, r.testMarkers) + f.signature.value;
            var b := f.body.value;
            var out := FunctionText(lang, NoTests, f);
            (out == soFar + b <==> EndsWith(soFar, " ") || StartsWith(b, "{") || StartsWith(b, ":"))
            && (out == soFar + b || out == soFar + " " + b)
  {
    var r := ForLanguage(lang);
    var soFar := DocText(r, f.doc) + AttrText(f.attributes, r.testMarkers) + f.signature.value;
    var b := f.body.value;
    if NeedsGap(f, soFar, b) {
      assert |soFar + " " + b| != |soFar + b|;
    }
  }

  /** An attribute equal to a skipped marker contributes nothing; the others one line each. */
  lemma AttrTextSkips(attrs: seq<string>, skip: seq<string>)
    ensures AttrText(attrs, skip) == AttrText(Filter(attrs, (a: string) => a !in skip), [])
  {
    ConcatMapFilter(attrs, (a: string) => a !in skip, AttrLine([]), AttrLine(skip));
  }

  /** A one-line doc is one marked line. */
  lemma DocTextOfSingleLine(r: Rules, d: string)
    requires d != [] && '\n' !in d
    ensures DocText(r, Some(d)) == r.docMarker + " " + d + "\n"
  {
    LinesOfLine(d);
    assert ConcatMap([d], DocLine(r)) == ConcatMap([d][..0], DocLine(r)) + DocLine(r)(d);
  }

  // ------------------------------------------------ structs, traits

  /** Under `NoTests`, dropping the test methods of a struct changes nothing. */
  lemma StructNoTestsDropsTestMethods(lang: LanguageType, s: StructUnit)
    ensures var keep := (m: FunctionUnit) => !IsTestFunction(ForLanguage(lang), m.attributes);
            StructText(lang, NoTests, s) == StructText(lang, NoTests, s.(methods := Filter(s.methods, keep)))
  {
    var keep := (m: FunctionUnit) => !IsTestFunction(ForLanguage(lang), m.attributes);
    var line := MethodLine(lang);
    ConcatMapFilter(s.methods, keep, line, line);
  }

  /** Under `NoTests`, dropping the test methods of a trait changes nothing. */
  lemma TraitNoTestsDropsTestMethods(lang: LanguageType, visStr: Visibility -> string, t: TraitUnit)
    ensures var keep := (m: FunctionUnit) => !IsTestFunction(ForLanguage(lang), m.attributes);
            TraitText(lang, visStr, NoTests, t) == TraitText(lang, visStr, NoTests, t.(methods := Filter(t.methods, keep)))
  {
    var keep := (m: FunctionUnit) => !IsTestFunction(ForLanguage(lang), m.attributes);
    var line := MethodLine(lang);
    ConcatMapFilter(t.methods, keep, line, line);
  }

  // --------------------------------------------------------- impls

  /**
   * Under `Summary`, an impl is rendered as nothing exactly when it is not a
   * trait impl and has no public non-test method.
   */
  lemma ImplSummaryEmptyIff(lang: LanguageType, i: ImplUnit)
    ensures var r := ForLanguage(lang);
            (ImplText(lang, Summary, i) == []
             <==> !IsTraitImpl(i)
                  && forall k :: 0 <= k < |i.methods| ==>
                       i.methods[k].visibility != Public || IsTestFunction(r, i.methods[k].attributes))
  {
    var r := ForLanguage(lang);
    var keep := ImplKeeps(r, Summary, IsTraitImpl(i));
    FilterEmpty(i.methods, keep);
    var kept := ImplMethods(r, Summary, i);
    if !(kept == [] && !IsTraitImpl(i)) {
      var pre := DocText(r, i.doc) + AttrText(i.attributes, []);
      var out := pre + i.head + " {\n" + ConcatMap(kept, ImplMethodLine(lang, Summary)) + r.bodyEndMarker;
      assert |out| >= 3;
    }
  }

  /**
   * Under `Summary`, a trait impl keeps every non-test method whatever its
   * visibility; an inherent impl keeps its public non-test methods.
   */
  lemma ImplSummaryKeeps(lang: LanguageType, i: ImplUnit, m: FunctionUnit)
    ensures var r := ForLanguage(lang);
            (m in ImplMethods(r, Summary, i)
             <==> m in i.methods && !IsTestFunction(r, m.attributes) && (IsTraitImpl(i) || m.visibility == Public))
  {
  }

  /** Under `NoTests`, an impl keeps exactly its non-test methods. */
  lemma ImplNoTestsKeeps(lang: LanguageType, i: ImplUnit, m: FunctionUnit)
    ensures var r := ForLanguage(lang);
            m in ImplMethods(r, NoTests, i) <==> m in i.methods && !IsTestFunction(r, m.attributes)
  {
  }

  /**
   * A private method kept by a trait impl under `Summary` is still rendered
   * as nothing by the function formatter.
   */
  lemma TraitImplPrivateMethodRendersEmpty(lang: LanguageType, m: FunctionUnit)
    requires m.visibility != Public
    ensures ImplMethodLine(lang, Summary)(m) == []
  {
  }

  // ------------------------------------------------------- modules

  /** Under `Summary`, a module is rendered as nothing exactly when it is a test module or not `Public`. */
  lemma ModuleSummaryEmptyIff(lang: LanguageType, visStr: Visibility -> string, m: ModuleUnit)
    ensures ModuleText(lang, visStr, Summary, m) == []
            <==> IsTestModule(ForLanguage(lang), m.name, m.attributes) || m.visibility != Public
  {
  }

  /** Under `NoTests`, a module is its docs and attributes, then `"<vis> mod <name> {\n"`, and ends with `"}\n"`. */
  lemma ModuleNoTestsWrapped(lang: LanguageType, visStr: Visibility -> string, m: ModuleUnit)
    ensures var r := ForLanguage(lang);
            var out := ModuleText(lang, visStr, NoTests, m);
            StartsWith(out, DocText(r, m.doc) + AttrText(m.attributes, []) + ModuleHead(visStr(m.visibility), m))
            && EndsWith(out, "}\n")
  {
    var r := ForLanguage(lang);
    var head := DocText(r, m.doc) + AttrText(m.attributes, []) + ModuleHead(visStr(m.visibility), m);
    var items := ModuleItems(lang, visStr, NoTests, m);
    StartsWithPrefix(head, items + "}\n");
    EndsWithSuffix(head + items, "}\n");
    AppendAssoc(head, items, "}\n");
  }

  /** The submodule blocks as a map over the submodule list. */
  function SubBlock(lang: LanguageType, visStr: Visibility -> string, strategy: BankStrategy): ModuleUnit -> string
  {
    (m: ModuleUnit) =>
      if strategy == Summary && m.visibility != Public then [] else Block(ModuleText(lang, visStr, strategy, m))
  }

  lemma {:induction false} SubmodulesAsConcatMap(lang: LanguageType, visStr: Visibility -> string, strategy: BankStrategy, subs: seq<ModuleUnit>)
    ensures SubmodulesText(lang, visStr, strategy, subs) == ConcatMap(subs, SubBlock(lang, visStr, strategy))
    decreases |subs|
  {
    if subs != [] {
      SubmodulesAsConcatMap(lang, visStr, strategy, subs[..|subs| - 1]);
    }
  }

  /**
   * Under `Summary`, a module body shows only public functions, structs,
   * traits and submodules: pruning the others changes nothing.
   */
  lemma ModuleSummaryShowsPublicOnly(lang: LanguageType, visStr: Visibility -> string, m: ModuleUnit)
    ensures ModuleItems(lang, visStr, Summary, m)
         == ModuleItems(lang, visStr, Summary, m.(functions := Filter(m.functions, (f: FunctionUnit) => f.visibility == Public),
                                                  structs := Filter(m.structs, (s: StructUnit) => s.visibility == Public),
                                                  traits := Filter(m.traits, (t: TraitUnit) => t.visibility == Public),
                                                  submodules := Filter(m.submodules, (s: ModuleUnit) => s.visibility == Public)))
  {
    var pf := (f: FunctionUnit) => f.visibility == Public;
    var ps := (s: StructUnit) => s.visibility == Public;
    var pt := (t: TraitUnit) => t.visibility == Public;
    var pm := (s: ModuleUnit) => s.visibility == Public;
    var fb := FunctionBlock(lang, Summary);
    var sb := StructBlock(lang, Summary);
    var tb := TraitBlock(lang, visStr, Summary);
    var mb := SubBlock(lang, visStr, Summary);
    ConcatMapFilter(m.functions, pf, fb, fb);
    ConcatMapFilter(m.structs, ps, sb, sb);
    ConcatMapFilter(m.traits, pt, tb, tb);
    SubmodulesAsConcatMap(lang, visStr, Summary, m.submodules);
    SubmodulesAsConcatMap(lang, visStr, Summary, Filter(m.submodules, pm));
    ConcatMapFilter(m.submodules, pm, mb, mb);
  }

  // --------------------------------------------------------- files

  /**
   * Under `Summary`, a file shows only public modules, functions, structs
   * and traits: pruning the others changes nothing.  Every impl goes through
   * the impl formatter.
   */
  lemma FileSummaryShowsPublicOnly(lang: LanguageType, visStr: Visibility -> string, f: FileUnit)
    ensures FileText(lang, visStr, Summary, f)
         == FileText(lang, visStr, Summary, f.(modules := Filter(f.modules, (m: ModuleUnit) => m.visibility == Public),
                                               functions := Filter(f.functions, (g: FunctionUnit) => g.visibility == Public),
                                               structs := Filter(f.structs, (s: StructUnit) => s.visibility == Public),
                                               traits := Filter(f.traits, (t: TraitUnit) => t.visibility == Public)))
  {
    var pm := (m: ModuleUnit) => m.visibility == Public;
    var pf := (g: FunctionUnit) => g.visibility == Public;
    var ps := (s: StructUnit) => s.visibility == Public;
    var pt := (t: TraitUnit) => t.visibility == Public;
    var ml := FileModuleLine(lang, visStr, Summary);
    var fl := FileFunctionLine(lang, Summary);
    var sl := FileStructLine(lang, Summary);
    var tl := FileTraitLine(lang, visStr, Summary);
    ConcatMapFilter(f.modules, pm, ml, ml);
    ConcatMapFilter(f.functions, pf, fl, fl);
    ConcatMapFilter(f.structs, ps, sl, sl);
    ConcatMapFilter(f.traits, pt, tl, tl);
  }

  /** The modules `NoTests` keeps. */
  function NotTestModule(r: Rules): ModuleUnit -> bool
  {
    (m: ModuleUnit) => !IsTestModule(r, m.name, m.attributes)
  }

  /** The functions `NoTests` keeps. */
  function NotTestFunction(r: Rules): FunctionUnit -> bool
  {
    (g: FunctionUnit) => !IsTestFunction(r, g.attributes)
  }

  /** Under `NoTests`, a file drops its test modules and test functions: pruning them changes nothing. */
  lemma FileNoTestsDropsTests(lang: LanguageType, visStr: Visibility -> string, f: FileUnit)
    ensures var r := ForLanguage(lang);
            (FileText(lang, visStr, NoTests, f)
             == FileText(lang, visStr, NoTests, f.(modules := Filter(f.modules, NotTestModule(r)),
                                                   functions := Filter(f.functions, NotTestFunction(r)))))
  {
    NoTestsModulesDropped(lang, visStr, f.modules);
    NoTestsFunctionsDropped(lang, f.functions);
  }

  /** The module lines of a file under `NoTests` are those of its non-test modules. */
  lemma NoTestsModulesDropped(lang: LanguageType, visStr: Visibility -> string, ms: seq<ModuleUnit>)
    ensures ConcatMap(ms, FileModuleLine(lang, visStr, NoTests))
            == ConcatMap(Filter(ms, NotTestModule(ForLanguage(lang))), FileModuleLine(lang, visStr, NoTests))
  {
    var ml := FileModuleLine(lang, visStr, NoTests);
    ConcatMapFilter(ms, NotTestModule(ForLanguage(lang)), ml, ml);
  }

  /** The function lines of a file under `NoTests` are those of its non-test functions. */
  lemma NoTestsFunctionsDropped(lang: LanguageType, fs: seq<FunctionUnit>)
    ensures ConcatMap(fs, FileFunctionLine(lang, NoTests))
            == ConcatMap(Filter(fs, NotTestFunction(ForLanguage(lang))), FileFunctionLine(lang, NoTests))
  {
    var fl := FileFunctionLine(lang, NoTests);
    ConcatMapFilter(fs, NotTestFunction(ForLanguage(lang)), fl, fl);
  }
}
