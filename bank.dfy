/**
 * The code bank generator (`src/bank.rs`): choosing a parser by file
 * extension, and assembling the Markdown document from files that are
 * already parsed and formatted.
 *
 * A path is the sequence of its components; an absolute path starts with the
 * empty component, so that joining with `/` displays it.
 */
module Bank {
  import opened Wrappers
  import opened Strings

  datatype LanguageType = Rust | Python | TypeScript | Cpp | Go | Unknown

  type Path = seq<string>

  /** `Path::display` on Unix: the components joined by `/`. */
  function Display(p: Path): string
  {
    Join(p, "/")
  }

  // ---------------------------------------------------------- extensions

  /**
   * `Path::extension` of a file name: the text after its last dot, unless
   * there is no dot, the only dot starts the name, or the name is `..`.
   */
  function FileExtension(name: string): (e: Option<string>)
    ensures e.Some? ==> '.' !in e.value
    ensures e.Some? ==> EndsWith(name, "." + e.value)
    ensures '.' !in name ==> e.None?
  {
    if name == ".." then None
    else match RFindChar(name, '.')
      case None => None
      case Some(i) =>
        if i == 0 then None
        else
          var ext := name[i + 1..];
          assert name[|name| - |"." + ext|..] == "." + ext;
          Some(ext)
  }

  /** The extension of a path: that of its last component. */
  function Extension(p: Path): Option<string>
  {
    if p == [] then None else FileExtension(p[|p| - 1])
  }

  /** `detect_language`. */
  function DetectLanguage(p: Path): (l: Option<LanguageType>)
    ensures l != Some(Unknown)
  {
    match Extension(p)
    case Some("rs") => Some(Rust)
    case Some("py") => Some(Python)
    case Some("ts") => Some(TypeScript)
    case Some("tsx") => Some(TypeScript)
    case Some("js") => Some(TypeScript)
    case Some("jsx") => Some(TypeScript)
    case Some("c") => Some(Cpp)
    case Some("h") => Some(Cpp)
    case Some("cpp") => Some(Cpp)
    case Some("hpp") => Some(Cpp)
    case Some("go") => Some(Go)
    case _ => None
  }

  /** `get_language_name`: the code fence's language. */
  function LanguageName(p: Path): string
  {
    match Extension(p)
    case Some("rs") => "rust"
    case Some("py") => "python"
    case Some("ts") => "typescript"
    case Some("tsx") => "typescript"
    case Some("js") => "typescript"
    case Some("jsx") => "typescript"
    case Some("c") => "cpp"
    case Some("h") => "cpp"
    case Some("cpp") => "cpp"
    case Some("hpp") => "cpp"
    case Some("go") => "go"
    case _ => ""
  }

  /** The fence name of each language. */
  function FenceName(l: LanguageType): string
  {
    match l
    case Rust => "rust"
    case Python => "python"
    case TypeScript => "typescript"
    case Cpp => "cpp"
    case Go => "go"
    case Unknown => ""
  }

  /** A file gets a language exactly when it gets a fence name, and the two agree. */
  lemma DetectedIffNamed(p: Path)
    ensures DetectLanguage(p).Some? <==> LanguageName(p) != ""
    ensures DetectLanguage(p).Some? ==> LanguageName(p) == FenceName(DetectLanguage(p).value)
  {
    match Extension(p)
    case None =>
    case Some(e) =>
      if e in {"rs", "py", "ts", "tsx", "js", "jsx", "c", "h", "cpp", "hpp", "go"} {
      } else {
        assert DetectLanguage(p) == None && LanguageName(p) == "";
      }
  }

  /** The extension groups of each language. */
  lemma ExtensionGroups(p: Path)
    ensures DetectLanguage(p) == Some(TypeScript) <==> Extension(p) in {Some("ts"), Some("tsx"), Some("js"), Some("jsx")}
    ensures DetectLanguage(p) == Some(Cpp) <==> Extension(p) in {Some("c"), Some("h"), Some("cpp"), Some("hpp")}
    ensures DetectLanguage(p) == Some(Rust) <==> Extension(p) == Some("rs")
    ensures DetectLanguage(p) == Some(Python) <==> Extension(p) == Some("py")
    ensures DetectLanguage(p) == Some(Go) <==> Extension(p) == Some("go")
  {
  }

  /** A file `stem.ext` with a non-empty stem and a dotless extension has that extension. */
  lemma ExtensionOfFile(dir: Path, stem: string, ext: string)
    requires stem != [] && stem[0] != '.' && '.' !in ext
    ensures Extension(dir + [stem + "." + ext]) == Some(ext)
  {
    var name := stem + "." + ext;
    assert (dir + [name])[|dir + [name]| - 1] == name;
    assert name[|stem|] == '.';
    assert name[|stem| + 1..] == ext;
    forall j | |stem| < j < |name|
      ensures name[j] != '.'
    {
      assert name[j] == ext[j - |stem| - 1];
    }
    assert name != ".." by {
      assert name[0] == stem[0];
    }
    var i := RFindChar(name, '.');
    assert i == Some(|stem|);
  }

  /**
   * `parse_file`: the parser of the detected language, its result wrapped in
   * `Some`; a file of no supported language is `Ok(None)`.
   */
  function ParseFile<U, E>(p: Path, parse: LanguageType -> Result<U, E>): (r: Result<Option<U>, E>)
    ensures DetectLanguage(p).None? ==> r == Ok(None)
    ensures DetectLanguage(p).Some? ==> r == match parse(DetectLanguage(p).value)
                                             case Ok(u) => Ok(Some(u))
                                             case Err(e) => Err(e)
    ensures (r == Ok(None)) <==> DetectLanguage(p).None?
  {
    match DetectLanguage(p)
    case None => Ok(None)
    case Some(l) =>
      match parse(l)
      case Ok(u) => Ok(Some(u))
      case Err(e) => Err(e)
  }

  // ------------------------------------------------------------ ordering

  /** Lexicographic order of strings, by character. */
  predicate StrLe(a: string, b: string)
  {
    a == [] || (b != [] && (a[0] < b[0] || (a[0] == b[0] && StrLe(a[1..], b[1..]))))
  }

  /** Any two strings are ordered one way or the other. */
  lemma {:induction false} StrLeTotal(a: string, b: string)
    ensures StrLe(a, b) || StrLe(b, a)
  {
    if a != [] && b != [] && a[0] == b[0] {
      StrLeTotal(a[1..], b[1..]);
    }
  }

  /** `Path::cmp`: lexicographic order of the components. */
  predicate PathLe(a: Path, b: Path)
  {
    a == [] || (b != [] && ((a[0] != b[0] && StrLe(a[0], b[0])) || (a[0] == b[0] && PathLe(a[1..], b[1..]))))
  }

  /** Any two paths are ordered one way or the other. */
  lemma {:induction false} PathLeTotal(a: Path, b: Path)
    ensures PathLe(a, b) || PathLe(b, a)
  {
    if a != [] && b != [] {
      if a[0] == b[0] {
        PathLeTotal(a[1..], b[1..]);
      } else {
        StrLeTotal(a[0], b[0]);
      }
    }
  }

  /** A parsed and formatted file: its path and the formatter's result. */
  datatype Unit = Unit(path: Path, formatted: Result<string, string>)

  predicate SortedByPath(us: seq<Unit>)
  {
    forall k :: 0 < k < |us| ==> PathLe(us[k - 1].path, us[k].path)
  }

  /** `u` placed before the first unit of `us` it does not follow. */
  function Insert(u: Unit, us: seq<Unit>): (r: seq<Unit>)
    ensures |r| == |us| + 1
    ensures multiset(r) == multiset(us) + multiset{u}
    ensures r[0] == u || (us != [] && r[0] == us[0])
  {
    if us == [] then [u]
    else if PathLe(u.path, us[0].path) then [u] + us
    else
      assert us == [us[0]] + us[1..];
      [us[0]] + Insert(u, us[1..])
  }

  /** Inserting into a sorted sequence keeps it sorted. */
  lemma {:induction false} InsertSorted(u: Unit, us: seq<Unit>)
    requires SortedByPath(us)
    ensures SortedByPath(Insert(u, us))
  {
    if us != [] && !PathLe(u.path, us[0].path) {
      InsertSorted(u, us[1..]);
      PathLeTotal(u.path, us[0].path);
      var rest := Insert(u, us[1..]);
      assert rest[0] == u || rest[0] == us[1];
      assert Insert(u, us) == [us[0]] + rest;
    }
  }

  /** `sort_by(|a, b| a.path.cmp(&b.path))`, as an insertion sort. */
  function SortByPath(us: seq<Unit>): (r: seq<Unit>)
    ensures multiset(r) == multiset(us)
  {
    if us == [] then []
    else
      assert us == us[..|us| - 1] + [us[|us| - 1]];
      Insert(us[|us| - 1], SortByPath(us[..|us| - 1]))
  }

  /** The sort's result is in ascending path order. */
  lemma {:induction false} SortByPathSorted(us: seq<Unit>)
    ensures SortedByPath(SortByPath(us))
  {
    if us != [] {
      SortByPathSorted(us[..|us| - 1]);
      InsertSorted(us[|us| - 1], SortByPath(us[..|us| - 1]));
    }
  }

  // ------------------------------------------------------------- walking

  /** A walked entry: whether it is a file, and what `parse_file` made of it. */
  datatype WalkEntry = WalkEntry(isFile: bool, parsed: Result<Option<Unit>, string>)

  /** The files that parsed to a unit, in walk order; parse errors and unsupported files drop out. */
  function Parsed(entries: seq<WalkEntry>): seq<Unit>
  {
    if entries == [] then []
    else
      var e := entries[|entries| - 1];
      Parsed(entries[..|entries| - 1]) + (if e.isFile && e.parsed.Ok? && e.parsed.value.Some? then [e.parsed.value.value] else [])
  }

  /** The entry is a file that parsed to `u`. */
  predicate Produces(e: WalkEntry, u: Unit)
  {
    e.isFile && e.parsed == Ok(Some(u))
  }

  /** Some entry is a file that parsed to `u`. */
  predicate SomeProduces(entries: seq<WalkEntry>, u: Unit)
  {
    exists k :: 0 <= k < |entries| && Produces(entries[k], u)
  }

  /** Exactly the parsed units of file entries are collected. */
  lemma {:induction false} ParsedMembers(entries: seq<WalkEntry>, u: Unit)
    ensures u in Parsed(entries) <==> SomeProduces(entries, u)
  {
    if entries != [] {
      var front := entries[..|entries| - 1];
      ParsedMembers(front, u);
      ParsedLast(entries, u);
      ProducesSplit(entries, u);
    }
  }

  /** The last entry adds its unit, if any, after the others. */
  lemma ParsedLast(entries: seq<WalkEntry>, u: Unit)
    requires entries != []
    ensures u in Parsed(entries) <==> u in Parsed(entries[..|entries| - 1]) || Produces(entries[|entries| - 1], u)
  {
  }

  /** An entry producing `u` is among the front ones or is the last. */
  lemma ProducesSplit(entries: seq<WalkEntry>, u: Unit)
    requires entries != []
    ensures SomeProduces(entries, u) <==> SomeProduces(entries[..|entries| - 1], u) || Produces(entries[|entries| - 1], u)
  {
    var front := entries[..|entries| - 1];
    if exists k :: 0 <= k < |entries| && Produces(entries[k], u) {
      var k :| 0 <= k < |entries| && Produces(entries[k], u);
      if k < |front| {
        assert front[k] == entries[k];
      }
    }
    if exists k :: 0 <= k < |front| && Produces(front[k], u) {
      var k :| 0 <= k < |front| && Produces(front[k], u);
      assert entries[k] == front[k];
    }
  }

  /** The walk loop of `generate`. */
  method CollectUnits(entries: seq<WalkEntry>) returns (units: seq<Unit>)
    ensures units == Parsed(entries)
  {
    units := [];
    var i := 0;
    while i < |entries|
      invariant i <= |entries|
      invariant units == Parsed(entries[..i])
    {
      var e := entries[i];
      SeqTakeStep(entries, i);
      if e.isFile {
        match e.parsed {
          case Ok(Some(u)) => units := units + [u];
          case _ =>
        }
      }
      i := i + 1;
    }
    assert entries[..i] == entries;
  }

  // ---------------------------------------------------------- assembling

  datatype BankError = DirectoryNotFound(path: Path) | InvalidConfig(message: string) | Format(message: string)

  /** What the file system says of the root directory. */
  datatype RootState = Missing | NotDirectory | Directory

  /** `strip_prefix(root)` displayed, or the whole path when the root is not a prefix. */
  function RelativePath(root: Path, p: Path): string
  {
    if |root| <= |p| && p[..|root|] == root then Display(p[|root|..]) else Display(p)
  }

  /** The Markdown section of one file. */
  function Section(root: Path, u: Unit, formatted: string): string
  {
    "## " + RelativePath(root, u.path) + "\n" + "```" + LanguageName(u.path) + "\n" + (formatted + "```\n\n")
  }

  /** A section opens with the file's heading and code fence and closes with its formatted text and the fence. */
  lemma SectionShape(root: Path, u: Unit, formatted: string)
    ensures StartsWith(Section(root, u, formatted), "## " + RelativePath(root, u.path) + "\n```" + LanguageName(u.path) + "\n")
    ensures EndsWith(Section(root, u, formatted), formatted + "```\n\n")
  {
    var head := "## " + RelativePath(root, u.path) + "\n" + "```" + LanguageName(u.path) + "\n";
    assert head == "## " + RelativePath(root, u.path) + "\n```" + LanguageName(u.path) + "\n";
    StartsWithPrefix(head, formatted + "```\n\n");
    EndsWithSuffix(head, formatted + "```\n\n");
  }

  /** The sections of the units in order, or the first formatting error. */
  function Sections(root: Path, us: seq<Unit>): Result<string, BankError>
  {
    if us == [] then Ok([])
    else
      var u := us[|us| - 1];
      match Sections(root, us[..|us| - 1])
      case Err(e) => Err(e)
      case Ok(t) =>
        match u.formatted
        case Err(m) => Err(Format(m))
        case Ok(f) => Ok(t + Section(root, u, f))
  }

  /** Sections of two runs of units are the sections of the first, then of the second. */
  lemma {:induction false} SectionsAppend(root: Path, a: seq<Unit>, b: seq<Unit>)
    requires Sections(root, a).Ok? && Sections(root, b).Ok?
    ensures Sections(root, a + b) == Ok(Sections(root, a).value + Sections(root, b).value)
    decreases |b|
  {
    if b == [] {
      assert a + b == a;
      assert Sections(root, a).value + [] == Sections(root, a).value;
    } else {
      var front := b[..|b| - 1];
      var u := b[|b| - 1];
      SectionsLast(root, b);
      var sec := Section(root, u, u.formatted.value);
      var ab := a + front + [u];
      assert a + b == ab by {
        SeqSnoc(b);
        SeqAppendAssoc(a, front, [u]);
      }
      assert ab[..|ab| - 1] == a + front && ab[|ab| - 1] == u;
      SectionsAppend(root, a, front);
      calc {
        Sections(root, a + b);
        Sections(root, ab);
        { SectionsSnoc(root, ab); }
        Ok(Sections(root, a + front).value + sec);
        Ok(Sections(root, a).value + Sections(root, front).value + sec);
        { AppendAssoc(Sections(root, a).value, Sections(root, front).value, sec); }
        Ok(Sections(root, a).value + (Sections(root, front).value + sec));
        { SectionsSnoc(root, b); }
        Ok(Sections(root, a).value + Sections(root, b).value);
      }
    }
  }

  /** One more unit that formats adds its section to those before it. */
  lemma SectionsSnoc(root: Path, us: seq<Unit>)
    requires us != [] && Sections(root, us[..|us| - 1]).Ok? && us[|us| - 1].formatted.Ok?
    ensures Sections(root, us) ==
              Ok(Sections(root, us[..|us| - 1]).value + Section(root, us[|us| - 1], us[|us| - 1].formatted.value))
  {
  }

  /** A unit whose formatting fails after units that format fails the whole run with its error. */
  lemma {:induction false} SectionsFailAt(root: Path, us: seq<Unit>, i: nat, m: string)
    requires i < |us| && Sections(root, us[..i]).Ok? && us[i].formatted == Err(m)
    ensures Sections(root, us) == Err(Format(m))
    decreases |us|
  {
    var front := us[..|us| - 1];
    if i < |front| {
      assert front[..i] == us[..i] && front[i] == us[i];
      SectionsFailAt(root, front, i, m);
      assert Sections(root, us) == Err(Format(m)) by {
        assert Sections(root, front).Err?;
      }
    } else {
      assert front == us[..i] && us[|us| - 1] == us[i];
      assert Sections(root, us) == Err(Format(m)) by {
        assert Sections(root, front).Ok?;
      }
    }
  }

  /** Every unit's formatting succeeded. */
  predicate AllFormatted(us: seq<Unit>)
  {
    forall k :: 0 <= k < |us| ==> us[k].formatted.Ok?
  }

  /** The sections fail exactly when some unit's formatting fails. */
  lemma {:induction false} SectionsOk(root: Path, us: seq<Unit>)
    ensures Sections(root, us).Ok? <==> AllFormatted(us)
  {
    if us != [] {
      SectionsOk(root, us[..|us| - 1]);
      SectionsLast(root, us);
      AllFormattedLast(us);
    }
  }

  /** The sections of a non-empty run succeed when those before the last unit do and the last one formats. */
  lemma SectionsLast(root: Path, us: seq<Unit>)
    requires us != []
    ensures Sections(root, us).Ok? <==> Sections(root, us[..|us| - 1]).Ok? && us[|us| - 1].formatted.Ok?
  {
  }

  /** A non-empty run is all formatted when the units before the last are and the last is. */
  lemma AllFormattedLast(us: seq<Unit>)
    requires us != []
    ensures AllFormatted(us) <==> AllFormatted(us[..|us| - 1]) && us[|us| - 1].formatted.Ok?
  {
    var front := us[..|us| - 1];
    if AllFormatted(front) && us[|us| - 1].formatted.Ok? {
      forall k | 0 <= k < |us|
        ensures us[k].formatted.Ok?
      {
        if k < |front| {
          assert front[k] == us[k];
        }
      }
    }
    if AllFormatted(us) {
      forall k | 0 <= k < |front|
        ensures front[k].formatted.Ok?
      {
        assert front[k] == us[k];
      }
    }
  }

  /** The package file section. */
  function PackageSection(content: string): string
  {
    "## Package File\n\n" + "```toml\n" + content + "\n```\n\n"
  }

  /**
   * The document `generate` builds before its blank-line collapse: the
   * title, the package file when one was read, and the sections of the
   * units in path order.
   */
  function Document(root: Path, package: Result<Option<string>, string>, units: seq<Unit>): (r: Result<string, BankError>)
  {
    var title := "# Code Bank\n\n";
    var head := if package.Ok? && package.value.Some? then title + PackageSection(package.value.value) else title;
    match Sections(root, SortByPath(units))
    case Err(e) => Err(e)
    case Ok(t) => Ok(head + t)
  }

  /** Sorting keeps the same units. */
  lemma SortedMembers(units: seq<Unit>)
    ensures forall u :: u in units <==> u in SortByPath(units)
  {
    var sorted := SortByPath(units);
    forall u ensures u in units <==> u in sorted {
      assert u in units <==> u in multiset(units);
      assert u in sorted <==> u in multiset(sorted);
    }
  }

  /** Every document starts with the title. */
  lemma HeadStartsWithTitle(package: Result<Option<string>, string>, t: string)
    ensures var title := "# Code Bank\n\n";
      var head := if package.Ok? && package.value.Some? then title + PackageSection(package.value.value) else title;
      StartsWith(head + t, "# Code Bank")
  {
    var title := "# Code Bank\n\n";
    var head := if package.Ok? && package.value.Some? then title + PackageSection(package.value.value) else title;
    assert StartsWith(title, "# Code Bank") by {
      assert title[..11] == "# Code Bank";
    }
    assert head[..11] == "# Code Bank";
    assert (head + t)[..11] == head[..11];
  }

  /** The document starts with the title, and fails exactly when some file's formatting does. */
  lemma DocumentShape(root: Path, package: Result<Option<string>, string>, units: seq<Unit>)
    ensures Document(root, package, units).Ok? ==> StartsWith(Document(root, package, units).value, "# Code Bank")
    ensures Document(root, package, units).Ok? <==> forall u :: u in units ==> u.formatted.Ok?
  {
    var sorted := SortByPath(units);
    assert Sections(root, sorted).Ok? <==> forall u :: u in units ==> u.formatted.Ok? by {
      SectionsOk(root, sorted);
      SortedMembers(units);
      assert forall k :: 0 <= k < |sorted| ==> sorted[k] in sorted;
    }
    if Sections(root, sorted).Ok? {
      HeadStartsWithTitle(package, Sections(root, sorted).value);
    }
  }

  /**
   * `generate`: a missing root is `DirectoryNotFound`, a root that is not
   * a directory `InvalidConfig`, both before any output; otherwise the
   * document.
   */
  method Generate(rootState: RootState, root: Path, package: Result<Option<string>, string>,
                  entries: seq<WalkEntry>) returns (r: Result<string, BankError>)
    ensures rootState == Missing ==> r == Err(DirectoryNotFound(root))
    ensures rootState == NotDirectory ==> r == Err(InvalidConfig(Display(root) + " is not a directory"))
    ensures rootState == Directory ==> r == Document(root, package, Parsed(entries))
  {
    if rootState == Missing {
      return Err(DirectoryNotFound(root));
    }
    if rootState == NotDirectory {
      return Err(InvalidConfig(Display(root) + " is not a directory"));
    }
    var output := "# Code Bank\n\n";
    if package.Ok? && package.value.Some? {
      output := output + PackageSection(package.value.value);
    }
    var units := CollectUnits(entries);
    var sorted := SortByPath(units);
    ghost var head := output;
    var i := 0;
    while i < |sorted|
      invariant i <= |sorted|
      invariant Sections(root, sorted[..i]).Ok?
      invariant output == head + Sections(root, sorted[..i]).value
    {
      var u := sorted[i];
      SeqTakeStep(sorted, i);
      match u.formatted {
        case Err(m) =>
          SectionsFailAt(root, sorted, i, m);
          return Err(Format(m));
        case Ok(f) =>
          SectionsSnoc(root, sorted[..i + 1]);
          AppendAssoc(head, Sections(root, sorted[..i]).value, Section(root, u, f));
          output := output + Section(root, u, f);
      }
      i := i + 1;
    }
    SeqTakeAll(sorted);
    return Ok(output);
  }
}
