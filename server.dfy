/** The page renderer of internal/frontend/server.go: parsing the template
    sets, building and serving error pages, and serving pages with the
    pre-rendered error page as fallback. Template parsing and execution,
    and http.StatusText, are library code; they are the fields of a
    `Library`. Parsing and execution may fail; the status text cannot. */
module Server {
  import opened Wrappers

  const StatusOK := 200
  const StatusInternalServerError := 500

  /** The library calls the server makes. T is a parsed template, D the
      data of pages other than the error page. */
  datatype Library<!T, !D> = Library(
    parseBase: string -> Result<T, string>,            // New("base.tmpl").Funcs(...).ParseFiles(file)
    parseGlob: (T, string) -> Result<T, string>,       // t.ParseGlob(pattern)
    parseFiles: (T, seq<string>) -> Result<T, string>, // t.ParseFiles(files...)
    execute: (T, Page<D>) -> Result<Bytes, string>,    // t.Execute(&buf, page)
    statusText: int -> string)                         // http.StatusText

  /** Fields shared by all pages. */
  datatype BasePageData = BasePageData(title: string, query: string, nonce: string)

  /** The data of the HTTP error page. */
  datatype ErrorPage = ErrorPage(base: BasePageData, message: string, secondaryMessage: string)

  datatype Page<D> = ErrorPageData(errorPage: ErrorPage) | OtherPage(data: D)

  datatype ParseError =
    | ParseFilesError(message: string)                   // "ParseFiles: %v"
    | ParseGlobError(glob: string, message: string)      // "ParseGlob(%q): %v"
    | ParsePagesError(files: seq<string>, message: string) // "ParseFiles(%v): %v"

  datatype RenderError =
    | ExecuteError(message: string)  // the template's Execute failed
    | NoTemplate(name: string)       // no template of that name: a nil template in Go

  datatype ServerError =
    | TemplateParseFailed(parse: ParseError)  // "error parsing templates: %v"
    | ErrorPageFailed(render: RenderError)    // "s.renderErrorPage(http.StatusInternalServerError, nil): %v"

  /** What a handler leaves on the ResponseWriter. A handler that writes a
      body without calling WriteHeader answers 200. */
  datatype Response = Response(status: int, body: Bytes)

  // ---------------------------------------------------------------------------
  // Template helpers and formatting

  /** The pluralize template function. */
  function Pluralize(i: int, s: string): (r: string)
    ensures |r| == if i == 1 then |s| else |s| + 1
    ensures r[..|s|] == s
    ensures i != 1 ==> r[|s|] == 's'
  {
    if i == 1 then s else s + "s"
  }

  function Digit(d: nat): (c: char)
    requires d < 10
    ensures '0' <= c <= '9'
  {
    ('0' as int + d) as char
  }

  /** The decimal digits of n, as the %d verb writes them. */
  function DecimalDigits(n: nat): (s: string)
    ensures |s| >= 1
    decreases n
  {
    if n < 10 then [Digit(n)] else DecimalDigits(n / 10) + [Digit(n % 10)]
  }

  /** %d writes at least one digit, only digits, and no leading zero. */
  lemma {:induction false} DecimalDigitsShape(n: nat)
    ensures var s := DecimalDigits(n);
      && |s| >= 1
      && (forall k :: 0 <= k < |s| ==> '0' <= s[k] <= '9')
      && (|s| > 1 ==> s[0] != '0')
    decreases n
  {
    if n >= 10 {
      DecimalDigitsShape(n / 10);
    }
  }

  function DigitValue(c: char): nat
    requires '0' <= c <= '9'
  {
    (c as int) - ('0' as int)
  }

  /** Reads a string of decimal digits back as a number. */
  function ParseDigits(s: string): nat
    requires forall k :: 0 <= k < |s| ==> '0' <= s[k] <= '9'
    decreases |s|
  {
    if s == [] then 0 else ParseDigits(s[..|s| - 1]) * 10 + DigitValue(s[|s| - 1])
  }

  /** The digits %d writes determine the number. */
  lemma {:induction false} DecimalDigitsRoundTrip(n: nat)
    ensures var s := DecimalDigits(n);
      (forall k :: 0 <= k < |s| ==> '0' <= s[k] <= '9') && ParseDigits(s) == n
    decreases n
  {
    DecimalDigitsShape(n);
    if n >= 10 {
      DecimalDigitsShape(n / 10);
      var s := DecimalDigits(n);
      assert s[..|s| - 1] == DecimalDigits(n / 10);
      DecimalDigitsRoundTrip(n / 10);
    }
  }

  /** fmt's %d for an int: a minus sign for negative values, then the
      digits of the magnitude, which read back as it. */
  function FormatInt(i: int): (s: string)
    ensures |s| >= 1
    ensures i < 0 <==> s[0] == '-'
    ensures var digits := if i < 0 then s[1..] else s;
      && |digits| >= 1
      && (forall k :: 0 <= k < |digits| ==> '0' <= digits[k] <= '9')
      && ParseDigits(digits) == if i < 0 then -i else i
  {
    var n := if i < 0 then -i else i;
    DecimalDigitsShape(n);
    DecimalDigitsRoundTrip(n);
    if i < 0 then "-" + DecimalDigits(n) else DecimalDigits(n)
  }

  /** `fmt.Sprintf("%d %s", status, http.StatusText(status))`. */
  function StatusInfo<T, D>(lib: Library<T, D>, status: int): string {
    FormatInt(status) + " " + lib.statusText(status)
  }

  lemma FormatInternalServerError()
    ensures FormatInt(StatusInternalServerError) == "500"
  {
    assert Digit(5) == '5' && Digit(0) == '0';
    assert DecimalDigits(5) == "5";
    assert DecimalDigits(50) == DecimalDigits(5) + [Digit(0)];
  }

  lemma StatusInfoInternalServerError<T, D>(lib: Library<T, D>)
    requires lib.statusText(StatusInternalServerError) == "Internal Server Error"
    ensures StatusInfo(lib, StatusInternalServerError) == "500 Internal Server Error"
  {
    FormatInternalServerError();
  }

  // ---------------------------------------------------------------------------
  // Template sets

  /** filepath.Join of two elements (without the path cleaning Join does). */
  function Join(a: string, b: string): string {
    a + "/" + b
  }

  /** The page files the server's template sets are made of. */
  datatype PageFile =
    | IndexTmpl | ErrorTmpl | SearchTmpl | LicensePolicyTmpl | DocTmpl | ImportedByTmpl
    | ImportsTmpl | LicensesTmpl | ModuleTmpl | OverviewTmpl | VersionsTmpl | DetailsTmpl

  function FileName(f: PageFile): string {
    match f
    case IndexTmpl => "index.tmpl"
    case ErrorTmpl => "error.tmpl"
    case SearchTmpl => "search.tmpl"
    case LicensePolicyTmpl => "license_policy.tmpl"
    case DocTmpl => "doc.tmpl"
    case ImportedByTmpl => "importedby.tmpl"
    case ImportsTmpl => "imports.tmpl"
    case LicensesTmpl => "licenses.tmpl"
    case ModuleTmpl => "module.tmpl"
    case OverviewTmpl => "overview.tmpl"
    case VersionsTmpl => "versions.tmpl"
    case DetailsTmpl => "details.tmpl"
  }

  /** A template set: its first file, which names the set, and the others. */
  datatype TemplateSet = TemplateSet(first: PageFile, others: seq<PageFile>) {
    function Key(): string { FileName(first) }
    function Files(): (files: seq<string>)
      ensures |files| == 1 + |others| && files[0] == Key()
      ensures forall k :: 0 <= k < |others| ==> files[k + 1] == FileName(others[k])
    {
      [Key()] + seq(|others|, k requires 0 <= k < |others| => FileName(others[k]))
    }
  }

  const HtmlSetCount := 11

  /** The i-th entry of the htmlSets table. */
  function HtmlSet(i: nat): TemplateSet
    requires i < HtmlSetCount
  {
    match i
    case 0 => TemplateSet(IndexTmpl, [])
    case 1 => TemplateSet(ErrorTmpl, [])
    case 2 => TemplateSet(SearchTmpl, [])
    case 3 => TemplateSet(LicensePolicyTmpl, [])
    case 4 => TemplateSet(DocTmpl, [DetailsTmpl])
    case 5 => TemplateSet(ImportedByTmpl, [DetailsTmpl])
    case 6 => TemplateSet(ImportsTmpl, [DetailsTmpl])
    case 7 => TemplateSet(LicensesTmpl, [DetailsTmpl])
    case 8 => TemplateSet(ModuleTmpl, [DetailsTmpl])
    case 9 => TemplateSet(OverviewTmpl, [DetailsTmpl])
    case _ => TemplateSet(VersionsTmpl, [DetailsTmpl])
  }

  /** The htmlSets table. Its ensures only spell out the comprehension of
      the body; they are there so that proofs about the table stay cheap,
      not as a property of the source. */
  function HtmlSets(): (sets: seq<TemplateSet>)
    ensures |sets| == HtmlSetCount
    ensures forall i :: 0 <= i < HtmlSetCount ==> sets[i] == HtmlSet(i)
  {
    seq(HtmlSetCount, i requires 0 <= i < HtmlSetCount => HtmlSet(i))
  }

  function FirstFiles(sets: seq<TemplateSet>): set<string> {
    set i | 0 <= i < |sets| :: sets[i].Key()
  }

  predicate DistinctFirstFiles(sets: seq<TemplateSet>) {
    forall i, j :: 0 <= i < j < |sets| ==> sets[i].Key() != sets[j].Key()
  }

  /** The page files of a set, joined under base/pages, in order. */
  function PagePaths(base: string, files: seq<string>): (paths: seq<string>)
    ensures |paths| == |files|
    ensures forall k :: 0 <= k < |files| ==> paths[k] == base + "/pages/" + files[k]
  {
    seq(|files|, k requires 0 <= k < |files| => Join(Join(base, "pages"), files[k]))
  }

  /** One iteration of the parsing loop: the base layout, then the helper
      fragments, then the set's page files, each step failing on its own. */
  function ParseSet<T, D>(lib: Library<T, D>, base: string, fileSet: TemplateSet): Result<T, ParseError> {
    match lib.parseBase(Join(base, "base.tmpl"))
    case Failure(e) => Failure(ParseFilesError(e))
    case Success(t) =>
      var helperGlob := Join(Join(base, "helpers"), "*.tmpl");
      match lib.parseGlob(t, helperGlob)
      case Failure(e) => Failure(ParseGlobError(helperGlob, e))
      case Success(t') =>
        var paths := PagePaths(base, fileSet.Files());
        match lib.parseFiles(t', paths)
        case Failure(e) => Failure(ParsePagesError(paths, e))
        case Success(t'') => Success(t'')
  }

  /** The loop over the remaining sets, with the map built so far: the first
      failure ends it with no map. */
  function ParseSets<T, D>(lib: Library<T, D>, base: string, sets: seq<TemplateSet>, acc: map<string, T>)
    : Result<map<string, T>, ParseError>
    decreases |sets|
  {
    if sets == [] then Success(acc)
    else match ParseSet(lib, base, sets[0])
      case Failure(e) => Failure(e)
      case Success(t) => ParseSets(lib, base, sets[1..], acc[sets[0].Key() := t])
  }

  function ParseTemplates<T, D>(lib: Library<T, D>, base: string): Result<map<string, T>, ParseError> {
    ParseSets(lib, base, HtmlSets(), map[])
  }

  /** The body of parsePageTemplates' loop for one set. */
  method ParseFileSet<T, D>(lib: Library<T, D>, base: string, fileSet: TemplateSet)
    returns (r: Result<T, ParseError>)
    ensures r == ParseSet(lib, base, fileSet)
  {
    var t := lib.parseBase(Join(base, "base.tmpl"));
    if t.Failure? {
      return Failure(ParseFilesError(t.error));
    }
    var helperGlob := Join(Join(base, "helpers"), "*.tmpl");
    var t' := lib.parseGlob(t.value, helperGlob);
    if t'.Failure? {
      return Failure(ParseGlobError(helperGlob, t'.error));
    }
    var pageFiles := fileSet.Files();
    var files: seq<string> := [];
    for j := 0 to |pageFiles|
      invariant |files| == j
      invariant forall k :: 0 <= k < j ==> files[k] == Join(Join(base, "pages"), pageFiles[k])
    {
      files := files + [Join(Join(base, "pages"), pageFiles[j])];
    }
    assert files == PagePaths(base, pageFiles);
    var t'' := lib.parseFiles(t'.value, files);
    if t''.Failure? {
      return Failure(ParsePagesError(files, t''.error));
    }
    r := Success(t''.value);
  }

  /** parsePageTemplates. */
  method ParsePageTemplates<T, D>(lib: Library<T, D>, base: string) returns (r: Result<map<string, T>, ParseError>)
    ensures r == ParseTemplates(lib, base)
  {
    var htmlSets := HtmlSets();
    var templates: map<string, T> := map[];
    for i := 0 to |htmlSets|
      invariant ParseSets(lib, base, htmlSets[i..], templates) == ParseTemplates(lib, base)
    {
      assert htmlSets[i..][0] == htmlSets[i] && htmlSets[i..][1..] == htmlSets[i + 1..];
      var t := ParseFileSet(lib, base, htmlSets[i]);
      if t.Failure? {
        return Failure(t.error);
      }
      templates := templates[htmlSets[i].Key() := t.value];
    }
    r := Success(templates);
  }

  /** The loop succeeds iff every set parses. */
  lemma {:induction false} ParseSetsSucceedsIff<T, D>(lib: Library<T, D>, base: string,
                                                     sets: seq<TemplateSet>, acc: map<string, T>)
    ensures ParseSets(lib, base, sets, acc).Success? <==>
            forall i :: 0 <= i < |sets| ==> ParseSet(lib, base, sets[i]).Success?
    decreases |sets|
  {
    if sets != [] && ParseSet(lib, base, sets[0]).Success? {
      ParseSetsSucceedsIff(lib, base, sets[1..], acc[sets[0].Key() := ParseSet(lib, base, sets[0]).value]);
      assert forall i :: 1 <= i < |sets| ==> sets[i] == sets[1..][i - 1];
    }
  }

  /** On failure the error is that of the first set that fails to parse. */
  lemma {:induction false} ParseSetsFirstError<T, D>(lib: Library<T, D>, base: string,
                                                    sets: seq<TemplateSet>, acc: map<string, T>)
    requires ParseSets(lib, base, sets, acc).Failure?
    ensures exists k :: (0 <= k < |sets| &&
      (forall j :: 0 <= j < k ==> ParseSet(lib, base, sets[j]).Success?) &&
      ParseSet(lib, base, sets[k]) == Failure(ParseSets(lib, base, sets, acc).error))
    decreases |sets|
  {
    if ParseSet(lib, base, sets[0]).Success? {
      var rest := sets[1..];
      var acc' := acc[sets[0].Key() := ParseSet(lib, base, sets[0]).value];
      ParseSetsFirstError(lib, base, rest, acc');
      var k :| 0 <= k < |rest| &&
        (forall j :: 0 <= j < k ==> ParseSet(lib, base, rest[j]).Success?) &&
        ParseSet(lib, base, rest[k]) == Failure(ParseSets(lib, base, rest, acc').error);
      assert forall j :: 1 <= j < k + 1 ==> sets[j] == rest[j - 1];
      assert sets[k + 1] == rest[k];
    } else {
      assert ParseSet(lib, base, sets[0]) == Failure(ParseSets(lib, base, sets, acc).error);
    }
  }

  /** On success the keys are the old keys and the first file of every set. */
  lemma {:induction false} ParseSetsKeys<T, D>(lib: Library<T, D>, base: string,
                                              sets: seq<TemplateSet>, acc: map<string, T>)
    requires ParseSets(lib, base, sets, acc).Success?
    ensures ParseSets(lib, base, sets, acc).value.Keys == acc.Keys + FirstFiles(sets)
    decreases |sets|
  {
    if sets != [] {
      var rest := sets[1..];
      var acc' := acc[sets[0].Key() := ParseSet(lib, base, sets[0]).value];
      ParseSetsKeys(lib, base, rest, acc');
      assert FirstFiles(sets) == {sets[0].Key()} + FirstFiles(rest) by {
        forall n | n in FirstFiles(sets) ensures n in {sets[0].Key()} + FirstFiles(rest) {
          var i :| 0 <= i < |sets| && sets[i].Key() == n;
          if i > 0 { assert rest[i - 1] == sets[i]; }
        }
        forall n | n in FirstFiles(rest) ensures n in FirstFiles(sets) {
          var i :| 0 <= i < |rest| && rest[i].Key() == n;
          assert sets[i + 1] == rest[i];
        }
      }
    }
  }

  /** A key that no later set overwrites keeps its value. */
  lemma {:induction false} ParseSetsKeeps<T, D>(lib: Library<T, D>, base: string,
                                               sets: seq<TemplateSet>, acc: map<string, T>, n: string)
    requires ParseSets(lib, base, sets, acc).Success?
    requires n in acc && n !in FirstFiles(sets)
    ensures n in ParseSets(lib, base, sets, acc).value
    ensures ParseSets(lib, base, sets, acc).value[n] == acc[n]
    decreases |sets|
  {
    if sets != [] {
      var rest := sets[1..];
      assert sets[0].Key() in FirstFiles(sets);
      forall i | 0 <= i < |rest| ensures rest[i].Key() != n {
        assert rest[i] == sets[i + 1];
      }
      ParseSetsKeeps(lib, base, rest, acc[sets[0].Key() := ParseSet(lib, base, sets[0]).value], n);
    }
  }

  /** With distinct first files, each set's key holds that set's template. */
  lemma {:induction false} ParseSetsValue<T, D>(lib: Library<T, D>, base: string,
                                               sets: seq<TemplateSet>, acc: map<string, T>, i: nat)
    requires DistinctFirstFiles(sets)
    requires ParseSets(lib, base, sets, acc).Success?
    requires i < |sets|
    ensures ParseSet(lib, base, sets[i]).Success?
    ensures sets[i].Key() in ParseSets(lib, base, sets, acc).value
    ensures ParseSets(lib, base, sets, acc).value[sets[i].Key()] == ParseSet(lib, base, sets[i]).value
    decreases |sets|
  {
    var rest := sets[1..];
    var acc' := acc[sets[0].Key() := ParseSet(lib, base, sets[0]).value];
    assert forall j :: 0 <= j < |rest| ==> rest[j] == sets[j + 1];
    if i == 0 {
      forall j | 0 <= j < |rest| ensures rest[j].Key() != sets[0].Key() {
        assert rest[j] == sets[j + 1];
      }
      ParseSetsKeeps(lib, base, rest, acc', sets[0].Key());
    } else {
      ParseSetsValue(lib, base, rest, acc', i - 1);
    }
  }

  /** Each page file's position in the enumeration. */
  function Ordinal(f: PageFile): nat {
    match f
    case IndexTmpl => 0
    case ErrorTmpl => 1
    case SearchTmpl => 2
    case LicensePolicyTmpl => 3
    case DocTmpl => 4
    case ImportedByTmpl => 5
    case ImportsTmpl => 6
    case LicensesTmpl => 7
    case ModuleTmpl => 8
    case OverviewTmpl => 9
    case VersionsTmpl => 10
    case DetailsTmpl => 11
  }

  /** The page file a name denotes, if any. */
  function PageFileNamed(name: string): Option<PageFile> {
    match name
    case "index.tmpl" => Some(IndexTmpl)
    case "error.tmpl" => Some(ErrorTmpl)
    case "search.tmpl" => Some(SearchTmpl)
    case "license_policy.tmpl" => Some(LicensePolicyTmpl)
    case "doc.tmpl" => Some(DocTmpl)
    case "importedby.tmpl" => Some(ImportedByTmpl)
    case "imports.tmpl" => Some(ImportsTmpl)
    case "licenses.tmpl" => Some(LicensesTmpl)
    case "module.tmpl" => Some(ModuleTmpl)
    case "overview.tmpl" => Some(OverviewTmpl)
    case "versions.tmpl" => Some(VersionsTmpl)
    case "details.tmpl" => Some(DetailsTmpl)
    case _ => None
  }

  /** A page file's name denotes that file. */
  lemma FileNameRoundTrip(f: PageFile)
    ensures PageFileNamed(FileName(f)) == Some(f)
  {
  }

  /** Different page files have different names. */
  lemma FileNameInjective(f: PageFile, g: PageFile)
    requires f != g
    ensures FileName(f) != FileName(g)
  {
    FileNameRoundTrip(f);
    FileNameRoundTrip(g);
  }

  /** The i-th set of the table starts with the i-th page file. */
  lemma HtmlSetOrdinal(i: nat)
    requires i < HtmlSetCount
    ensures Ordinal(HtmlSet(i).first) == i
  {
  }

  /** No two sets of the table share a key. */
  lemma HtmlSetsDistinct()
    ensures DistinctFirstFiles(HtmlSets())
  {
    forall i, j | 0 <= i < j < |HtmlSets()| ensures HtmlSets()[i].Key() != HtmlSets()[j].Key() {
      HtmlSetOrdinal(i);
      HtmlSetOrdinal(j);
      FileNameInjective(HtmlSet(i).first, HtmlSet(j).first);
    }
  }

  /** The table's keys are the eleven page names. */
  lemma HtmlSetsKeys()
    ensures FirstFiles(HtmlSets()) == {"index.tmpl", "error.tmpl", "search.tmpl", "license_policy.tmpl",
      "doc.tmpl", "importedby.tmpl", "imports.tmpl", "licenses.tmpl", "module.tmpl",
      "overview.tmpl", "versions.tmpl"}
  {
    var sets := HtmlSets();
    var names := {"index.tmpl", "error.tmpl", "search.tmpl", "license_policy.tmpl",
      "doc.tmpl", "importedby.tmpl", "imports.tmpl", "licenses.tmpl", "module.tmpl",
      "overview.tmpl", "versions.tmpl"};
    forall n | n in FirstFiles(sets) ensures n in names {
      var i :| 0 <= i < |sets| && sets[i].Key() == n;
      assert sets[i] == HtmlSet(i);
    }
    forall i | 0 <= i < HtmlSetCount ensures sets[i].Key() in FirstFiles(sets) {
    }
    assert sets[0].Key() == "index.tmpl" && sets[1].Key() == "error.tmpl";
    assert sets[2].Key() == "search.tmpl" && sets[3].Key() == "license_policy.tmpl";
    assert sets[4].Key() == "doc.tmpl" && sets[5].Key() == "importedby.tmpl";
    assert sets[6].Key() == "imports.tmpl" && sets[7].Key() == "licenses.tmpl";
    assert sets[8].Key() == "module.tmpl" && sets[9].Key() == "overview.tmpl";
    assert sets[10].Key() == "versions.tmpl";
  }

  /** parsePageTemplates succeeds iff every set parses; then its keys are
      exactly the sets' keys and each holds its set's template; otherwise
      the error is that of the first set that failed. */
  lemma ParseTemplatesShape<T, D>(lib: Library<T, D>, base: string)
    ensures ParseTemplates(lib, base).Success? <==>
            forall i :: 0 <= i < HtmlSetCount ==> ParseSet(lib, base, HtmlSet(i)).Success?
    ensures ParseTemplates(lib, base).Success? ==>
            ParseTemplates(lib, base).value.Keys == FirstFiles(HtmlSets())
    ensures ParseTemplates(lib, base).Success? ==>
            forall i :: 0 <= i < HtmlSetCount ==>
              ParseTemplates(lib, base).value[HtmlSet(i).Key()] == ParseSet(lib, base, HtmlSet(i)).value
    ensures ParseTemplates(lib, base).Failure? ==>
            exists k :: (0 <= k < HtmlSetCount &&
              (forall j :: 0 <= j < k ==> ParseSet(lib, base, HtmlSet(j)).Success?) &&
              ParseSet(lib, base, HtmlSet(k)) == Failure(ParseTemplates(lib, base).error))
  {
    var sets := HtmlSets();
    ParseSetsSucceedsIff(lib, base, sets, map[]);
    if ParseTemplates(lib, base).Success? {
      ParseSetsKeys(lib, base, sets, map[]);
      HtmlSetsDistinct();
      forall i | 0 <= i < HtmlSetCount
        ensures ParseTemplates(lib, base).value[HtmlSet(i).Key()] == ParseSet(lib, base, HtmlSet(i)).value
      {
        ParseSetsValue(lib, base, sets, map[], i);
      }
    } else {
      ParseSetsFirstError(lib, base, sets, map[]);
    }
  }

  // ---------------------------------------------------------------------------
  // Rendering

  /** renderPage: execute the named template of the set with the page. */
  function RenderPage<T, D>(lib: Library<T, D>, templates: Option<map<string, T>>,
                            templateName: string, page: Page<D>): Result<Bytes, RenderError> {
    if templates.None? || templateName !in templates.value then Failure(NoTemplate(templateName))
    else match lib.execute(templates.value[templateName], page)
      case Success(buf) => Success(buf)
      case Failure(e) => Failure(ExecuteError(e))
  }

  /** Rendering succeeds iff the set holds the named template and executing
      it succeeds, and then gives exactly the execution's bytes; a missing
      template (or a nil set) is the only cause of NoTemplate, and an
      execution failure keeps the template's message. */
  lemma RenderPageOutcome<T, D>(lib: Library<T, D>, templates: Option<map<string, T>>,
                                templateName: string, page: Page<D>)
    ensures var r := RenderPage(lib, templates, templateName, page);
      && (r.Failure? && r.error.NoTemplate? <==> templates.None? || templateName !in templates.value)
      && (r.Failure? && r.error.NoTemplate? ==> r.error.name == templateName)
      && (r.Success? <==>
          templates.Some? && templateName in templates.value
          && lib.execute(templates.value[templateName], page).Success?)
      && (r.Success? ==> r.value == lib.execute(templates.value[templateName], page).value)
      && (r.Failure? && r.error.ExecuteError? ==>
          lib.execute(templates.value[templateName], page) == Failure(r.error.message))
  {
  }

  /** Rendering reads the named template only: two template sets that agree
      on that name (both lack it, or both hold the same template) render
      every page alike. */
  lemma RenderPageUsesNamedTemplate<T, D>(lib: Library<T, D>, t1: Option<map<string, T>>,
                                          t2: Option<map<string, T>>, templateName: string, page: Page<D>)
    requires (t1.Some? && templateName in t1.value) <==> (t2.Some? && templateName in t2.value)
    requires t1.Some? && templateName in t1.value ==> t1.value[templateName] == t2.value[templateName]
    ensures RenderPage(lib, t1, templateName, page) == RenderPage(lib, t2, templateName, page)
  {
  }

  /** The page renderErrorPage renders: without a page, one whose message is
      the status line; in every case the base data is replaced by just the
      status line as title, which clears the query and the nonce. */
  function ErrorPageFor<T, D>(lib: Library<T, D>, status: int, page: Option<ErrorPage>): (p: ErrorPage)
    ensures p.base == BasePageData(StatusInfo(lib, status), "", "")
    ensures page.None? ==> p.message == StatusInfo(lib, status) && p.secondaryMessage == ""
    ensures page.Some? ==> p.message == page.value.message && p.secondaryMessage == page.value.secondaryMessage
  {
    var statusInfo := StatusInfo(lib, status);
    var p := if page.None? then ErrorPage(BasePageData("", "", ""), statusInfo, "") else page.value;
    p.(base := BasePageData(statusInfo, "", ""))
  }

  /** renderErrorPage: the error template over that page. */
  function RenderErrorPage<T, D>(lib: Library<T, D>, templates: Option<map<string, T>>,
                                 status: int, page: Option<ErrorPage>): Result<Bytes, RenderError>
  {
    RenderPage(lib, templates, "error.tmpl", ErrorPageData(ErrorPageFor(lib, status, page)))
  }

  /** The page data every error page is rendered with depends on the
      status and the given messages only: the query and nonce the caller's
      page carried never reach the template. */
  lemma ErrorPageIgnoresBase<T, D>(lib: Library<T, D>, status: int, p1: ErrorPage, p2: ErrorPage)
    requires p1.message == p2.message && p1.secondaryMessage == p2.secondaryMessage
    ensures ErrorPageFor(lib, status, Some(p1)) == ErrorPageFor(lib, status, Some(p2))
  {
  }

  /** filepath.Join(staticPath, "html"). */
  function TemplateDir(staticPath: string): string {
    Join(staticPath, "html")
  }

  class Server<T, D> {
    const templateDir: string
    const reloadTemplates: bool
    var errorPage: Bytes
    var templates: Option<map<string, T>>

    /** The struct literal of NewServer: the error page is still empty. */
    constructor (templateDir: string, reloadTemplates: bool, templates: Option<map<string, T>>)
      ensures this.templateDir == templateDir && this.reloadTemplates == reloadTemplates
      ensures this.templates == templates && this.errorPage == []
    {
      this.templateDir := templateDir;
      this.reloadTemplates := reloadTemplates;
      this.templates := templates;
      this.errorPage := [];
    }

    /** serveErrorPage: the rendered error page with the caller's status,
        or the stored error page with status 500 if rendering fails. */
    method ServeErrorPage(lib: Library<T, D>, status: int, page: Option<ErrorPage>) returns (resp: Response)
      ensures var r := RenderErrorPage(lib, templates, status, page);
        && (r.Success? ==> resp == Response(status, r.value))
        && (r.Failure? ==> resp == Response(StatusInternalServerError, errorPage))
    {
      var buf := RenderErrorPage(lib, templates, status, page);
      var code := status;
      var body: Bytes;
      if buf.Failure? {
        body := errorPage;
        code := StatusInternalServerError;
      } else {
        body := buf.value;
      }
      resp := Response(code, body);
    }

    /** servePage. With reloading on, the template set is replaced by a
        fresh parse (nil if it fails, and then the answer is a bare 500 and
        nothing is rendered). The page is then rendered: its bytes are
        written unchanged, or on failure status 500 and the stored error
        page. */
    method ServePage(lib: Library<T, D>, templateName: string, page: Page<D>) returns (resp: Response)
      modifies this
      ensures errorPage == old(errorPage)
      ensures !reloadTemplates ==> templates == old(templates)
      ensures reloadTemplates && ParseTemplates(lib, templateDir).Success? ==>
        templates == Some(ParseTemplates(lib, templateDir).value)
      ensures reloadTemplates && ParseTemplates(lib, templateDir).Failure? ==>
        templates.None? && resp == Response(StatusInternalServerError, [])
      ensures !(reloadTemplates && ParseTemplates(lib, templateDir).Failure?) ==>
        var r := RenderPage(lib, templates, templateName, page);
        && (r.Success? ==> resp == Response(StatusOK, r.value))
        && (r.Failure? ==> resp == Response(StatusInternalServerError, errorPage))
    {
      if reloadTemplates {
        var parsed := ParsePageTemplates(lib, templateDir);
        if parsed.Failure? {
          templates := None;
          return Response(StatusInternalServerError, []);
        }
        templates := Some(parsed.value);
      }
      var buf := RenderPage(lib, templates, templateName, page);
      if buf.Failure? {
        resp := Response(StatusInternalServerError, errorPage);
      } else {
        resp := Response(StatusOK, buf.value);
      }
    }
  }

  /** What NewServer builds from the static directory: the parsed
      templates and the 500 page rendered without a page, or the first
      error. */
  function NewServerResult<T, D>(lib: Library<T, D>, staticPath: string): Result<(map<string, T>, Bytes), ServerError> {
    match ParseTemplates(lib, TemplateDir(staticPath))
    case Failure(e) => Failure(TemplateParseFailed(e))
    case Success(ts) =>
      match RenderErrorPage(lib, Some(ts), StatusInternalServerError, None)
      case Failure(e) => Failure(ErrorPageFailed(e))
      case Success(page) => Success((ts, page))
  }

  /** NewServer: parse the template sets, build the server around them,
      render the 500 page with the server's templates and store it. Either
      failure fails construction. */
  method NewServer<T, D>(lib: Library<T, D>, staticPath: string, reloadTemplates: bool)
    returns (r: Result<Server<T, D>, ServerError>)
    ensures match NewServerResult(lib, staticPath)
      case Failure(e) => r == Failure(e)
      case Success((ts, page)) =>
        && r.Success? && fresh(r.value)
        && r.value.templateDir == TemplateDir(staticPath)
        && r.value.reloadTemplates == reloadTemplates
        && r.value.templates == Some(ts)
        && r.value.errorPage == page
  {
    var templateDir := TemplateDir(staticPath);
    var ts := ParsePageTemplates(lib, templateDir);
    if ts.Failure? {
      return Failure(TemplateParseFailed(ts.error));
    }
    var s := new Server(templateDir, reloadTemplates, Some(ts.value));
    var errorPageBytes := RenderErrorPage(lib, s.templates, StatusInternalServerError, None);
    if errorPageBytes.Failure? {
      return Failure(ErrorPageFailed(errorPageBytes.error));
    }
    s.errorPage := errorPageBytes.value;
    r := Success(s);
  }

  /** The 500 page NewServer renders, given the usual status text: titled
      and headed "500 Internal Server Error", with empty query, nonce and
      secondary message. */
  function StartupErrorPage(): ErrorPage {
    ErrorPage(BasePageData("500 Internal Server Error", "", ""), "500 Internal Server Error", "")
  }

  /** Once parsing succeeds the error template is always present, and
      NewServer succeeds iff executing it over the 500 page does; the server
      then stores the parsed set and exactly those bytes. */
  lemma StartupShape<T, D>(lib: Library<T, D>, staticPath: string)
    requires lib.statusText(StatusInternalServerError) == "Internal Server Error"
    requires ParseTemplates(lib, TemplateDir(staticPath)).Success?
    ensures "error.tmpl" in ParseTemplates(lib, TemplateDir(staticPath)).value
    ensures var out := lib.execute(ParseTemplates(lib, TemplateDir(staticPath)).value["error.tmpl"],
                                   ErrorPageData(StartupErrorPage()));
      && (NewServerResult(lib, staticPath).Success? <==> out.Success?)
      && (out.Success? ==> NewServerResult(lib, staticPath) == Success((ParseTemplates(lib, TemplateDir(staticPath)).value, out.value)))
  {
    ErrorTemplateParsed(lib, TemplateDir(staticPath));
    StatusInfoInternalServerError(lib);
    assert ErrorPageFor(lib, StatusInternalServerError, None) == StartupErrorPage();
  }

  /** A parsed set always holds the error template. */
  lemma ErrorTemplateParsed<T, D>(lib: Library<T, D>, base: string)
    requires ParseTemplates(lib, base).Success?
    ensures "error.tmpl" in ParseTemplates(lib, base).value
  {
    ParseTemplatesShape(lib, base);
    HtmlSetsKeys();
  }
}
