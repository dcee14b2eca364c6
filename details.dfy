/** The detail dispatchers of internal/frontend/tabs.go. Each dispatcher
    maps a tab name to the fetch routine it delegates to; the result is that
    call as a `Fetch` value (routine and arguments), or the dispatcher's own
    error. The routines themselves live elsewhere in the repository and are
    the fields of a `Backend`; `Run` performs a dispatched call against one. */
module Details {
  import opened Wrappers
  import Tabs

  datatype Url = Url(path: string)

  /** A data source, reduced to the one capability a dispatcher inspects:
      whether it is the full database (the proxy data source is not). */
  datatype DataSource = DataSource(isFullDB: bool)

  datatype ModuleInfo = ModuleInfo(modulePath: string, version: string, isRedistributable: bool)

  datatype LicenseMetadata = LicenseMetadata(types: seq<string>, filePath: string)

  datatype License = License(metadata: LicenseMetadata, contents: Bytes)

  datatype Readme = Readme(filepath: string, contents: string)

  datatype Documentation = Documentation(synopsis: string, html: string)

  datatype Package = Package(documentation: Documentation)

  /** A package in the pre-migration shape; its module path and version are
      those of its module info. */
  datatype LegacyPackage = LegacyPackage(
    path: string,
    v1Path: string,
    moduleInfo: ModuleInfo,
    licenses: seq<LicenseMetadata>,
    documentation: Documentation)

  /** A directory in the version-aware shape; `pkg` is None for a directory
      that is not a package (a nil Package pointer). `isRedistributable` is
      the directory's own flag (DirectoryMeta's, two embeddings deep); the
      module info is embedded one level deep, so Go's promoted selector
      `vdir.IsRedistributable` denotes `moduleInfo.isRedistributable`. */
  datatype VersionedDirectory = VersionedDirectory(
    moduleInfo: ModuleInfo,
    path: string,
    v1Path: string,
    isRedistributable: bool,
    licenses: seq<LicenseMetadata>,
    readme: Option<Readme>,
    pkg: Option<Package>)

  /** A directory in the pre-migration shape. Its legacy module info embeds
      the module info, so `dir.LegacyModuleInfo.IsRedistributable` and
      `dir.ModuleInfo` read the same `moduleInfo`. */
  datatype LegacyDirectory = LegacyDirectory(
    path: string,
    moduleInfo: ModuleInfo,
    legacyReadmeFilePath: string,
    legacyReadmeContents: string)

  datatype Error =
    | UnknownTab(tab: string)          // "BUG: unable to fetch details: unknown tab %q"
    | NotSupported                     // the proxy data source does not support the tab
    | NilPackage                       // vdir.Package is nil: a runtime panic in Go
    | DataSourceError(message: string) // a fetch routine's error, passed on unchanged

  /** A call to one of the fetch routines, with the arguments the dispatcher
      passes it. */
  datatype Fetch =
    | LegacyDocumentationDetails(pkg: LegacyPackage)
    | DocumentationDetails(doc: Documentation)
    | PackageVersionsDetails(ds: DataSource, path: string, v1Path: string, modulePath: string)
    | ModuleVersionsDetails(ds: DataSource, mi: ModuleInfo)
    | LegacyDirectoryDetails(ds: DataSource, dirPath: string, mi: ModuleInfo,
                             licenses: seq<LicenseMetadata>, includeDirPath: bool)
    | DirectoryDetails(ds: DataSource, vdir: VersionedDirectory, includeDirPath: bool)
    | LegacyCreateDirectory(dir: LegacyDirectory, licenses: seq<LicenseMetadata>, includeDirPath: bool)
    | ImportsDetails(ds: DataSource, path: string, modulePath: string, version: string)
    | ImportedByDetails(ds: DataSource, path: string, modulePath: string)
    | LegacyPackageLicensesDetails(ds: DataSource, path: string, modulePath: string, version: string)
    | LegacyPackageOverviewDetails(pkg: LegacyPackage, versioned: bool)
    | PackageOverviewDetails(vdir: VersionedDirectory, versioned: bool)
    | OverviewDetails(mi: ModuleInfo, readme: Option<Readme>, isRedistributable: bool, versioned: bool)
    | TransformedLicenses(modulePath: string, version: string, moduleLicenses: seq<License>)
    | ModuleLicensesDetails(ds: DataSource, modulePath: string, version: string)

  /** The helpers the module dispatcher needs to synthesize a directory:
      ModuleInfo.SeriesPath and licensesToMetadatas. */
  datatype Conversions = Conversions(
    seriesPath: ModuleInfo -> string,
    licensesToMetadatas: seq<License> -> seq<LicenseMetadata>)

  /** The fetch routines, as functions of their arguments. Those that return
      an error in Go return Failure(message) here. C is the type of the tab
      content, L that of a transformed license. */
  datatype Backend<C, L> = Backend(
    legacyFetchDocumentationDetails: LegacyPackage -> C,
    fetchDocumentationDetails: Documentation -> C,
    fetchPackageVersionsDetails: (DataSource, string, string, string) -> Result<C, string>,
    fetchModuleVersionsDetails: (DataSource, ModuleInfo) -> Result<C, string>,
    legacyFetchDirectoryDetails: (DataSource, string, ModuleInfo, seq<LicenseMetadata>, bool) -> Result<C, string>,
    fetchDirectoryDetails: (DataSource, VersionedDirectory, bool) -> Result<C, string>,
    legacyCreateDirectory: (LegacyDirectory, seq<LicenseMetadata>, bool) -> Result<C, string>,
    fetchImportsDetails: (DataSource, string, string, string) -> Result<C, string>,
    fetchImportedByDetails: (DataSource, string, string) -> Result<C, string>,
    legacyFetchPackageLicensesDetails: (DataSource, string, string, string) -> Result<C, string>,
    legacyFetchPackageOverviewDetails: (LegacyPackage, bool) -> Result<C, string>,
    fetchPackageOverviewDetails: (VersionedDirectory, bool) -> Result<C, string>,
    constructOverviewDetails: (ModuleInfo, Option<Readme>, bool, bool) -> Result<C, string>,
    transformLicenses: (string, string, seq<License>) -> seq<L>,
    legacyGetModuleLicenses: (DataSource, string, string) -> Result<seq<License>, string>)

  /** What a tab fetch hands back: routine-specific content, or the
      LicensesDetails value the dispatchers build themselves. */
  datatype Payload<C, L> = Content(content: C) | LicensesDetails(licenses: seq<L>)

  /** strings.ContainsRune. */
  function ContainsRune(s: string, c: char): (r: bool)
    ensures r <==> exists i :: 0 <= i < |s| && s[i] == c
  {
    if s == [] then false
    else if s[0] == c then true
    else
      var rest := ContainsRune(s[1..], c);
      assert forall i :: 1 <= i < |s| ==> s[i] == s[1..][i - 1];
      assert rest ==> exists i :: 0 <= i < |s| && s[i] == c by {
        if rest {
          var k :| 0 <= k < |s[1..]| && s[1..][k] == c;
          assert s[k + 1] == c;
        }
      }
      rest
  }

  /** A request is versioned iff its path contains '@'. */
  function UrlIsVersioned(url: Url): (r: bool)
    ensures r <==> exists i :: 0 <= i < |url.path| && url.path[i] == '@'
  {
    ContainsRune(url.path, '@')
  }

  lemma UrlIsVersionedExamples()
    ensures !UrlIsVersioned(Url("foo/bar"))
    ensures UrlIsVersioned(Url("foo/bar@v1.2.3"))
  {
    assert "foo/bar@v1.2.3"[7] == '@';
  }

  /** The tab names a dispatcher answers; every other name is an unknown tab. */
  const LegacyPackageCases: set<string> :=
    {"doc", "versions", "subdirectories", "imports", "importedby", "licenses", "overview"}
  const PackageCases: set<string> :=
    {"doc", "overview", "subdirectories", "versions", "imports", "importedby", "licenses"}
  const ModuleCases: set<string> := {"packages", "licenses", "versions", "overview"}
  const DirectoryCases: set<string> := {"overview", "subdirectories", "licenses"}
  const LegacyDirectoryCases: set<string> := {"overview", "subdirectories", "licenses"}

  /** legacyFetchDetailsForPackage. The imported-by tab needs the full
      database; against any other data source it fails before any call. */
  function LegacyFetchDetailsForPackage(url: Url, tab: string, ds: DataSource, pkg: LegacyPackage)
    : (r: Result<Fetch, Error>)
    ensures r == Failure(UnknownTab(tab)) <==> tab !in LegacyPackageCases
    ensures r == Failure(NotSupported) <==> tab == "importedby" && !ds.isFullDB
    ensures r.Failure? ==> r.error == UnknownTab(tab) || r.error == NotSupported
  {
    match tab
    case "doc" => Success(LegacyDocumentationDetails(pkg))
    case "versions" =>
      Success(PackageVersionsDetails(ds, pkg.path, pkg.v1Path, pkg.moduleInfo.modulePath))
    case "subdirectories" =>
      Success(LegacyDirectoryDetails(ds, pkg.path, pkg.moduleInfo, pkg.licenses, false))
    case "imports" =>
      Success(ImportsDetails(ds, pkg.path, pkg.moduleInfo.modulePath, pkg.moduleInfo.version))
    case "importedby" =>
      if !ds.isFullDB then Failure(NotSupported)
      else Success(ImportedByDetails(ds, pkg.path, pkg.moduleInfo.modulePath))
    case "licenses" =>
      Success(LegacyPackageLicensesDetails(ds, pkg.path, pkg.moduleInfo.modulePath, pkg.moduleInfo.version))
    case "overview" => Success(LegacyPackageOverviewDetails(pkg, UrlIsVersioned(url)))
    case _ => Failure(UnknownTab(tab))
  }

  /** fetchDetailsForPackage. No data-source check: imported-by is
      delegated whatever the data source is. */
  function FetchDetailsForPackage(url: Url, tab: string, ds: DataSource, vdir: VersionedDirectory)
    : (r: Result<Fetch, Error>)
    ensures r == Failure(UnknownTab(tab)) <==> tab !in PackageCases
    ensures r == Failure(NilPackage) <==> tab == "doc" && vdir.pkg.None?
    ensures r.Failure? ==> r.error == UnknownTab(tab) || r.error == NilPackage
  {
    match tab
    case "doc" =>
      if vdir.pkg.None? then Failure(NilPackage)
      else Success(DocumentationDetails(vdir.pkg.value.documentation))
    case "overview" => Success(PackageOverviewDetails(vdir, UrlIsVersioned(url)))
    case "subdirectories" => Success(DirectoryDetails(ds, vdir, false))
    case "versions" =>
      Success(PackageVersionsDetails(ds, vdir.path, vdir.v1Path, vdir.moduleInfo.modulePath))
    case "imports" =>
      Success(ImportsDetails(ds, vdir.path, vdir.moduleInfo.modulePath, vdir.moduleInfo.version))
    case "importedby" => Success(ImportedByDetails(ds, vdir.path, vdir.moduleInfo.modulePath))
    case "licenses" =>
      Success(LegacyPackageLicensesDetails(ds, vdir.path, vdir.moduleInfo.modulePath, vdir.moduleInfo.version))
    case _ => Failure(UnknownTab(tab))
  }

  /** The directory the module "packages" tab synthesizes when version-aware
      directories are active. */
  function ModuleDirectory(mi: ModuleInfo, licenses: seq<License>, readme: Option<Readme>, conv: Conversions)
    : (vdir: VersionedDirectory)
    ensures vdir.moduleInfo == mi && vdir.path == mi.modulePath
    ensures vdir.v1Path == conv.seriesPath(mi) && vdir.isRedistributable == mi.isRedistributable
    ensures vdir.licenses == conv.licensesToMetadatas(licenses) && vdir.readme == readme
    ensures vdir.pkg.None?
  {
    VersionedDirectory(mi, mi.modulePath, conv.seriesPath(mi), mi.isRedistributable,
                       conv.licensesToMetadatas(licenses), readme, None)
  }

  /** fetchDetailsForModule; `useDirectories` is the request's feature flag. */
  function FetchDetailsForModule(url: Url, tab: string, ds: DataSource, mi: ModuleInfo,
                                 licenses: seq<License>, readme: Option<Readme>,
                                 useDirectories: bool, conv: Conversions)
    : (r: Result<Fetch, Error>)
    ensures r.Failure? <==> tab !in ModuleCases
    ensures r.Failure? ==> r.error == UnknownTab(tab)
  {
    match tab
    case "packages" =>
      if useDirectories then Success(DirectoryDetails(ds, ModuleDirectory(mi, licenses, readme, conv), true))
      else Success(LegacyDirectoryDetails(ds, mi.modulePath, mi, conv.licensesToMetadatas(licenses), true))
    case "licenses" => Success(TransformedLicenses(mi.modulePath, mi.version, licenses))
    case "versions" => Success(ModuleVersionsDetails(ds, mi))
    case "overview" => Success(OverviewDetails(mi, readme, mi.isRedistributable, UrlIsVersioned(url)))
    case _ => Failure(UnknownTab(tab))
  }

  /** fetchDetailsForDirectory. */
  function FetchDetailsForDirectory(url: Url, tab: string, ds: DataSource, vdir: VersionedDirectory)
    : (r: Result<Fetch, Error>)
    ensures r.Failure? <==> tab !in DirectoryCases
    ensures r.Failure? ==> r.error == UnknownTab(tab)
  {
    match tab
    case "overview" =>
      Success(OverviewDetails(vdir.moduleInfo, vdir.readme, vdir.moduleInfo.isRedistributable,
                              UrlIsVersioned(url)))
    case "subdirectories" => Success(DirectoryDetails(ds, vdir, false))
    case "licenses" => Success(ModuleLicensesDetails(ds, vdir.moduleInfo.modulePath, vdir.moduleInfo.version))
    case _ => Failure(UnknownTab(tab))
  }

  /** legacyFetchDetailsForDirectory; the overview reads the legacy readme
      fields into a fresh Readme. */
  function LegacyFetchDetailsForDirectory(url: Url, tab: string, dir: LegacyDirectory,
                                          licenses: seq<License>, conv: Conversions)
    : (r: Result<Fetch, Error>)
    ensures r.Failure? <==> tab !in LegacyDirectoryCases
    ensures r.Failure? ==> r.error == UnknownTab(tab)
  {
    match tab
    case "overview" =>
      var readme := Readme(dir.legacyReadmeFilePath, dir.legacyReadmeContents);
      Success(OverviewDetails(dir.moduleInfo, Some(readme), dir.moduleInfo.isRedistributable,
                              UrlIsVersioned(url)))
    case "subdirectories" => Success(LegacyCreateDirectory(dir, conv.licensesToMetadatas(licenses), false))
    case "licenses" =>
      Success(TransformedLicenses(dir.moduleInfo.modulePath, dir.moduleInfo.version, licenses))
    case _ => Failure(UnknownTab(tab))
  }

  /** A routine's error message becomes a DataSourceError, unchanged. */
  function Propagate<C, L>(r: Result<C, string>): Result<Payload<C, L>, Error> {
    match r
    case Success(c) => Success(Content(c))
    case Failure(e) => Failure(DataSourceError(e))
  }

  /** Performs one dispatched call against the backend. */
  function Perform<C, L>(b: Backend<C, L>, f: Fetch): (r: Result<Payload<C, L>, Error>)
    ensures r.Failure? ==> r.error.DataSourceError?
  {
    match f
    case LegacyDocumentationDetails(pkg) => Success(Content(b.legacyFetchDocumentationDetails(pkg)))
    case DocumentationDetails(doc) => Success(Content(b.fetchDocumentationDetails(doc)))
    case PackageVersionsDetails(ds, path, v1Path, modulePath) =>
      Propagate(b.fetchPackageVersionsDetails(ds, path, v1Path, modulePath))
    case ModuleVersionsDetails(ds, mi) => Propagate(b.fetchModuleVersionsDetails(ds, mi))
    case LegacyDirectoryDetails(ds, dirPath, mi, licenses, includeDirPath) =>
      Propagate(b.legacyFetchDirectoryDetails(ds, dirPath, mi, licenses, includeDirPath))
    case DirectoryDetails(ds, vdir, includeDirPath) => Propagate(b.fetchDirectoryDetails(ds, vdir, includeDirPath))
    case LegacyCreateDirectory(dir, licenses, includeDirPath) =>
      Propagate(b.legacyCreateDirectory(dir, licenses, includeDirPath))
    case ImportsDetails(ds, path, modulePath, version) =>
      Propagate(b.fetchImportsDetails(ds, path, modulePath, version))
    case ImportedByDetails(ds, path, modulePath) => Propagate(b.fetchImportedByDetails(ds, path, modulePath))
    case LegacyPackageLicensesDetails(ds, path, modulePath, version) =>
      Propagate(b.legacyFetchPackageLicensesDetails(ds, path, modulePath, version))
    case LegacyPackageOverviewDetails(pkg, versioned) =>
      Propagate(b.legacyFetchPackageOverviewDetails(pkg, versioned))
    case PackageOverviewDetails(vdir, versioned) => Propagate(b.fetchPackageOverviewDetails(vdir, versioned))
    case OverviewDetails(mi, readme, isRedistributable, versioned) =>
      Propagate(b.constructOverviewDetails(mi, readme, isRedistributable, versioned))
    case TransformedLicenses(modulePath, version, licenses) =>
      Success(LicensesDetails(b.transformLicenses(modulePath, version, licenses)))
    case ModuleLicensesDetails(ds, modulePath, version) =>
      match b.legacyGetModuleLicenses(ds, modulePath, version)
      case Failure(e) => Failure(DataSourceError(e))
      case Success(licenses) => Success(LicensesDetails(b.transformLicenses(modulePath, version, licenses)))
  }

  /** The (interface{}, error) pair a dispatcher returns: its own error, or
      the result of the call it delegated to. A caller can tell the two
      apart: the dispatcher's errors come back unchanged, and a failure of
      the delegated call is always a data-source error. */
  function Run<C, L>(b: Backend<C, L>, plan: Result<Fetch, Error>): (r: Result<Payload<C, L>, Error>)
    ensures plan.Failure? ==> r == Failure(plan.error)
    ensures plan.Success? && r.Failure? ==> r.error.DataSourceError?
    ensures r.Failure? && !r.error.DataSourceError? <==> plan.Failure? && !plan.error.DataSourceError?
  {
    match plan
    case Failure(e) => Failure(e)
    case Success(f) => Perform(b, f)
  }

  // ---------------------------------------------------------------------------
  // Registry and dispatcher agree

  /** Both package dispatchers answer exactly the package catalog's names. */
  lemma PackageDispatchCoversRegistry()
    ensures LegacyPackageCases == Tabs.LookupOf(Tabs.PackageTabs).Keys
    ensures PackageCases == Tabs.LookupOf(Tabs.PackageTabs).Keys
  {
    Tabs.CatalogsWellFormed();
    Tabs.LookupOfCatalog(Tabs.PackageTabs);
  }

  /** The module dispatcher answers exactly the module catalog's names. */
  lemma ModuleDispatchCoversRegistry()
    ensures ModuleCases == Tabs.LookupOf(Tabs.ModuleTabs).Keys
  {
    Tabs.CatalogsWellFormed();
    Tabs.LookupOfCatalog(Tabs.ModuleTabs);
  }

  /** Both directory dispatchers answer exactly the directory tabs that are
      registered and not disabled. */
  lemma DirectoryDispatchCoversEnabledTabs(tab: string)
    ensures tab in DirectoryCases <==>
      tab in Tabs.LookupOf(Tabs.DirectoryTabs) && !Tabs.LookupOf(Tabs.DirectoryTabs)[tab].disabled
    ensures DirectoryCases == LegacyDirectoryCases
  {
    Tabs.CatalogsWellFormed();
    Tabs.DirectoryTabsOfShape(Tabs.PackageTabs);
    Tabs.LookupOfCatalog(Tabs.DirectoryTabs);
    if tab in Tabs.LookupOf(Tabs.DirectoryTabs) {
      Tabs.DirectoryLookupDisabled(tab);
    }
  }

  /** Whatever the fetch routines do, running a package dispatcher yields the
      unknown-tab error exactly for names outside the package catalog. */
  lemma PackageUnknownTabIffUnregistered<C, L>(b: Backend<C, L>, url: Url, tab: string, ds: DataSource,
                                               pkg: LegacyPackage, vdir: VersionedDirectory)
    ensures Run(b, LegacyFetchDetailsForPackage(url, tab, ds, pkg)) == Failure(UnknownTab(tab))
            <==> tab !in Tabs.LookupOf(Tabs.PackageTabs)
    ensures Run(b, FetchDetailsForPackage(url, tab, ds, vdir)) == Failure(UnknownTab(tab))
            <==> tab !in Tabs.LookupOf(Tabs.PackageTabs)
  {
    PackageDispatchCoversRegistry();
  }

  /** The same for the module dispatcher. */
  lemma ModuleUnknownTabIffUnregistered<C, L>(b: Backend<C, L>, url: Url, tab: string, ds: DataSource,
                                              mi: ModuleInfo, licenses: seq<License>, readme: Option<Readme>,
                                              useDirectories: bool, conv: Conversions)
    ensures Run(b, FetchDetailsForModule(url, tab, ds, mi, licenses, readme, useDirectories, conv))
              == Failure(UnknownTab(tab))
            <==> tab !in Tabs.LookupOf(Tabs.ModuleTabs)
  {
    ModuleDispatchCoversRegistry();
  }

  /** The same for both directory dispatchers, against the enabled tabs of
      the directory catalog. */
  lemma DirectoryUnknownTabIffNotEnabled<C, L>(b: Backend<C, L>, url: Url, tab: string, ds: DataSource,
                                               vdir: VersionedDirectory, dir: LegacyDirectory,
                                               licenses: seq<License>, conv: Conversions)
    ensures Run(b, FetchDetailsForDirectory(url, tab, ds, vdir)) == Failure(UnknownTab(tab))
            <==> !(tab in Tabs.LookupOf(Tabs.DirectoryTabs) && !Tabs.LookupOf(Tabs.DirectoryTabs)[tab].disabled)
    ensures Run(b, LegacyFetchDetailsForDirectory(url, tab, dir, licenses, conv)) == Failure(UnknownTab(tab))
            <==> !(tab in Tabs.LookupOf(Tabs.DirectoryTabs) && !Tabs.LookupOf(Tabs.DirectoryTabs)[tab].disabled)
  {
    DirectoryDispatchCoversEnabledTabs(tab);
  }

  // ---------------------------------------------------------------------------
  // Individual dispatch rules

  /** Legacy imported-by against a data source that is not the full
      database is the not-supported error whatever the backend, so the
      imported-by routine is never reached; against the full database the
      routine's own result comes back. */
  lemma LegacyImportedByNeedsFullDB<C, L>(b: Backend<C, L>, url: Url, ds: DataSource, pkg: LegacyPackage)
    ensures !ds.isFullDB ==> Run(b, LegacyFetchDetailsForPackage(url, "importedby", ds, pkg)) == Failure(NotSupported)
    ensures ds.isFullDB ==> Run(b, LegacyFetchDetailsForPackage(url, "importedby", ds, pkg))
                              == Propagate(b.fetchImportedByDetails(ds, pkg.path, pkg.moduleInfo.modulePath))
  {
  }

  /** The version-aware package dispatcher delegates imported-by on any data
      source. */
  lemma ImportedByUnchecked<C, L>(b: Backend<C, L>, url: Url, ds: DataSource, vdir: VersionedDirectory)
    ensures Run(b, FetchDetailsForPackage(url, "importedby", ds, vdir))
              == Propagate(b.fetchImportedByDetails(ds, vdir.path, vdir.moduleInfo.modulePath))
  {
  }

  /** The view a directory listing is computed over: the path listed, the
      module, its license metadata and whether directory paths are included. */
  datatype DirectoryRequest = DirectoryRequest(
    path: string, mi: ModuleInfo, licenses: seq<LicenseMetadata>, includeDirPath: bool)

  function DirectoryRequestOf(f: Fetch): Option<DirectoryRequest> {
    match f
    case DirectoryDetails(_, vdir, includeDirPath) =>
      Some(DirectoryRequest(vdir.path, vdir.moduleInfo, vdir.licenses, includeDirPath))
    case LegacyDirectoryDetails(_, dirPath, mi, licenses, includeDirPath) =>
      Some(DirectoryRequest(dirPath, mi, licenses, includeDirPath))
    case _ => None
  }

  /** The module "packages" tab lists the module path of the module, with the
      converted licenses and directory paths included, on both sides of the
      feature flag; with the flag on it goes through the version-aware routine
      with the synthesized directory, otherwise through the legacy one. */
  lemma ModulePackagesTabAgrees(url: Url, ds: DataSource, mi: ModuleInfo, licenses: seq<License>,
                                readme: Option<Readme>, conv: Conversions)
    ensures var on := FetchDetailsForModule(url, "packages", ds, mi, licenses, readme, true, conv);
            var off := FetchDetailsForModule(url, "packages", ds, mi, licenses, readme, false, conv);
            && on.Success? && off.Success?
            && on.value.DirectoryDetails? && on.value.ds == ds
            && on.value.vdir == ModuleDirectory(mi, licenses, readme, conv)
            && off.value.LegacyDirectoryDetails? && off.value.ds == ds
            && DirectoryRequestOf(on.value) == DirectoryRequestOf(off.value)
            && DirectoryRequestOf(on.value) ==
               Some(DirectoryRequest(mi.modulePath, mi, conv.licensesToMetadatas(licenses), true))
  {
  }

  /** The directory licenses tab fails with the database's error when the
      license lookup fails, and otherwise gives what the module licenses tab
      gives for the licenses found. */
  lemma DirectoryLicensesAgreeWithModule<C, L>(b: Backend<C, L>, url: Url, ds: DataSource,
                                               vdir: VersionedDirectory, readme: Option<Readme>,
                                               useDirectories: bool, conv: Conversions)
    ensures var found := b.legacyGetModuleLicenses(ds, vdir.moduleInfo.modulePath, vdir.moduleInfo.version);
            var r := Run(b, FetchDetailsForDirectory(url, "licenses", ds, vdir));
            && (found.Failure? ==> r == Failure(DataSourceError(found.error)))
            && (found.Success? ==>
                r == Run(b, FetchDetailsForModule(url, "licenses", ds, vdir.moduleInfo, found.value,
                                                  readme, useDirectories, conv)))
  {
  }

  /** The version-aware and legacy directory dispatchers build the same
      overview call for directories of the same module with the same readme,
      and it is the call the module overview tab makes for that module: all
      three pass the module's redistributability and the URL's versioned bit. */
  lemma DirectoryOverviewAgrees(url: Url, ds: DataSource, vdir: VersionedDirectory, dir: LegacyDirectory,
                                licenses: seq<License>, useDirectories: bool, conv: Conversions)
    requires vdir.moduleInfo == dir.moduleInfo
    requires vdir.readme == Some(Readme(dir.legacyReadmeFilePath, dir.legacyReadmeContents))
    ensures FetchDetailsForDirectory(url, "overview", ds, vdir)
              == LegacyFetchDetailsForDirectory(url, "overview", dir, licenses, conv)
    ensures FetchDetailsForDirectory(url, "overview", ds, vdir)
              == FetchDetailsForModule(url, "overview", ds, vdir.moduleInfo, licenses, vdir.readme,
                                       useDirectories, conv)
    ensures FetchDetailsForDirectory(url, "overview", ds, vdir)
              == Success(OverviewDetails(vdir.moduleInfo, vdir.readme, vdir.moduleInfo.isRedistributable,
                                         UrlIsVersioned(url)))
  {
  }
}
