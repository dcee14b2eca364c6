# pkgsite frontend: tab registry, detail dispatch and page rendering

This project models two files of the pkgsite frontend server in Dafny and proves properties about them.

`internal/frontend/tabs.go` defines three tab catalogs:

- the package tabs;
- the module tabs;
- the directory tabs, which start-up derives from the package tabs by disabling every name missing from an allow-list.

It also defines the start-up code that fills a name-to-settings lookup for each catalog. Five dispatchers each map a tab name in a request to the fetch routine that computes that tab's content.

`internal/frontend/server.go` covers rendering:

- it parses eleven template sets, each keyed by its first page file;
- it renders error pages;
- it serves pages, optionally re-parsing the templates on every request;
- when rendering fails, it falls back to a 500 page rendered once at start-up.

Module layout:

- `wrappers.dfy`: `Option` and `Result`.
- `tabs.dfy` (module `Tabs`): the catalogs as sequence constants and the allow-list as a map. The package-level variables and `init` form the class `TabRegistry`. It has an array for the directory slice and map fields for the lookups, and `Init` fills them with loops.
- `details.dfy` (module `Details`): the five dispatchers as functions.
  - Each returns the call it delegates to as a `Fetch` value (routine and arguments), or its own error.
  - The fetch routines are not visible. They are the arrow-typed fields of a `Backend`, and `Run` performs a dispatched call against one.
  - Statements such as "never calls the imported-by routine" are therefore statements about the returned value, valid for every backend.
- `server.dfy` (module `Server`): the library calls are the fields of a `Library` record. These are template parsing and execution, which may fail, and `http.StatusText`, which cannot.
  - The template-set loop is a method proved against the function `ParseTemplates`.
  - The server is a class whose `ServePage` reassigns its template field.
  - `NewServer` parses the templates, builds the class with an empty error page, renders the 500 page with the server's templates, and then stores it into the `errorPage` field.

A failed reload does not keep the previous template set: the code assigns the nil result of the failed parse to the field (server.go:133), and `Server.Server.ServePage` models that.

## Model

| member | source | states |
|---|---|---|
| Tabs.DirectoryTabsOfShape | internal/frontend/tabs.go:121-130 | the derived directory catalog has the package catalog's length and order; each entry equals its package entry except perhaps in Disabled; an entry is disabled iff the package entry was or its name is not allow-listed; the names are the same |
| Tabs.PackageTabsEnabled | internal/frontend/tabs.go:39-80 | no package tab is disabled |
| Tabs.PackageTabNames | internal/frontend/tabs.go:39-80 | the seven package tab names are distinct and are doc, overview, subdirectories, versions, imports, importedby, licenses |
| Tabs.ModuleTabNames | internal/frontend/tabs.go:86-110 | the four module tab names are distinct and are overview, packages, versions, licenses |
| Tabs.CatalogsWellFormed | internal/frontend/tabs.go:39-130 | no package tab is disabled; names are distinct in all three catalogs; the package and module name sets are the literal ones |
| Tabs.DirectoryTabsDisabled | internal/frontend/tabs.go:114-130 | a directory tab is disabled iff its name is none of licenses, overview, subdirectories; doc, versions, imports and importedby are disabled |
| Tabs.InsertKeys | internal/frontend/tabs.go:131-139 | filling a map from a catalog adds exactly the catalog's names as keys |
| Tabs.InsertLast | internal/frontend/tabs.go:131-139 | a name maps to the last catalog entry carrying it |
| Tabs.InsertOther | internal/frontend/tabs.go:131-139 | a name no entry carries keeps its old presence and value |
| Tabs.LookupOfCatalog | internal/frontend/tabs.go:131-139 | for distinct names the lookup's keys are exactly the catalog's names and each name maps to its entry |
| Tabs.LookupFindsEntry | internal/frontend/tabs.go:131-139 | a name is in the lookup iff some entry carries it, and then it maps to that entry |
| Tabs.DirectoryLookupDisabled | internal/frontend/tabs.go:114-136 | in the directory lookup a present name maps to its entry, which is disabled iff the name is not allow-listed |
| Tabs.FillLookup | internal/frontend/tabs.go:131-139 | the `m[d.Name] = d` loop leaves exactly the map `Insert` specifies |
| Tabs.TabRegistry.constructor | internal/frontend/tabs.go:38-112 | the declarations: the literal catalogs, a fresh zeroed directory slice of the package catalog's length, empty lookups |
| Tabs.TabRegistry.Init | internal/frontend/tabs.go:121-140 | the package and module catalogs are unchanged; the directory slice is the derived catalog; each lookup is its old contents filled from its catalog in order |
| Tabs.Startup | internal/frontend/tabs.go:38-140 | declaring the variables and running init gives the initialized registry, whose three lookups have exactly their catalogs' names as keys |
| Details.ContainsRune | internal/frontend/tabs.go:193-195 | strings.ContainsRune: true iff some index holds the character |
| Details.UrlIsVersioned | internal/frontend/tabs.go:193-195 | a URL is versioned iff its path contains '@' |
| Details.UrlIsVersionedExamples | internal/frontend/tabs.go:193-195 | "foo/bar" is not versioned and "foo/bar@v1.2.3" is |
| Details.LegacyFetchDetailsForPackage | internal/frontend/tabs.go:142-168 | unknown-tab error iff the tab is not one of its seven cases; not-supported iff the tab is importedby and the source is not the full database; no other error |
| Details.FetchDetailsForPackage | internal/frontend/tabs.go:170-191 | unknown-tab error iff the tab is not one of its seven cases; the nil-package error iff doc is asked of a directory without a package; no other error |
| Details.ModuleDirectory | internal/frontend/tabs.go:203-215 | the synthesized directory has the module's path, series path, redistributability, converted licenses and readme, and no package |
| Details.FetchDetailsForModule | internal/frontend/tabs.go:197-227 | fails iff the tab is not among packages, licenses, versions, overview, and then with the unknown-tab error |
| Details.FetchDetailsForDirectory | internal/frontend/tabs.go:229-248 | fails iff the tab is not among overview, subdirectories, licenses, and then with the unknown-tab error |
| Details.LegacyFetchDetailsForDirectory | internal/frontend/tabs.go:250-268 | fails iff the tab is not among overview, subdirectories, licenses, and then with the unknown-tab error |
| Details.Perform | internal/frontend/tabs.go:144-268 | a delegated call can only fail with a data-source error |
| Details.Run | internal/frontend/tabs.go:144-268 | a dispatcher's own error comes back unchanged; a delegated call can fail only with a data-source error, so unknown-tab, not-supported and nil-package errors come from the dispatcher alone |
| Details.PackageDispatchCoversRegistry | internal/frontend/tabs.go:144-191 | both package dispatchers' case sets equal the key set of the package lookup |
| Details.ModuleDispatchCoversRegistry | internal/frontend/tabs.go:199-227 | the module dispatcher's case set equals the key set of the module lookup |
| Details.DirectoryDispatchCoversEnabledTabs | internal/frontend/tabs.go:231-268 | a tab is a directory dispatcher case iff it is in the directory lookup and not disabled there; both directory dispatchers have the same cases |
| Details.PackageUnknownTabIffUnregistered | internal/frontend/tabs.go:144-191 | for every backend, running either package dispatcher gives the unknown-tab error exactly for names not in the package lookup |
| Details.ModuleUnknownTabIffUnregistered | internal/frontend/tabs.go:199-227 | for every backend, running the module dispatcher gives the unknown-tab error exactly for names not in the module lookup |
| Details.DirectoryUnknownTabIffNotEnabled | internal/frontend/tabs.go:231-268 | for every backend, running either directory dispatcher gives the unknown-tab error exactly for names that are not enabled directory tabs |
| Details.LegacyImportedByNeedsFullDB | internal/frontend/tabs.go:155-161 | legacy importedby gives not-supported for any non-database source and any backend, so the routine is not reached; with the database it gives the routine's result |
| Details.ImportedByUnchecked | internal/frontend/tabs.go:185-186 | the version-aware importedby gives the routine's result on any data source |
| Details.ModulePackagesTabAgrees | internal/frontend/tabs.go:202-218 | with the flag on, packages calls the directory routine with the synthesized directory; with it off, the legacy routine; both list the module path with converted licenses and directory paths included |
| Details.DirectoryLicensesAgreeWithModule | internal/frontend/tabs.go:238-245 | the directory licenses tab fails with the database error when the lookup fails; otherwise it equals the module licenses tab over the licenses found |
| Details.DirectoryOverviewAgrees | internal/frontend/tabs.go:233-256 | both directory dispatchers build the same overview call for directories that agree on module and readme, and it is the module overview call: the module's redistributability and the URL's versioned bit |
| Server.Pluralize | internal/frontend/server.go:192-197 | the result is s for 1, and otherwise s followed by one 's' |
| Server.DecimalDigitsShape | internal/frontend/server.go:118 | the %d digits are nonempty decimal digits without a leading zero |
| Server.DecimalDigitsRoundTrip | internal/frontend/server.go:118 | reading the digits back gives the number |
| Server.FormatInt | internal/frontend/server.go:118 | %d starts with '-' iff the number is negative, and the digits that follow read back as its magnitude |
| Server.FormatInternalServerError | internal/frontend/server.go:118 | %d of 500 is "500" |
| Server.StatusInfoInternalServerError | internal/frontend/server.go:118 | with the standard status text the status line of 500 is "500 Internal Server Error" |
| Server.TemplateSet.Files | internal/frontend/server.go:173-185 | a set's files start with its key file, followed by its other files' names |
| Server.PagePaths | internal/frontend/server.go:207-210 | one path per page file, in order: the file name joined under base/pages |
| Server.ParseFileSet | internal/frontend/server.go:189-213 | one loop iteration (base layout, helpers, page files joined under pages) has exactly the outcome `ParseSet` specifies |
| Server.ParsePageTemplates | internal/frontend/server.go:172-217 | the loop returns exactly what `ParseTemplates` specifies: the first failure, or the map keyed by each set's first file |
| Server.ParseSetsSucceedsIff | internal/frontend/server.go:188-216 | the loop succeeds iff every set parses |
| Server.ParseSetsFirstError | internal/frontend/server.go:188-216 | on failure the error is that of the first failing set |
| Server.ParseSetsKeys | internal/frontend/server.go:188-216 | on success the keys are the old keys plus every set's first file |
| Server.ParseSetsKeeps | internal/frontend/server.go:188-216 | a key that no remaining set uses keeps its value |
| Server.ParseSetsValue | internal/frontend/server.go:188-216 | with distinct first files each set's key holds that set's template |
| Server.FileNameRoundTrip | internal/frontend/server.go:173-185 | each page file's name denotes that file |
| Server.FileNameInjective | internal/frontend/server.go:173-185 | different page files have different names |
| Server.HtmlSetOrdinal | internal/frontend/server.go:173-185 | the i-th set starts with the i-th page file |
| Server.HtmlSetsDistinct | internal/frontend/server.go:173-185 | no two sets share a key |
| Server.HtmlSetsKeys | internal/frontend/server.go:173-185 | the keys are the eleven page names |
| Server.ParseTemplatesShape | internal/frontend/server.go:172-217 | parsing succeeds iff all eleven sets parse; then its keys are exactly the sets' first files and each holds its set's template; otherwise the error is the first failing set's |
| Server.ErrorTemplateParsed | internal/frontend/server.go:173-185 | a parsed set always holds the error template |
| Server.RenderPageOutcome | internal/frontend/server.go:155-165 | rendering succeeds iff the set holds the named template and executing it succeeds, and then gives exactly the execution's bytes; a missing template or nil set is the only cause of NoTemplate; an execution failure keeps its message |
| Server.RenderPageUsesNamedTemplate | internal/frontend/server.go:155-165 | rendering reads only the named template: two sets that agree on it render every page alike |
| Server.ErrorPageFor | internal/frontend/server.go:117-126 | the base data is reset to the status line as title, with empty query and nonce; without a page the message is the status line; with one its messages are kept |
| Server.ErrorPageIgnoresBase | internal/frontend/server.go:124 | the rendered error page does not depend on the query and nonce of the caller's page |
| Server.Server.constructor | internal/frontend/server.go:46-52 | the struct literal: directory, reload flag and templates set, error page still empty |
| Server.Server.ServeErrorPage | internal/frontend/server.go:102-114 | rendered bytes with the caller's status, or on failure the stored error page with 500 |
| Server.Server.ServePage | internal/frontend/server.go:129-152 | with reload the field becomes the fresh parse, or nil on failure, and then the answer is a bare 500; otherwise 200 with the rendered bytes, or 500 with the stored error page; the stored page is unchanged |
| Server.NewServer | internal/frontend/server.go:38-57 | fails with the parse error or the 500-page render error; on success a fresh server holds the parsed templates, the flags and the rendered 500 page |
| Server.StartupShape | internal/frontend/server.go:40-57 | once parsing succeeds, NewServer succeeds iff executing the error template over the "500 Internal Server Error" page succeeds, and it stores those bytes |

## Left out

- Template parsing and execution (`html/template`) are abstract, possibly failing library functions of `Library`. This includes the FuncMap: `add`, `curYear` (wall-clock time) and the registration of `pluralize`. `Server.Pluralize` models the helper's body only.
- `ParseGlob` and `ParseFiles` add to the template in place and return it. The model's library functions return the extended template as a new value instead.
- `http.StatusText` is the `statusText` parameter. `StatusInfoInternalServerError` assumes its standard value for 500.
- Go strings are UTF-8 byte strings. The model treats them as sequences of characters. The '@' test in `urlIsVersioned` looks for an ASCII character, so it gives the same answer either way.
- `filepath.Join` is modelled as joining with "/", without path cleaning.
- Errors formatted with `%q`/`%v` are structured error values carrying the same parts, not strings.
- A nil template is looked up and executed either when the name is missing or when a failed reload left the set nil. In Go that panics. The model reports it as the render error `NoTemplate`, and the callers then take their failure path.
- `vdir.Package.Documentation` with a nil `Package` is a Go panic. The model reports it as the dispatch error `NilPackage`.
- `renderErrorPage` overwrites the base data of the caller's page in place. The model computes the new page as a value, so the caller's copy is not shown changing.
- `sync.RWMutex` locking and concurrent requests are left out; only the sequential effect is modelled.
- HTTP plumbing is left out:
  - mux registration, `http.FileServer`, `ServeFile` and `handleStaticPage`;
  - the nonce middleware;
  - `log.Printf`;
  - `io.Copy` write errors, including the extra WriteHeader after a failed copy.
- A response is the status and body a handler writes.
- `GoogleAnalyticsTrackingID` and the `db` field are left out.
- The fetch routines, `transformLicenses` and the `LegacyGetModuleLicenses` database call are defined outside these files. They are fields of `Backend`, and their errors are passed on unchanged.
- `ModuleInfo.SeriesPath` and `licensesToMetadatas` are not part of this model. They are parameters, in `Conversions`.
- The request context is left out:
  - `isActiveUseDirectories(ctx)` becomes a boolean parameter;
  - the type assertion `ds.(*postgres.DB)` becomes the data source's `isFullDB` bit;
  - a request is reduced to its URL path.
- `cmd/frontend/main.go` (process start-up: environment, flags, database, port) is not part of this model.
