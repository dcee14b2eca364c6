/** The tab registry of internal/frontend/tabs.go: the package, module and
    directory catalogs, the directory allow-list, and the start-up code that
    derives the directory catalog and fills the three name lookups. */
module Tabs {

  /** Tab-specific metadata. */
  datatype TabSettings = TabSettings(
    name: string,              // the tab name used in the URL
    displayName: string,       // the formatted tab name
    alwaysShowDetails: bool,   // shown even when the package is not redistributable
    templateName: string,      // the template that renders the tab
    disabled: bool)            // displayed as disabled

  /** The value Go gives every element of a slice allocated with make. */
  const ZeroTabSettings := TabSettings("", "", false, "", false)

  const PackageTabs: seq<TabSettings> := [
    TabSettings("doc", "Doc", false, "pkg_doc.tmpl", false),
    TabSettings("overview", "Overview", true, "overview.tmpl", false),
    TabSettings("subdirectories", "Subdirectories", true, "subdirectories.tmpl", false),
    TabSettings("versions", "Versions", true, "versions.tmpl", false),
    TabSettings("imports", "Imports", true, "pkg_imports.tmpl", false),
    TabSettings("importedby", "Imported By", true, "pkg_importedby.tmpl", false),
    TabSettings("licenses", "Licenses", false, "licenses.tmpl", false)
  ]

  const ModuleTabs: seq<TabSettings> := [
    TabSettings("overview", "Overview", true, "overview.tmpl", false),
    TabSettings("packages", "Packages", true, "subdirectories.tmpl", false),
    TabSettings("versions", "Versions", true, "versions.tmpl", false),
    TabSettings("licenses", "Licenses", false, "licenses.tmpl", false)
  ]

  /** The tabs that are enabled in the directory view. */
  const ValidDirectoryTabs: map<string, bool> :=
    map["licenses" := true, "overview" := true, "subdirectories" := true]

  /** `validDirectoryTabs[name]`: Go reads a missing key of a map[string]bool as false. */
  predicate AllowedInDirectory(name: string) {
    name in ValidDirectoryTabs && ValidDirectoryTabs[name]
  }

  /** One step of the first loop of init: the copy `ts`, disabled unless allowed. */
  function DirectoryTab(ts: TabSettings): TabSettings {
    if AllowedInDirectory(ts.name) then ts else ts.(disabled := true)
  }

  /** The directory catalog that init derives from a package catalog. */
  function DirectoryTabsOf(s: seq<TabSettings>): seq<TabSettings> {
    seq(|s|, i requires 0 <= i < |s| => DirectoryTab(s[i]))
  }

  const DirectoryTabs: seq<TabSettings> := DirectoryTabsOf(PackageTabs)

  /** The map that `for _, d := range s { m[d.Name] = d }` leaves behind:
      later entries overwrite earlier ones with the same name. */
  function Insert(m: map<string, TabSettings>, s: seq<TabSettings>): map<string, TabSettings>
    decreases |s|
  {
    if s == [] then m else Insert(m, s[..|s| - 1])[s[|s| - 1].name := s[|s| - 1]]
  }

  /** The lookup init builds for a catalog, starting from an empty map. */
  function LookupOf(s: seq<TabSettings>): map<string, TabSettings> {
    Insert(map[], s)
  }

  function NameSet(s: seq<TabSettings>): set<string> {
    set i | 0 <= i < |s| :: s[i].name
  }

  predicate DistinctNames(s: seq<TabSettings>) {
    forall i, j :: 0 <= i < j < |s| ==> s[i].name != s[j].name
  }

  /** The keys of the filled map are the old keys and the names of the catalog. */
  lemma {:induction false} InsertKeys(m: map<string, TabSettings>, s: seq<TabSettings>)
    ensures Insert(m, s).Keys == m.Keys + NameSet(s)
    decreases |s|
  {
    if s != [] {
      var init := s[..|s| - 1];
      InsertKeys(m, init);
      assert NameSet(s) == NameSet(init) + {s[|s| - 1].name} by {
        forall n | n in NameSet(s) ensures n in NameSet(init) + {s[|s| - 1].name} {
          var i :| 0 <= i < |s| && s[i].name == n;
          if i < |s| - 1 { assert init[i] == s[i]; }
        }
        forall n | n in NameSet(init) ensures n in NameSet(s) {
          var i :| 0 <= i < |init| && init[i].name == n;
          assert s[i] == init[i];
        }
      }
    }
  }

  /** The entry a name maps to is the last catalog entry with that name. */
  lemma {:induction false} InsertLast(m: map<string, TabSettings>, s: seq<TabSettings>, i: nat)
    requires i < |s|
    requires forall j :: i < j < |s| ==> s[j].name != s[i].name
    ensures s[i].name in Insert(m, s) && Insert(m, s)[s[i].name] == s[i]
    decreases |s|
  {
    if i < |s| - 1 {
      var init := s[..|s| - 1];
      forall j | i < j < |init| ensures init[j].name != init[i].name {
        assert init[j] == s[j];
      }
      InsertLast(m, init, i);
    }
  }

  /** A name absent from the catalog keeps whatever the map held before. */
  lemma {:induction false} InsertOther(m: map<string, TabSettings>, s: seq<TabSettings>, n: string)
    requires n !in NameSet(s)
    ensures (n in Insert(m, s)) == (n in m)
    ensures n in m ==> Insert(m, s)[n] == m[n]
    decreases |s|
  {
    if s != [] {
      var init := s[..|s| - 1];
      assert s[|s| - 1].name in NameSet(s);
      forall i | 0 <= i < |init| ensures init[i].name != n {
        assert init[i] == s[i];
      }
      InsertOther(m, init, n);
    }
  }

  /** For a catalog with distinct names the lookup has exactly those names
      as keys and maps each name to the one entry carrying it. */
  lemma LookupOfCatalog(s: seq<TabSettings>)
    requires DistinctNames(s)
    ensures LookupOf(s).Keys == NameSet(s)
    ensures forall i :: 0 <= i < |s| ==> LookupOf(s)[s[i].name] == s[i]
  {
    InsertKeys(map[], s);
    forall i | 0 <= i < |s| ensures LookupOf(s)[s[i].name] == s[i] {
      InsertLast(map[], s, i);
    }
  }

  /** Looking a name up gives the catalog entry with that name, and absent
      names are exactly those that no entry carries. */
  lemma LookupFindsEntry(s: seq<TabSettings>, n: string)
    requires DistinctNames(s)
    ensures n in LookupOf(s) <==> exists i :: 0 <= i < |s| && s[i].name == n
    ensures n in LookupOf(s) ==> exists i :: 0 <= i < |s| && s[i].name == n && LookupOf(s)[n] == s[i]
  {
    LookupOfCatalog(s);
  }

  /** The derived directory catalog has the package catalog's length and
      order, differs from it at most in Disabled, and an entry is disabled
      exactly when the package entry was or its name is not allowed. */
  lemma DirectoryTabsOfShape(s: seq<TabSettings>)
    ensures |DirectoryTabsOf(s)| == |s|
    ensures forall i :: 0 <= i < |s| ==>
      DirectoryTabsOf(s)[i] == s[i].(disabled := DirectoryTabsOf(s)[i].disabled)
    ensures forall i :: 0 <= i < |s| ==>
      (DirectoryTabsOf(s)[i].disabled <==> s[i].disabled || !AllowedInDirectory(s[i].name))
    ensures NameSet(DirectoryTabsOf(s)) == NameSet(s)
  {
    var d := DirectoryTabsOf(s);
    forall n | n in NameSet(s) ensures n in NameSet(d) {
      var i :| 0 <= i < |s| && s[i].name == n;
      assert d[i].name == n;
    }
  }

  /** No package tab is disabled. */
  lemma PackageTabsEnabled()
    ensures forall i :: 0 <= i < |PackageTabs| ==> !PackageTabs[i].disabled
  {
  }

  /** The package catalog's names, which are distinct. */
  lemma PackageTabNames()
    ensures DistinctNames(PackageTabs)
    ensures NameSet(PackageTabs) ==
      {"doc", "overview", "subdirectories", "versions", "imports", "importedby", "licenses"}
  {
    var names := {"doc", "overview", "subdirectories", "versions", "imports", "importedby", "licenses"};
    forall i, j | 0 <= i < j < |PackageTabs| ensures PackageTabs[i].name != PackageTabs[j].name {
      var a, b := PackageTabs[i].name, PackageTabs[j].name;
      assert |a| != |b| || a[0] != b[0];
    }
    forall n | n in NameSet(PackageTabs) ensures n in names {
      var i :| 0 <= i < |PackageTabs| && PackageTabs[i].name == n;
    }
    forall i | 0 <= i < |PackageTabs| ensures PackageTabs[i].name in NameSet(PackageTabs) {
    }
    assert PackageTabs[0].name == "doc" && PackageTabs[1].name == "overview";
    assert PackageTabs[2].name == "subdirectories" && PackageTabs[3].name == "versions";
    assert PackageTabs[4].name == "imports" && PackageTabs[5].name == "importedby";
    assert PackageTabs[6].name == "licenses";
    assert names <= NameSet(PackageTabs);
  }

  /** The module catalog's names, which are distinct. */
  lemma ModuleTabNames()
    ensures DistinctNames(ModuleTabs)
    ensures NameSet(ModuleTabs) == {"overview", "packages", "versions", "licenses"}
  {
    var names := {"overview", "packages", "versions", "licenses"};
    forall i, j | 0 <= i < j < |ModuleTabs| ensures ModuleTabs[i].name != ModuleTabs[j].name {
      assert ModuleTabs[i].name[0] != ModuleTabs[j].name[0];
    }
    forall n | n in NameSet(ModuleTabs) ensures n in names {
      var i :| 0 <= i < |ModuleTabs| && ModuleTabs[i].name == n;
    }
    forall i | 0 <= i < |ModuleTabs| ensures ModuleTabs[i].name in NameSet(ModuleTabs) {
    }
    assert ModuleTabs[0].name == "overview" && ModuleTabs[1].name == "packages";
    assert ModuleTabs[2].name == "versions" && ModuleTabs[3].name == "licenses";
    assert names <= NameSet(ModuleTabs);
  }

  /** No package tab is disabled, and the three catalogs have distinct names. */
  lemma CatalogsWellFormed()
    ensures forall i :: 0 <= i < |PackageTabs| ==> !PackageTabs[i].disabled
    ensures DistinctNames(PackageTabs) && DistinctNames(ModuleTabs) && DistinctNames(DirectoryTabs)
    ensures NameSet(PackageTabs) ==
      {"doc", "overview", "subdirectories", "versions", "imports", "importedby", "licenses"}
    ensures NameSet(ModuleTabs) == {"overview", "packages", "versions", "licenses"}
  {
    PackageTabsEnabled();
    PackageTabNames();
    ModuleTabNames();
    DirectoryTabsOfShape(PackageTabs);
    assert forall i :: 0 <= i < |DirectoryTabs| ==> DirectoryTabs[i].name == PackageTabs[i].name;
  }

  /** A directory tab is disabled iff its name is not licenses, overview or
      subdirectories; the allowed three stay enabled. */
  lemma DirectoryTabsDisabled()
    ensures |DirectoryTabs| == |PackageTabs|
    ensures forall i :: 0 <= i < |DirectoryTabs| ==>
      (DirectoryTabs[i].disabled <==>
        DirectoryTabs[i].name != "licenses" && DirectoryTabs[i].name != "overview" &&
        DirectoryTabs[i].name != "subdirectories")
    ensures DirectoryTabs[0].name == "doc" && DirectoryTabs[0].disabled
    ensures DirectoryTabs[3].name == "versions" && DirectoryTabs[3].disabled
    ensures DirectoryTabs[4].name == "imports" && DirectoryTabs[4].disabled
    ensures DirectoryTabs[5].name == "importedby" && DirectoryTabs[5].disabled
  {
    DirectoryTabsOfShape(PackageTabs);
    PackageTabsEnabled();
    forall i | 0 <= i < |DirectoryTabs|
      ensures DirectoryTabs[i].disabled <==> !AllowedInDirectory(DirectoryTabs[i].name)
    {
    }
  }

  /** In the directory lookup a present name is disabled iff it is not one
      of the allowed three. */
  lemma DirectoryLookupDisabled(n: string)
    requires n in LookupOf(DirectoryTabs)
    ensures LookupOf(DirectoryTabs)[n].name == n
    ensures LookupOf(DirectoryTabs)[n].disabled <==> !AllowedInDirectory(n)
  {
    CatalogsWellFormed();
    DirectoryTabsDisabled();
    LookupFindsEntry(DirectoryTabs, n);
  }

  /** `for _, d := range s { m[d.Name] = d }`, returning the filled map. */
  method FillLookup(m: map<string, TabSettings>, s: seq<TabSettings>) returns (r: map<string, TabSettings>)
    ensures r == Insert(m, s)
  {
    r := m;
    var i := 0;
    while i < |s|
      invariant 0 <= i <= |s|
      invariant r == Insert(m, s[..i])
    {
      var d := s[i];
      assert s[..i + 1][..i] == s[..i];
      r := r[d.name := d];
      i := i + 1;
    }
    assert s[..i] == s;
  }

  /** The package-level variables of tabs.go and the init function that
      fills them. */
  class TabRegistry {
    var packageTabSettings: seq<TabSettings>
    var moduleTabSettings: seq<TabSettings>
    const directoryTabSettings: array<TabSettings>
    var packageTabLookup: map<string, TabSettings>
    var directoryTabLookup: map<string, TabSettings>
    var moduleTabLookup: map<string, TabSettings>

    /** The variable declarations: the two literal catalogs, a zeroed
        directory slice of the package catalog's length, and empty maps. */
    constructor ()
      ensures packageTabSettings == PackageTabs && moduleTabSettings == ModuleTabs
      ensures fresh(directoryTabSettings)
      ensures directoryTabSettings[..] == seq(|PackageTabs|, _ => ZeroTabSettings)
      ensures packageTabLookup == map[] && directoryTabLookup == map[] && moduleTabLookup == map[]
    {
      packageTabSettings := PackageTabs;
      moduleTabSettings := ModuleTabs;
      directoryTabSettings := new TabSettings[|PackageTabs|](_ => ZeroTabSettings);
      packageTabLookup, directoryTabLookup, moduleTabLookup := map[], map[], map[];
    }

    /** The registry as init leaves it when it starts from the declarations. */
    ghost predicate Initialized()
      reads this, directoryTabSettings
    {
      && packageTabSettings == PackageTabs
      && moduleTabSettings == ModuleTabs
      && directoryTabSettings[..] == DirectoryTabs
      && packageTabLookup == LookupOf(PackageTabs)
      && directoryTabLookup == LookupOf(DirectoryTabs)
      && moduleTabLookup == LookupOf(ModuleTabs)
    }

    /** init: copy every package tab into the directory slice by index,
        disabling it unless allowed, then fill the three lookups in order.
        The package catalog itself is left as it was. */
    method Init()
      requires directoryTabSettings.Length == |packageTabSettings|
      modifies this, directoryTabSettings
      ensures packageTabSettings == old(packageTabSettings)
      ensures moduleTabSettings == old(moduleTabSettings)
      ensures directoryTabSettings[..] == DirectoryTabsOf(packageTabSettings)
      ensures packageTabLookup == Insert(old(packageTabLookup), packageTabSettings)
      ensures directoryTabLookup == Insert(old(directoryTabLookup), directoryTabSettings[..])
      ensures moduleTabLookup == Insert(old(moduleTabLookup), moduleTabSettings)
    {
      var i := 0;
      while i < |packageTabSettings|
        modifies directoryTabSettings
        invariant 0 <= i <= |packageTabSettings|
        invariant forall k :: 0 <= k < i ==> directoryTabSettings[k] == DirectoryTab(packageTabSettings[k])
      {
        var ts := packageTabSettings[i];
        if !AllowedInDirectory(ts.name) {
          ts := ts.(disabled := true);
        }
        directoryTabSettings[i] := ts;
        i := i + 1;
      }
      assert directoryTabSettings[..] == DirectoryTabsOf(packageTabSettings);
      packageTabLookup := FillLookup(packageTabLookup, packageTabSettings);
      directoryTabLookup := FillLookup(directoryTabLookup, directoryTabSettings[..]);
      moduleTabLookup := FillLookup(moduleTabLookup, moduleTabSettings);
    }
  }

  /** Declaring the variables and running init yields the initialized
      registry, whose lookups hold exactly each catalog's names. */
  method Startup() returns (reg: TabRegistry)
    ensures fresh(reg) && fresh(reg.directoryTabSettings)
    ensures reg.Initialized()
    ensures reg.packageTabLookup.Keys == NameSet(PackageTabs)
    ensures reg.directoryTabLookup.Keys == NameSet(PackageTabs)
    ensures reg.moduleTabLookup.Keys == NameSet(ModuleTabs)
  {
    reg := new TabRegistry();
    reg.Init();
    CatalogsWellFormed();
    DirectoryTabsOfShape(PackageTabs);
    LookupOfCatalog(PackageTabs);
    LookupOfCatalog(DirectoryTabs);
    LookupOfCatalog(ModuleTabs);
  }
}
