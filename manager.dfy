/**
 * The config store of nginx/manager.go: the directory layout, the
 * enable/disable/archive/restore lifecycle and the enumeration of sites.
 *
 * The directories are modelled as the manager's state: `available` and
 * `archived` map file names to file text, `enabled` is the set of link names
 * in the enabled directory, and `mainConfig` is the text of the main config
 * file, if it exists.
 */
module Nginx {
  import opened Wrappers
  import opened Strings
  import opened Directives
  import opened Errors
  import opened SiteInspector

  /** The sentinel name of the main config; it never lives in the sites directory. */
  const MainConfigName: string := "nginx.conf"

  const DefaultMainConfigPath: string := "/etc/nginx/nginx.conf"
  const DefaultConfigDir: string := "/etc/nginx/conf.d"
  const DefaultEnabledDir: string := "/etc/nginx/sites-enabled"
  const DefaultArchivedDir: string := "/etc/nginx/sites-archived"
  const DefaultNginxBinPath: string := "nginx"

  /** One row of the site list. */
  datatype SiteInfo = SiteInfo(
    name: string,
    path: string,
    url: string,
    upstream: string,
    isActive: bool,
    hasSsl: bool,
    isEnabled: bool,
    isArchived: bool)

  /** The operations a deployment runs on the manager, in the order it runs them. */
  datatype Stage = Save | Enable | Test | Reload

  /** One operation run on the manager and whether it succeeded. */
  datatype Step = Step(stage: Stage, ok: bool)

  /** The liveness probe (an HTTP GET of the check URL with the domain as Host), outside the model. */
  type Prober = (string, string) -> bool

  /** `filepath.Join` of a directory and a plain file name. */
  function Join(dir: string, name: string): string {
    dir + "/" + name
  }

  /** A hidden file: `GetSites` does not list it. */
  predicate Hidden(name: string) {
    HasPrefix(name, ".")
  }

  function ParseFile(content: Option<string>, parse: Parser): Parsed {
    match content
    case None => None
    case Some(text) => parse(text)
  }

  class Manager {
    const configDir: string
    const enabledDir: string
    const archivedDir: string
    const nginxBinPath: string
    const mainConfigPath: string

    var mainConfig: Option<string>
    var available: map<string, string>
    var enabled: set<string>
    var archived: map<string, string>

    /** The deployment operations run on this manager so far, oldest first. */
    ghost var history: seq<Step>

    /**
     * `NewManager`: empty settings fall back to the defaults. The directory
     * contents are those found on disk.
     */
    constructor (configDir: string, enabledDir: string, archivedDir: string, nginxBinPath: string,
                 mainConfigPath: string, mainConfig: Option<string>, available: map<string, string>,
                 enabled: set<string>, archived: map<string, string>)
      ensures this.configDir == if configDir == "" then DefaultConfigDir else configDir
      ensures this.enabledDir == if enabledDir == "" then DefaultEnabledDir else enabledDir
      ensures this.archivedDir == if archivedDir == "" then DefaultArchivedDir else archivedDir
      ensures this.nginxBinPath == if nginxBinPath == "" then DefaultNginxBinPath else nginxBinPath
      ensures this.mainConfigPath == if mainConfigPath == "" then DefaultMainConfigPath else mainConfigPath
      ensures this.mainConfig == mainConfig && this.available == available
      ensures this.enabled == enabled && this.archived == archived
      ensures history == []
    {
      this.configDir := if configDir == "" then DefaultConfigDir else configDir;
      this.enabledDir := if enabledDir == "" then DefaultEnabledDir else enabledDir;
      this.archivedDir := if archivedDir == "" then DefaultArchivedDir else archivedDir;
      this.nginxBinPath := if nginxBinPath == "" then DefaultNginxBinPath else nginxBinPath;
      this.mainConfigPath := if mainConfigPath == "" then DefaultMainConfigPath else mainConfigPath;
      this.mainConfig := mainConfig;
      this.available := available;
      this.enabled := enabled;
      this.archived := archived;
      this.history := [];
    }

    /** `resolvePath`: the sentinel maps to the main config path, any other name into the sites directory. */
    function ResolvePath(name: string): (path: string)
      ensures name == MainConfigName ==> path == mainConfigPath
      ensures name != MainConfigName ==> HasPrefix(path, configDir + "/") && path[|configDir| + 1..] == name
    {
      if name == MainConfigName then mainConfigPath
      else
        var path := Join(configDir, name);
        assert path[..|configDir| + 1] == configDir + "/";
        path
    }

    /** The text at `ResolvePath(name)`, if that file exists. */
    function ReadConfig(name: string): (content: Option<string>)
      reads this
      ensures name == MainConfigName ==> content == mainConfig
      ensures name != MainConfigName ==> (content.Some? <==> name in available)
      ensures name != MainConfigName && name in available ==> content == Some(available[name])
    {
      if name == MainConfigName then mainConfig
      else if name in available then Some(available[name])
      else None
    }

    /** `GetProxyTarget`: the upstream of the config `ResolvePath(name)`. */
    function GetProxyTarget(name: string, parse: Parser): (r: Result<ProxyTarget, Error>)
      reads this
      ensures r == Err(ParseFailed) <==> ReadConfig(name).None? || parse(ReadConfig(name).value).None?
      ensures r.Ok? ==> ReadConfig(name).Some? && (name != MainConfigName ==> name in available)
    {
      SiteInspector.GetProxyTarget(ParseFile(ReadConfig(name), parse))
    }

    /** Names `GetSites` takes from the sites directory: every file that is not hidden. */
    function ListedAvailable(): (names: set<string>)
      reads this
      ensures forall n :: n in names <==> n in available && !Hidden(n)
    {
      set n | n in available && !Hidden(n)
    }

    /** Names `GetSites` takes from the archive directory: the `.conf` files, if the directory is configured. */
    function ListedArchived(): (names: set<string>)
      reads this
      ensures forall n :: n in names <==> archivedDir != "" && n in archived && HasSuffix(n, ".conf")
    {
      if archivedDir == "" then {} else set n | n in archived && HasSuffix(n, ".conf")
    }

    /**
     * The entry one `GetSites` task builds for `name`. Archived status comes
     * from the archive listing by name alone, so an available file that shares
     * its name with an archived `.conf` file is reported as archived too.
     */
    function SiteFor(name: string, parse: Parser, probe: Prober): (s: SiteInfo)
      reads this
      ensures s.name == name
      ensures s.isArchived <==> name in ListedArchived()
      ensures s.isArchived ==> s.path == Join(archivedDir, name) && !s.isEnabled
      ensures !s.isArchived ==> s.path == ResolvePath(name)
      ensures !s.isArchived && name == MainConfigName ==> s.isEnabled
      ensures !s.isArchived && enabledDir == "" ==> s.isEnabled
      ensures !s.isArchived && name != MainConfigName && enabledDir != "" ==> (s.isEnabled <==> name in enabled)
      ensures GetProxyTarget(name, parse).Ok? ==> s.upstream == FormatProxyUrl(GetProxyTarget(name, parse).value)
      ensures GetProxyTarget(name, parse).Err? ==> s.upstream == ""
    {
      var isArchived := name in ListedArchived();
      var path := if isArchived then Join(archivedDir, name) else ResolvePath(name);
      var content := if isArchived then Some(archived[name]) else ReadConfig(name);
      var details := ExtractSiteDetails(ParseFile(content, parse));
      var upstream := match GetProxyTarget(name, parse)
                      case Ok(t) => FormatProxyUrl(t)
                      case Err(_) => "";
      var enabled := if enabledDir != "" && name != MainConfigName && !isArchived then name in this.enabled
                     else !isArchived;
      SiteInfo(name, path, DisplayUrl(details), upstream,
               details.checkUrl != "" && probe(details.checkUrl, details.domain),
               details.hasSsl, enabled, isArchived)
    }

    /** Per-name facts `GetSites` relies on; with an empty body Dafny reads them off `SiteFor`. */
    lemma SiteForDetails(name: string, parse: Parser, probe: Prober)
      ensures var content := if name in ListedArchived() then Some(archived[name]) else ReadConfig(name);
              var details := ExtractSiteDetails(ParseFile(content, parse));
              var s := SiteFor(name, parse, probe);
              s.hasSsl == details.hasSsl && s.url == DisplayUrl(details) &&
              (s.isActive <==> details.checkUrl != "" && probe(details.checkUrl, details.domain))
    {
    }

    /** The per-site tasks of `GetSites`, run one after another: one entry per listed name, in listing order. */
    method InspectAll(rawSites: seq<string>, parse: Parser, probe: Prober) returns (infos: seq<SiteInfo>)
      ensures Names(infos) == rawSites
      ensures forall k :: 0 <= k < |infos| ==> infos[k] == SiteFor(infos[k].name, parse, probe)
    {
      infos := [];
      for i := 0 to |rawSites|
        invariant |infos| == i
        invariant forall k :: 0 <= k < i ==> infos[k] == SiteFor(rawSites[k], parse, probe)
      {
        infos := infos + [SiteFor(rawSites[i], parse, probe)];
      }
      assert Names(infos) == rawSites by {
        forall k | 0 <= k < |infos| ensures Names(infos)[k] == rawSites[k] {
        }
      }
    }

    /** `GetSites`: the sentinel, the listed sites and the listed archive, inspected and sorted by name. */
    method GetSites(parse: Parser, probe: Prober) returns (sites: seq<SiteInfo>)
      ensures SortedByName(sites)
      ensures multiset(Names(sites)) == multiset{MainConfigName} + multiset(ListedAvailable()) + multiset(ListedArchived())
      ensures forall i :: 0 <= i < |sites| ==> sites[i] == SiteFor(sites[i].name, parse, probe)
    {
      var availableNames := ReadDir(ListedAvailable());
      var archivedNames := ReadDir(ListedArchived());
      var rawSites := [MainConfigName] + availableNames + archivedNames;
      var infos := InspectAll(rawSites, parse, probe);

      var a := new SiteInfo[|infos|](k requires 0 <= k < |infos| => infos[k]);
      assert a[..] == infos;
      SortByName(a);
      sites := a[..];

      NamesPermutation(infos, sites);
      forall i | 0 <= i < |sites|
        ensures sites[i] == SiteFor(sites[i].name, parse, probe)
      {
        assert sites[i] in multiset(infos);
      }
    }

    // -------------------------------------------------------------------
    // Lifecycle
    // -------------------------------------------------------------------

    /** Every link in the enabled directory points at an existing available file. */
    predicate LinksResolve()
      reads this
    {
      forall n :: n in enabled ==> n in available
    }

    /** No name is both available and archived. */
    predicate Separated()
      reads this
    {
      forall n :: n in available ==> n !in archived
    }

    /** `EnableSite`: add the link unless it exists already (then succeed without change). */
    method EnableSite(name: string) returns (r: Outcome<Error>)
      modifies this
      ensures name == MainConfigName ==> r == Fail(MainConfigProtected)
      ensures name != MainConfigName && enabledDir == "" ==> r == Fail(EnabledDirNotConfigured)
      ensures r.Pass? <==> name != MainConfigName && enabledDir != ""
      ensures enabled == if r.Pass? then old(enabled) + {name} else old(enabled)
      ensures name in old(enabled) ==> enabled == old(enabled)
      ensures available == old(available) && archived == old(archived) && mainConfig == old(mainConfig)
      ensures old(LinksResolve()) && name in available ==> LinksResolve()
      ensures history == old(history) + [Step(Stage.Enable, r.Pass?)]
    {
      history := history + [Step(Stage.Enable, name != MainConfigName && enabledDir != "")];
      if name == MainConfigName {
        return Fail(MainConfigProtected);
      }
      if enabledDir == "" {
        return Fail(EnabledDirNotConfigured);
      }
      if name in enabled {
        return Pass;
      }
      enabled := enabled + {name};
      r := Pass;
    }

    /** `DisableSite`: remove the link; a missing link is an error. */
    method DisableSite(name: string) returns (r: Outcome<Error>)
      modifies this
      ensures name == MainConfigName ==> r == Fail(MainConfigProtected)
      ensures name != MainConfigName && enabledDir == "" ==> r == Fail(EnabledDirNotConfigured)
      ensures name != MainConfigName && enabledDir != "" && name !in old(enabled) ==> r == Fail(NotFound)
      ensures r.Pass? <==> name != MainConfigName && enabledDir != "" && name in old(enabled)
      ensures enabled == if r.Pass? then old(enabled) - {name} else old(enabled)
      ensures available == old(available) && archived == old(archived) && mainConfig == old(mainConfig)
      ensures old(LinksResolve()) ==> LinksResolve()
      ensures history == old(history)
    {
      if name == MainConfigName {
        return Fail(MainConfigProtected);
      }
      if enabledDir == "" {
        return Fail(EnabledDirNotConfigured);
      }
      if name !in enabled {
        return Fail(NotFound);
      }
      enabled := enabled - {name};
      r := Pass;
    }

    /**
     * `ArchiveSite`: refuse the sentinel; otherwise disable (ignoring any
     * error) and then move the file from the sites directory to the archive,
     * replacing an archived file of the same name.
     */
    method ArchiveSite(name: string) returns (r: Outcome<Error>)
      modifies this
      ensures name == MainConfigName ==> r == Fail(MainConfigProtected) && unchanged(this)
      ensures name != MainConfigName ==> enabled == if enabledDir != "" then old(enabled) - {name} else old(enabled)
      ensures name != MainConfigName && name !in old(available) ==>
                r == Fail(NotFound) && available == old(available) && archived == old(archived)
      ensures name != MainConfigName && name in old(available) ==>
                r == Pass && available == old(available) - {name} &&
                archived == old(archived)[name := old(available)[name]]
      ensures r.Pass? && enabledDir != "" ==> name !in enabled && name in archived && name !in available
      ensures mainConfig == old(mainConfig)
      ensures old(Separated()) ==> Separated()
      ensures old(LinksResolve()) && enabledDir != "" ==> LinksResolve()
      ensures history == old(history)
    {
      if name == MainConfigName {
        return Fail(MainConfigProtected);
      }
      var _ := DisableSite(name);
      if name !in available {
        return Fail(NotFound);
      }
      archived := archived[name := available[name]];
      available := available - {name};
      r := Pass;
    }

    /**
     * `RestoreSite`: move an archived file back unless the name is taken in
     * the sites directory. It does not enable the site.
     */
    method RestoreSite(name: string) returns (r: Outcome<Error>)
      modifies this
      ensures name in old(available) ==> r == Fail(AlreadyExists) && unchanged(this)
      ensures name !in old(available) && name !in old(archived) ==> r == Fail(NotFound) && unchanged(this)
      ensures name !in old(available) && name in old(archived) ==>
                r == Pass && available == old(available)[name := old(archived)[name]] &&
                archived == old(archived) - {name}
      ensures enabled == old(enabled) && mainConfig == old(mainConfig)
      ensures old(Separated()) ==> Separated()
      ensures old(LinksResolve()) ==> LinksResolve()
      ensures history == old(history)
    {
      if name in available {
        return Fail(AlreadyExists);
      }
      if name !in archived {
        return Fail(NotFound);
      }
      available := available[name := archived[name]];
      archived := archived - {name};
      r := Pass;
    }

    /**
     * `SaveConfig`: write `content` at `ResolvePath(name)`, overwriting.
     * Creating the directory or writing the file may fail.
     */
    method SaveConfig(name: string, content: string) returns (r: Outcome<Error>)
      modifies this
      ensures r.Fail? ==> r.error == WriteFailed && mainConfig == old(mainConfig) && available == old(available)
      ensures r.Pass? ==> ReadConfig(name) == Some(content)
      ensures r.Pass? && name == MainConfigName ==> mainConfig == Some(content) && available == old(available)
      ensures r.Pass? && name != MainConfigName ==> available == old(available)[name := content] && mainConfig == old(mainConfig)
      ensures enabled == old(enabled) && archived == old(archived)
      ensures history == old(history) + [Step(Stage.Save, r.Pass?)]
    {
      var written: bool := *;
      history := history + [Step(Stage.Save, written)];
      if !written {
        return Fail(WriteFailed);
      }
      if name == MainConfigName {
        mainConfig := Some(content);
      } else {
        available := available[name := content];
      }
      r := Pass;
    }

    /** `TestConfig` (`nginx -t`): the binary's verdict is outside the model. */
    method TestConfig() returns (r: Outcome<Error>)
      modifies this
      ensures r.Fail? ==> r.error == ValidationFailed
      ensures mainConfig == old(mainConfig) && available == old(available)
      ensures enabled == old(enabled) && archived == old(archived)
      ensures history == old(history) + [Step(Stage.Test, r.Pass?)]
    {
      var valid: bool := *;
      history := history + [Step(Stage.Test, valid)];
      r := if valid then Pass else Fail(ValidationFailed);
    }

    /** `Reload` (`nginx -s reload`): the binary's verdict is outside the model. */
    method Reload() returns (r: Outcome<Error>)
      modifies this
      ensures r.Fail? ==> r.error == ReloadFailed
      ensures mainConfig == old(mainConfig) && available == old(available)
      ensures enabled == old(enabled) && archived == old(archived)
      ensures history == old(history) + [Step(Stage.Reload, r.Pass?)]
    {
      var reloaded: bool := *;
      history := history + [Step(Stage.Reload, reloaded)];
      r := if reloaded then Pass else Fail(ReloadFailed);
    }
  }

  /**
   * The public URL shown for a site: `https://` or `http://` plus the server
   * name when one is set and is not the catch-all `_`; "N/A" when the config
   * gave no check URL; otherwise the check URL.
   */
  function DisplayUrl(details: SiteDetails): (url: string)
    ensures details.checkUrl == "" ==> url == "N/A"
    ensures details.checkUrl != "" && details.domain != "" && details.domain != "_" ==>
              url == (if details.hasSsl then "https" else "http") + "://" + details.domain
    ensures details.checkUrl != "" && (details.domain == "" || details.domain == "_") ==> url == details.checkUrl
  {
    if details.checkUrl == "" then "N/A"
    else if details.domain != "" && details.domain != "_" then
      (if details.hasSsl then "https" else "http") + "://" + details.domain
    else details.checkUrl
  }

  /** The names of a list of sites, in order. */
  function Names(sites: seq<SiteInfo>): (names: seq<string>)
    ensures |names| == |sites|
    ensures forall i :: 0 <= i < |sites| ==> names[i] == sites[i].name
  {
    if sites == [] then [] else [sites[0].name] + Names(sites[1..])
  }

  lemma NamesAppend(a: seq<SiteInfo>, b: seq<SiteInfo>)
    ensures Names(a + b) == Names(a) + Names(b)
  {
  }

  /** Reordering sites reorders their names: the multiset of names is kept. */
  lemma {:induction false} NamesPermutation(a: seq<SiteInfo>, b: seq<SiteInfo>)
    requires multiset(a) == multiset(b)
    ensures multiset(Names(a)) == multiset(Names(b))
  {
    if a == [] {
      assert |b| == |multiset(b)| == 0;
    } else {
      var x := a[0];
      assert x in multiset(b);
      var k :| 0 <= k < |b| && b[k] == x;
      var rest := b[..k] + b[k + 1..];
      assert b == b[..k] + [x] + b[k + 1..];
      assert a == [x] + a[1..];
      assert multiset(b) == multiset(b[..k]) + multiset{x} + multiset(b[k + 1..]);
      assert multiset(rest) == multiset(b[..k]) + multiset(b[k + 1..]);
      assert multiset(a) == multiset{x} + multiset(a[1..]);
      assert multiset(a[1..]) == multiset(a) - multiset{x};
      assert multiset(rest) == multiset(b) - multiset{x};
      NamesPermutation(a[1..], rest);
      NamesAppend(b[..k], [x]);
      NamesAppend(b[..k] + [x], b[k + 1..]);
      NamesAppend(b[..k], b[k + 1..]);
      NamesAppend([x], a[1..]);
    }
  }

  /** Sorted by name as `sort.Slice` with `Name <` leaves a list: no later name is smaller. */
  predicate SortedByName(sites: seq<SiteInfo>) {
    forall i, j :: 0 <= i < j < |sites| ==> NotAfter(sites[i].name, sites[j].name)
  }

  /** `os.ReadDir` after filtering: the names of a directory, each once, in some order. */
  method ReadDir(names: set<string>) returns (listing: seq<string>)
    ensures multiset(listing) == multiset(names)
  {
    listing := [];
    var rest := names;
    while rest != {}
      invariant rest <= names
      invariant forall n :: multiset(listing)[n] == if n in names && n !in rest then 1 else 0
      decreases rest
    {
      var n :| n in rest;
      listing := listing + [n];
      rest := rest - {n};
    }
    assert forall n :: multiset(listing)[n] == multiset(names)[n];
  }

  /** `sort.Slice(sites, Name <)`, as an insertion sort by adjacent swaps. */
  method SortByName(a: array<SiteInfo>)
    modifies a
    ensures SortedByName(a[..])
    ensures multiset(a[..]) == old(multiset(a[..]))
  {
    var i := 0;
    while i < a.Length
      invariant 0 <= i <= a.Length
      invariant forall k, l :: 0 <= k < l < i ==> NotAfter(a[k].name, a[l].name)
      invariant multiset(a[..]) == old(multiset(a[..]))
    {
      var j := i;
      while j > 0 && Less(a[j].name, a[j - 1].name)
        invariant 0 <= j <= i
        invariant forall k, l :: 0 <= k < l <= i && l != j ==> NotAfter(a[k].name, a[l].name)
        invariant multiset(a[..]) == old(multiset(a[..]))
      {
        NotAfterFromLess(a[j].name, a[j - 1].name);
        a[j - 1], a[j] := a[j], a[j - 1];
        j := j - 1;
      }
      forall k | 0 <= k < j
        ensures NotAfter(a[k].name, a[j].name)
      {
        if k < j - 1 {
          NotAfterTransitive(a[k].name, a[j - 1].name, a[j].name);
        }
      }
      i := i + 1;
    }
  }
}
