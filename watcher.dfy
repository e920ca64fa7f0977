/**
 * The app-manifest bridge of discovery/watcher.go: forward discovery turns a
 * manifest (domain, upstream protocol, host and port) into a generated site
 * config and deploys it; reverse discovery writes a manifest for every
 * proxied site that has none.
 *
 * The apps directory is modelled as a map from manifest file name to what
 * reading and decoding that file gives: `Some(manifest)`, or `None` when the
 * file exists but does not decode as a manifest.
 */
module Discovery {
  import opened Wrappers
  import opened Strings
  import opened Directives
  import opened Errors
  import opened SiteInspector
  import opened Nginx

  const AppManifestDir: string := "/opt/nginx-manager/apps"
  const DefaultNginxListenPort: int := 80
  const DefaultProtocol: string := "http"
  const DefaultHostname: string := "127.0.0.1"

  /** One app: the public domain (optionally `host:port`) and its upstream. */
  datatype AppManifest = AppManifest(domain: string, protocol: string, hostname: string, port: int)

  /** The manifests forward discovery acts on: a domain and a non-zero port. */
  predicate Deployable(app: AppManifest) {
    app.domain != "" && app.port != 0
  }

  /** Only `.yaml` and `.yml` files are manifests. */
  predicate IsManifestFile(path: string) {
    HasSuffix(path, ".yaml") || HasSuffix(path, ".yml")
  }

  // ---------------------------------------------------------------------
  // Naming: domain <-> config file name <-> manifest file name
  // ---------------------------------------------------------------------

  /** The config file forward discovery writes for a domain: ':' becomes '_', then ".conf". */
  function ConfigName(domain: string): (name: string)
    ensures HasSuffix(name, ".conf") && |name| == |domain| + 5
    ensures ':' !in name
  {
    var name := ReplaceAll(domain, ':', '_') + ".conf";
    assert name[|name| - 5..] == ".conf";
    name
  }

  /** The domain reverse discovery reads off a config file name: strip ".conf", then '_' becomes ':'. */
  function DomainFromSiteName(siteName: string): (domain: string)
    ensures '_' !in domain
  {
    ReplaceAll(TrimSuffix(siteName, ".conf"), '_', ':')
  }

  /** The manifest file reverse discovery writes for a site: strip ".conf", then add ".yaml" unless present. */
  function ManifestName(siteName: string): (name: string)
    ensures IsManifestFile(name)
    ensures HasSuffix(siteName, ".conf") && !HasSuffix(TrimSuffix(siteName, ".conf"), ".yaml") ==>
              name == TrimSuffix(siteName, ".conf") + ".yaml"
  {
    var stem := TrimSuffix(siteName, ".conf");
    if HasSuffix(stem, ".yaml") then stem
    else
      TrimSuffixOfAppend(stem, ".yaml");
      stem + ".yaml"
  }

  /** A domain without '_' survives the trip to a config name and back. */
  lemma DomainRoundTrip(domain: string)
    requires '_' !in domain
    ensures DomainFromSiteName(ConfigName(domain)) == domain
  {
    var mangled := ReplaceAll(domain, ':', '_');
    TrimSuffixOfAppend(mangled, ".conf");
    ReplaceAllInverse(domain, ':', '_');
  }

  /** A colon-free ".conf" name survives the trip to a domain and back. */
  lemma SiteNameRoundTrip(siteName: string)
    requires HasSuffix(siteName, ".conf") && ':' !in siteName
    ensures ConfigName(DomainFromSiteName(siteName)) == siteName
  {
    var stem := TrimSuffix(siteName, ".conf");
    assert ':' !in stem by {
      forall k | 0 <= k < |stem| ensures stem[k] != ':' {
        assert stem[k] == siteName[k];
      }
    }
    ReplaceAllInverse(stem, '_', ':');
  }

  /** The mangling is not injective: "a:b" and "a_b" are written to the same file. */
  lemma ConfigNameCollides()
    ensures ConfigName("a:b") == ConfigName("a_b")
    ensures DomainFromSiteName(ConfigName("a_b")) != "a_b"
  {
    assert ConfigName("a:b") == "a_b.conf";
    assert ConfigName("a_b") == "a_b.conf";
    assert DomainFromSiteName("a_b.conf") == "a:b";
  }

  /**
   * Every domain with a ':' shares its config file with another domain: the
   * one with each ':' written as '_'.
   */
  lemma {:induction false} ConfigNameIgnoresColons(domain: string)
    ensures ConfigName(ReplaceAll(domain, ':', '_')) == ConfigName(domain)
    ensures ':' in domain ==> ReplaceAll(domain, ':', '_') != domain
  {
    var once := ReplaceAll(domain, ':', '_');
    var twice := ReplaceAll(once, ':', '_');
    forall i | 0 <= i < |once| ensures twice[i] == once[i] {
    }
    assert twice == once;
    if ':' in domain {
      var k :| 0 <= k < |domain| && domain[k] == ':';
      assert once[k] == '_';
    }
  }

  /** The domain "nginx" is written under the main config's sentinel name. */
  lemma ConfigNameReachesMainConfig()
    ensures ConfigName("nginx") == MainConfigName
  {
  }

  // ---------------------------------------------------------------------
  // generateNginxConfig
  // ---------------------------------------------------------------------

  /** What the generated server block is made of. */
  datatype ServerSettings = ServerSettings(listenPort: int, serverName: string, upstream: ProxyTarget)

  /**
   * The settings `generateNginxConfig` fills in: an empty protocol is http and
   * an empty hostname 127.0.0.1; a domain that splits as `host:port` serves
   * `host`, and listens on `port` when that is an integer.
   */
  function Settings(app: AppManifest, nginxListenPort: int): (s: ServerSettings)
    ensures s.upstream.protocol == if app.protocol == "" then DefaultProtocol else app.protocol
    ensures s.upstream.host == if app.hostname == "" then DefaultHostname else app.hostname
    ensures s.upstream.port == app.port
    ensures ':' !in app.domain ==> s.listenPort == nginxListenPort && s.serverName == app.domain
    ensures SplitHostPort(app.domain).None? ==> s.listenPort == nginxListenPort && s.serverName == app.domain
    ensures SplitHostPort(app.domain).Some? ==> s.serverName == SplitHostPort(app.domain).value.0
    ensures SplitHostPort(app.domain).Some? && Atoi(SplitHostPort(app.domain).value.1).None? ==>
              s.listenPort == nginxListenPort
    ensures SplitHostPort(app.domain).Some? && Atoi(SplitHostPort(app.domain).value.1).Some? ==>
              s.listenPort == Atoi(SplitHostPort(app.domain).value.1).value
  {
    var protocol := if app.protocol == "" then DefaultProtocol else app.protocol;
    var hostname := if app.hostname == "" then DefaultHostname else app.hostname;
    var upstream := ProxyTarget(protocol, hostname, app.port);
    match SplitHostPort(app.domain)
    case None => ServerSettings(nginxListenPort, app.domain, upstream)
    case Some((host, portStr)) =>
      var listen := match Atoi(portStr) case Some(p) => p case None => nginxListenPort;
      ServerSettings(listen, host, upstream)
  }

  /** A domain written as `host:port` with a plain host serves `host` on `port`. */
  lemma SettingsDomainWithPort(app: AppManifest, nginxListenPort: int, host: string, port: int)
    requires PlainHost(host) && InInt64(port)
    requires app.domain == host + ":" + FormatInt(port)
    ensures Settings(app, nginxListenPort).serverName == host
    ensures Settings(app, nginxListenPort).listenPort == port
  {
    SplitHostPortJoin(host, FormatInt(port));
    AtoiFormatInt(port);
  }

  /**
   * The text of the generated config: one server block that listens on the
   * listen port, is named by the server name, and proxies `/` to the
   * upstream URL, each on a line of its own.
   */
  function RenderConfig(s: ServerSettings): (text: string)
    ensures Contains(text, "    listen " + FormatInt(s.listenPort) + ";\n")
    ensures Contains(text, "    server_name " + s.serverName + ";\n")
    ensures Contains(text, "        proxy_pass " + FormatProxyUrl(s.upstream) + ";\n")
  {
    var open := "server {\n";
    var listen := "    listen " + FormatInt(s.listenPort) + ";\n";
    var name := "    server_name " + s.serverName + ";\n";
    var location := "\n" + "    location / {\n";
    var proxy := "        proxy_pass " + FormatProxyUrl(s.upstream) + ";\n";
    var close := "        proxy_set_header Host $host;\n" +
                 "        proxy_set_header X-Real-IP $remote_addr;\n" +
                 "    }\n" +
                 "}\n";
    var text := open + listen + name + location + proxy + close;
    PiecesContained(open, listen, name, location, proxy, close);
    text
  }

  /** The second, third and fifth of six joined pieces each occur in the whole. */
  lemma PiecesContained(a: string, b: string, c: string, d: string, e: string, f: string)
    ensures Contains(a + b + c + d + e + f, b)
    ensures Contains(a + b + c + d + e + f, c)
    ensures Contains(a + b + c + d + e + f, e)
  {
    var t := a + b + c + d + e + f;
    ContainsMiddle(t, a, b, c + d + e + f);
    ContainsMiddle(t, a + b, c, d + e + f);
    ContainsMiddle(t, a + b + c + d, e, f);
  }

  /**
   * A single word of the config language: not empty, and free of blanks,
   * quotes, the comment sign, `;` and braces, so that it reads back as one
   * parameter.
   */
  predicate ConfigToken(w: string) {
    w != "" && forall c :: c in w ==> c !in " \t\r\n;{}#\"'"
  }

  /** A non-empty start of a config token is a config token. */
  lemma ConfigTokenPrefix(whole: string, part: string, rest: string)
    requires whole == part + rest
    requires ConfigToken(whole) && part != ""
    ensures ConfigToken(part)
  {
    forall c | c in part ensures c !in " \t\r\n;{}#\"'" {
      var k :| 0 <= k < |part| && part[k] == c;
      assert whole[k] == c;
    }
  }

  /** A non-empty end of a config token is a config token. */
  lemma ConfigTokenSuffix(whole: string, lead: string, part: string)
    requires whole == lead + part
    requires ConfigToken(whole) && part != ""
    ensures ConfigToken(part)
  {
    forall c | c in part ensures c !in " \t\r\n;{}#\"'" {
      var k :| 0 <= k < |part| && part[k] == c;
      assert whole[|lead| + k] == c;
    }
  }

  /**
   * The settings whose rendered text reads back as `RenderTree`: the server
   * name, the upstream protocol and the upstream host are each one config
   * word. (The listen port and the upstream port are printed as integers.)
   */
  predicate WordSettings(s: ServerSettings) {
    ConfigToken(s.serverName) && ConfigToken(s.upstream.protocol) && ConfigToken(s.upstream.host)
  }

  /**
   * The directive tree the config parser reads from `RenderConfig(s)` when
   * `WordSettings(s)` holds: the text is built from fixed keywords and those
   * words, so each directive line carries exactly the parameters below. When
   * a name is not one word (it holds a blank, `;`, a brace, `#` or a quote)
   * the text reads differently, and the lemmas below do not speak of it.
   */
  function RenderTree(s: ServerSettings): seq<Directive> {
    [Directive("server", [], Block(ServerBody(s)))]
  }

  function ServerBody(s: ServerSettings): seq<Directive> {
    [Directive("listen", [FormatInt(s.listenPort)], NoBlock),
     Directive("server_name", [s.serverName], NoBlock),
     Directive("location", ["/"], Block(LocationBody(s)))]
  }

  function LocationBody(s: ServerSettings): seq<Directive> {
    [Directive("proxy_pass", [FormatProxyUrl(s.upstream)], NoBlock),
     Directive("proxy_set_header", ["Host", "$host"], NoBlock),
     Directive("proxy_set_header", ["X-Real-IP", "$remote_addr"], NoBlock)]
  }

  /** The location block proxies to the upstream URL and holds no nested locations. */
  lemma LocationBodyCandidates(s: ServerSettings)
    ensures DirectProxyPasses(LocationBody(s)) == [FormatProxyUrl(s.upstream)]
    ensures Candidates(LocationBody(s)) == []
  {
    var ls := LocationBody(s);
    assert ls[1..][1..][1..] == [];
    assert DirectProxyPasses(ls[1..][1..]) == [];
    assert DirectProxyPasses(ls[1..]) == [];
    assert Candidates(ls[1..][1..]) == [];
    assert Candidates(ls[1..]) == [];
  }

  /** The only candidate of the server block is the upstream URL. */
  lemma ServerBodyCandidates(s: ServerSettings)
    ensures Candidates(ServerBody(s)) == [FormatProxyUrl(s.upstream)]
  {
    var ds := ServerBody(s);
    LocationBodyCandidates(s);
    assert ds[1..][1..][1..] == [];
    assert Candidates(ds[1..][1..]) == [FormatProxyUrl(s.upstream)];
    assert Candidates(ds[1..]) == [FormatProxyUrl(s.upstream)];
  }

  /** The server block listens on the listen port, is named by the server name and has no TLS. */
  lemma ServerBodyDetails(s: ServerSettings)
    ensures ServerDetails(Block(ServerBody(s))) == SiteDetails(CheckUrlPrefix + FormatInt(s.listenPort), s.serverName, false)
  {
    var ds := ServerBody(s);
    var p := FormatInt(s.listenPort);
    assert LastFirstParam(ds, "listen") == Some(p) by {
      assert HasFirstParam(ds[0], "listen");
      assert !HasFirstParam(ds[1], "listen") && !HasFirstParam(ds[2], "listen");
    }
    assert LastFirstParam(ds, "server_name") == Some(s.serverName) by {
      assert HasFirstParam(ds[1], "server_name");
      assert !HasFirstParam(ds[2], "server_name");
    }
    assert !AnySsl(ds) by {
      assert p != "ssl" by {
        assert p[0] == '-' || IsDigit(p[0]);
      }
      assert ds[0].params == [p];
      assert !DeclaresSsl(ds[0]) && !DeclaresSsl(ds[1]) && !DeclaresSsl(ds[2]);
    }
  }

  /**
   * Reading the generated config back: the site is checked on the listen
   * port, is named by the server name, has no TLS, and proxies to exactly the
   * URL written.
   */
  lemma RenderedConfigInspection(s: ServerSettings)
    requires WordSettings(s)
    ensures ExtractSiteDetails(Some(RenderTree(s))) == SiteDetails(CheckUrlPrefix + FormatInt(s.listenPort), s.serverName, false)
    ensures BlocksCandidates(ServerBlocks(RenderTree(s))) == [FormatProxyUrl(s.upstream)]
  {
    var tree := RenderTree(s);
    assert ServerBlocks(tree) == [Block(ServerBody(s))] by {
      assert tree[1..] == [];
    }
    ExtractUsesFirstServerBlock(tree);
    ServerBodyDetails(s);
    assert BlocksCandidates([Block(ServerBody(s))]) == Candidates(ServerBody(s)) + BlocksCandidates([]);
    ServerBodyCandidates(s);
  }

  /**
   * The target the manager reads off a generated config is the manifest's
   * upstream, defaults filled in, when that is an http(s) URL with a plain host
   * and every name in the config is one word.
   */
  lemma GeneratedTarget(s: ServerSettings)
    requires WordSettings(s)
    requires s.upstream.protocol == "http" || s.upstream.protocol == "https"
    requires PlainHost(s.upstream.host) && InInt64(s.upstream.port)
    ensures SiteInspector.GetProxyTarget(Some(RenderTree(s))) == Ok(s.upstream)
  {
    RenderedConfigInspection(s);
    ParseFormatProxyUrl(s.upstream);
  }

  /**
   * Forward then reverse discovery: the manifest derived from the generated
   * config file's name and proxy target is the manifest forward discovery
   * started from, for a one-word domain without '_' that serves a non-empty
   * name, and an upstream with explicit http(s) protocol, a plain one-word
   * host and a port in range. Reverse discovery itself skips the main
   * config, so for the domain "nginx", whose file is the main config
   * (`ConfigNameReachesMainConfig`), it derives nothing.
   */
  lemma ForwardThenReverse(app: AppManifest, nginxListenPort: int)
    requires '_' !in app.domain && ConfigToken(app.domain)
    requires Settings(app, nginxListenPort).serverName != ""
    requires app.protocol == "http" || app.protocol == "https"
    requires ConfigToken(app.hostname) && PlainHost(app.hostname) && InInt64(app.port)
    ensures WordSettings(Settings(app, nginxListenPort))
    ensures var target := SiteInspector.GetProxyTarget(Some(RenderTree(Settings(app, nginxListenPort))));
            target.Ok? && DerivedManifest(ConfigName(app.domain), target.value) == app
  {
    ForwardWords(app, nginxListenPort);
    GeneratedTarget(Settings(app, nginxListenPort));
    DomainRoundTrip(app.domain);
  }

  /** One-word manifest fields give settings that are all one word. */
  lemma ForwardWords(app: AppManifest, nginxListenPort: int)
    requires ConfigToken(app.domain) && Settings(app, nginxListenPort).serverName != ""
    requires app.protocol == "http" || app.protocol == "https"
    requires ConfigToken(app.hostname)
    ensures WordSettings(Settings(app, nginxListenPort))
  {
    var s := Settings(app, nginxListenPort);
    ServedNameIsWord(app, nginxListenPort);
    HttpIsWord(app.protocol);
    assert s.upstream.protocol == app.protocol && s.upstream.host == app.hostname;
  }

  lemma HttpIsWord(protocol: string)
    requires protocol == "http" || protocol == "https"
    ensures ConfigToken(protocol)
  {
    assert forall c :: c in protocol ==> c in "https";
  }

  /** The name a one-word domain serves, when not empty, is one word. */
  lemma ServedNameIsWord(app: AppManifest, nginxListenPort: int)
    requires ConfigToken(app.domain) && Settings(app, nginxListenPort).serverName != ""
    ensures ConfigToken(Settings(app, nginxListenPort).serverName)
  {
    if SplitHostPort(app.domain).Some? {
      SplitHostIsWord(app.domain);
    }
  }

  /** The host part of a one-word `host:port`, when not empty, is one word. */
  lemma SplitHostIsWord(hostport: string)
    requires ConfigToken(hostport) && SplitHostPort(hostport).Some? && SplitHostPort(hostport).value.0 != ""
    ensures ConfigToken(SplitHostPort(hostport).value.0)
  {
    var (host, port) := SplitHostPort(hostport).value;
    if hostport[0] == '[' {
      assert hostport == "[" + host + "]:" + port;
      ConfigTokenPrefix(hostport, "[" + host + "]:", port);
      ConfigTokenPrefix("[" + host + "]:", "[" + host, "]:");
      ConfigTokenSuffix("[" + host, "[", host);
    } else {
      assert hostport == host + ":" + port;
      ConfigTokenPrefix(hostport, host + ":", port);
      ConfigTokenPrefix(host + ":", host, ":");
    }
  }

  /** The manifest reverse discovery writes for a site and its upstream. */
  function DerivedManifest(siteName: string, target: ProxyTarget): (app: AppManifest)
    ensures app.domain == DomainFromSiteName(siteName)
    ensures app.protocol == target.protocol && app.hostname == target.host && app.port == target.port
  {
    AppManifest(DomainFromSiteName(siteName), target.protocol, target.host, target.port)
  }

  // ---------------------------------------------------------------------
  // The watcher
  // ---------------------------------------------------------------------

  function Rank(stage: Stage): nat {
    match stage
    case Save => 0
    case Enable => 1
    case Test => 2
    case Reload => 3
  }

  /** Each stage is attempted at most once, and in pipeline order. */
  predicate InPipelineOrder(steps: seq<Step>) {
    forall i, j :: 0 <= i < j < |steps| ==> Rank(steps[i].stage) < Rank(steps[j].stage)
  }

  predicate Attempted(steps: seq<Step>, stage: Stage) {
    exists i :: 0 <= i < |steps| && steps[i].stage == stage
  }

  predicate Succeeded(steps: seq<Step>, stage: Stage) {
    exists i :: 0 <= i < |steps| && steps[i] == Step(stage, true)
  }

  /** The steps that follow a successful save, given how each stage that ran went. */
  function Activation(enableRan: bool, enabled: bool, tested: bool, reloaded: bool): seq<Step> {
    (if enableRan then [Step(Enable, enabled)] else []) +
    [Step(Test, tested)] + (if tested then [Step(Reload, reloaded)] else [])
  }

  /** The steps of one deployment, given how each stage that ran went. */
  function Pipeline(saved: bool, enableRan: bool, enabled: bool, tested: bool, reloaded: bool): seq<Step> {
    if !saved then [Step(Save, false)]
    else [Step(Save, true)] + Activation(enableRan, enabled, tested, reloaded)
  }

  /**
   * A deployment starts by saving; nothing runs after a failed save; enabling
   * and testing follow a successful save; reloading follows a passed test.
   */
  lemma PipelineShape(saved: bool, enableRan: bool, enabled: bool, tested: bool, reloaded: bool)
    ensures var steps := Pipeline(saved, enableRan, enabled, tested, reloaded);
            steps != [] && steps[0] == Step(Save, saved) && InPipelineOrder(steps) &&
            (Succeeded(steps, Save) <==> saved) &&
            (Attempted(steps, Enable) <==> saved && enableRan) &&
            (Succeeded(steps, Enable) <==> saved && enableRan && enabled) &&
            (Attempted(steps, Test) <==> saved) &&
            (Succeeded(steps, Test) <==> saved && tested) &&
            (Attempted(steps, Reload) <==> saved && tested)
  {
    var steps := Pipeline(saved, enableRan, enabled, tested, reloaded);
    if saved {
      var e := if enableRan then [Step(Enable, enabled)] else [];
      var rl := if tested then [Step(Reload, reloaded)] else [];
      var t := |e| + 1;
      assert steps == [Step(Save, true)] + (e + [Step(Test, tested)] + rl);
      assert steps == [Step(Save, true)] + e + [Step(Test, tested)] + rl;
      assert steps[t] == Step(Test, tested);
      if enableRan {
        assert steps[1] == Step(Enable, enabled);
      }
      if tested {
        assert steps[t + 1] == Step(Reload, reloaded);
      }
      forall i | 0 <= i < |steps|
        ensures steps[i].stage == (if i == 0 then Save else if i == t then Test else if i < t then Enable else Reload)
      {
      }
    }
  }

  /** The apps directory: each manifest file name and what decoding that file gives. */
  type Manifests = map<string, Option<AppManifest>>

  /**
   * The apps directory after reverse discovery has visited `names` in order,
   * starting from `known`. `discovered` holds the manifest derived from each
   * qualifying site; such a site gets its manifest unless the manifest name
   * is already taken.
   */
  function SyncNames(known: Manifests, names: seq<string>, discovered: map<string, AppManifest>): Manifests
    decreases |names|
  {
    if names == [] then known
    else
      var before := SyncNames(known, names[..|names| - 1], discovered);
      var name := names[|names| - 1];
      if name in discovered && ManifestName(name) !in before then
        before[ManifestName(name) := Some(discovered[name])]
      else before
  }

  lemma SyncNamesSnoc(known: Manifests, names: seq<string>, name: string, discovered: map<string, AppManifest>)
    ensures SyncNames(known, names + [name], discovered) ==
            var before := SyncNames(known, names, discovered);
            if name in discovered && ManifestName(name) !in before then before[ManifestName(name) := Some(discovered[name])]
            else before
  {
    assert (names + [name])[..|names|] == names;
  }

  /** Reverse discovery never changes or removes a manifest that exists. */
  lemma {:induction false} SyncNamesKeeps(known: Manifests, names: seq<string>, discovered: map<string, AppManifest>)
    ensures forall k :: k in known ==> k in SyncNames(known, names, discovered) && SyncNames(known, names, discovered)[k] == known[k]
  {
    if names != [] {
      SyncNamesKeeps(known, names[..|names| - 1], discovered);
    }
  }

  /** Every qualifying site reverse discovery visits ends up with its manifest name taken. */
  lemma {:induction false} SyncNamesCovers(known: Manifests, names: seq<string>, discovered: map<string, AppManifest>)
    ensures forall j :: 0 <= j < |names| && names[j] in discovered ==> ManifestName(names[j]) in SyncNames(known, names, discovered)
  {
    if names != [] {
      var prefix := names[..|names| - 1];
      SyncNamesCovers(known, prefix, discovered);
      forall j | 0 <= j < |names| - 1 && names[j] in discovered
        ensures ManifestName(names[j]) in SyncNames(known, names, discovered)
      {
        assert prefix[j] == names[j];
      }
    }
  }

  /** Every manifest reverse discovery adds is the one discovered for a site it visited. */
  lemma {:induction false} SyncNamesOrigin(known: Manifests, names: seq<string>, discovered: map<string, AppManifest>, k: string)
    requires k in SyncNames(known, names, discovered) && k !in known
    ensures exists j :: 0 <= j < |names| && names[j] in discovered && ManifestName(names[j]) == k &&
                        SyncNames(known, names, discovered)[k] == Some(discovered[names[j]])
  {
    var prefix := names[..|names| - 1];
    var last := names[|names| - 1];
    assert names == prefix + [last];
    SyncNamesSnoc(known, prefix, last, discovered);
    var before := SyncNames(known, prefix, discovered);
    var after := SyncNames(known, names, discovered);
    if k in before {
      assert after[k] == before[k];
      SyncNamesOrigin(known, prefix, discovered, k);
      var j :| 0 <= j < |prefix| && prefix[j] in discovered && ManifestName(prefix[j]) == k &&
               before[k] == Some(discovered[prefix[j]]);
      assert names[j] == prefix[j];
    } else {
      assert last in discovered && ManifestName(last) == k && after[k] == Some(discovered[last]);
    }
  }

  /** When every qualifying site already has its manifest name, reverse discovery changes nothing. */
  lemma {:induction false} SyncNamesIdle(known: Manifests, names: seq<string>, discovered: map<string, AppManifest>)
    requires forall j :: 0 <= j < |names| && names[j] in discovered ==> ManifestName(names[j]) in known
    ensures SyncNames(known, names, discovered) == known
  {
    if names != [] {
      var prefix := names[..|names| - 1];
      assert forall j :: 0 <= j < |prefix| ==> prefix[j] == names[j];
      SyncNamesIdle(known, prefix, discovered);
    }
  }

  class Watcher {
    const manager: Manager
    const appsDir: string
    const nginxListenPort: int

    /** The manifest files of the apps directory and what decoding each gives. */
    var manifests: Manifests

    /** `NewWatcher`: an empty apps directory and a zero listen port fall back to the defaults. */
    constructor (manager: Manager, appsDir: string, nginxListenPort: int, manifests: map<string, Option<AppManifest>>)
      ensures this.manager == manager
      ensures this.appsDir == if appsDir == "" then AppManifestDir else appsDir
      ensures this.nginxListenPort == if nginxListenPort == 0 then DefaultNginxListenPort else nginxListenPort
      ensures this.manifests == manifests
    {
      this.manager := manager;
      this.appsDir := if appsDir == "" then AppManifestDir else appsDir;
      this.nginxListenPort := if nginxListenPort == 0 then DefaultNginxListenPort else nginxListenPort;
      this.manifests := manifests;
    }

    /**
     * `generateNginxConfig`: the config text for an app on this watcher's
     * listen port. It proxies to the app's upstream, defaults filled in; a
     * domain without a port is served on the watcher's listen port.
     */
    function GenerateNginxConfig(app: AppManifest): (text: string)
      ensures var protocol := if app.protocol == "" then DefaultProtocol else app.protocol;
              var host := if app.hostname == "" then DefaultHostname else app.hostname;
              Contains(text, "        proxy_pass " + FormatProxyUrl(ProxyTarget(protocol, host, app.port)) + ";\n")
      ensures ':' !in app.domain ==> Contains(text, "    listen " + FormatInt(nginxListenPort) + ";\n") &&
                                     Contains(text, "    server_name " + app.domain + ";\n")
    {
      var s := Settings(app, nginxListenPort);
      assert s.upstream == ProxyTarget(if app.protocol == "" then DefaultProtocol else app.protocol,
                                       if app.hostname == "" then DefaultHostname else app.hostname, app.port);
      RenderConfig(s)
    }

    /** The path of the manifest file `name` in the apps directory. */
    function ManifestPath(name: string): (path: string)
      ensures HasPrefix(path, appsDir + "/") && path[|appsDir| + 1..] == name
      ensures IsManifestFile(name) ==> IsManifestFile(path)
    {
      var path := Join(appsDir, name);
      assert path[..|appsDir| + 1] == appsDir + "/";
      assert HasSuffix(name, ".yaml") ==> path[|path| - 5..] == name[|name| - 5..];
      assert HasSuffix(name, ".yml") ==> path[|path| - 4..] == name[|name| - 4..];
      path
    }

    /**
     * The manifest a change to `path` deploys: a manifest file of the apps
     * directory that reads, decodes, and is deployable.
     */
    function Accepted(path: string): (app: Option<AppManifest>)
      reads this
      ensures app.Some? <==> IsManifestFile(path) && HasPrefix(path, appsDir + "/") &&
                             var name := path[|appsDir| + 1..];
                             name in manifests && manifests[name].Some? && Deployable(manifests[name].value)
      ensures app.Some? ==> app.value == manifests[path[|appsDir| + 1..]].value
    {
      if !IsManifestFile(path) || !HasPrefix(path, appsDir + "/") then None
      else
        var name := path[|appsDir| + 1..];
        if name in manifests && manifests[name].Some? && Deployable(manifests[name].value)
        then manifests[name]
        else None
    }

    /**
     * Both halves of discovery address the apps directory alike: a change to
     * the path of a manifest file deploys exactly the deployable manifest
     * stored under that file name, such as one reverse discovery wrote.
     */
    lemma AcceptedAt(name: string)
      requires IsManifestFile(name)
      ensures Accepted(ManifestPath(name)) ==
                if name in manifests && manifests[name].Some? && Deployable(manifests[name].value)
                then manifests[name] else None
    {
    }

    /**
     * `handleFileChange`: deploy the manifest at `path`, if it is a manifest
     * file of the apps directory that decodes and is deployable. `steps`
     * lists what was run on the manager and how it went.
     */
    method HandleFileChange(path: string) returns (steps: seq<Step>)
      modifies manager
      ensures manager.history == old(manager.history) + steps
      ensures Accepted(path).None? <==> steps == []
      ensures Accepted(path).None? ==> unchanged(manager)
      ensures Accepted(path).Some? ==> Deployment(ConfigName(Accepted(path).value.domain), steps)
      ensures Accepted(path).Some? ==> DeployedState(ConfigName(Accepted(path).value.domain), GenerateNginxConfig(Accepted(path).value),
                                                     steps, old(manager.mainConfig), old(manager.available), old(manager.enabled))
      ensures manager.archived == old(manager.archived)
    {
      steps := [];
      if !IsManifestFile(path) || !HasPrefix(path, appsDir + "/") {
        return;
      }
      var name := path[|appsDir| + 1..];
      if name !in manifests || manifests[name].None? {
        return;
      }
      var app := manifests[name].value;
      if app.domain == "" || app.port == 0 {
        return;
      }
      steps := Deploy(app);
    }

    /**
     * The steps of a deployment: it starts by saving; enabling runs after a
     * successful save exactly when an enabled directory is configured, and
     * succeeds exactly when the config is not the main config; testing runs
     * after a successful save; reloading runs exactly after a passed test.
     */
    predicate Deployment(conf: string, steps: seq<Step>)
      reads manager
    {
      steps != [] && steps[0].stage == Save && InPipelineOrder(steps) &&
      (Attempted(steps, Enable) <==> Succeeded(steps, Save) && manager.enabledDir != "") &&
      (Succeeded(steps, Enable) <==> Attempted(steps, Enable) && conf != MainConfigName) &&
      (Attempted(steps, Test) <==> Succeeded(steps, Save)) &&
      (Attempted(steps, Reload) <==> Succeeded(steps, Test))
    }

    /**
     * The manager after deploying `text` as `conf`, given its config files
     * and links before: nothing changed unless the save succeeded; then the
     * text reads back under `conf`, and the link exists when enabling
     * succeeded.
     */
    predicate DeployedState(conf: string, text: string, steps: seq<Step>, mainConfig: Option<string>,
                            available: map<string, string>, enabled: set<string>)
      reads manager
    {
      (!Succeeded(steps, Save) ==>
         manager.mainConfig == mainConfig && manager.available == available && manager.enabled == enabled) &&
      (Succeeded(steps, Save) ==>
         manager.ReadConfig(conf) == Some(text) &&
         (conf == MainConfigName ==> manager.mainConfig == Some(text) && manager.available == available) &&
         (conf != MainConfigName ==> manager.available == available[conf := text] && manager.mainConfig == mainConfig) &&
         manager.enabled == if Succeeded(steps, Enable) then enabled + {conf} else enabled)
    }

    /**
     * Steps 2 to 5 of `handleFileChange` for a deployable manifest: save the
     * generated config under the mangled name, then activate it.
     */
    method Deploy(app: AppManifest) returns (steps: seq<Step>)
      modifies manager
      ensures manager.history == old(manager.history) + steps
      ensures Deployment(ConfigName(app.domain), steps)
      ensures DeployedState(ConfigName(app.domain), GenerateNginxConfig(app), steps,
                            old(manager.mainConfig), old(manager.available), old(manager.enabled))
      ensures manager.archived == old(manager.archived)
    {
      steps := Install(ConfigName(app.domain), GenerateNginxConfig(app));
    }

    /** Steps 3 to 5 of `handleFileChange`: save `confContent` as `confName`, then activate it. */
    method Install(confName: string, confContent: string) returns (steps: seq<Step>)
      modifies manager
      ensures manager.history == old(manager.history) + steps
      ensures Deployment(confName, steps)
      ensures DeployedState(confName, confContent, steps, old(manager.mainConfig), old(manager.available), old(manager.enabled))
      ensures manager.archived == old(manager.archived)
    {
      ghost var before := manager.history;
      var saved := manager.SaveConfig(confName, confContent);
      var enableRan, enabled, tested, reloaded := false, false, false, false;
      if saved.Pass? {
        enableRan, enabled, tested, reloaded := Activate(confName);
        assert manager.history == before + ([Step(Save, true)] + Activation(enableRan, enabled, tested, reloaded));
      }
      PipelineShape(saved.Pass?, enableRan, enabled, tested, reloaded);
      steps := Pipeline(saved.Pass?, enableRan, enabled, tested, reloaded);
      assert Succeeded(steps, Save) == saved.Pass? && Succeeded(steps, Enable) == (saved.Pass? && enabled);
    }

    /**
     * The chain after a successful save: enable when an enabled directory is
     * configured, whatever that gives; then test; then reload only if the test
     * passed. The outcomes say which ran and how each went.
     */
    method Activate(confName: string) returns (enableRan: bool, enabled: bool, tested: bool, reloaded: bool)
      modifies manager
      ensures manager.history == old(manager.history) + Activation(enableRan, enabled, tested, reloaded)
      ensures enableRan <==> manager.enabledDir != ""
      ensures enabled <==> enableRan && confName != MainConfigName
      ensures !tested ==> !reloaded
      ensures manager.enabled == if enabled then old(manager.enabled) + {confName} else old(manager.enabled)
      ensures manager.mainConfig == old(manager.mainConfig) && manager.available == old(manager.available)
      ensures manager.archived == old(manager.archived)
    {
      enableRan, enabled, tested, reloaded := false, false, false, false;
      if manager.enabledDir != "" {
        enableRan := true;
        var r := manager.EnableSite(confName);
        enabled := r.Pass?;
      }
      var t := manager.TestConfig();
      tested := t.Pass?;
      if tested {
        var r := manager.Reload();
        reloaded := r.Pass?;
      }
    }

    /** The test `SyncManifests` applies to each site: not the main config, and with a proxy target. */
    predicate Qualifies(name: string, parse: Parser)
      reads manager
    {
      name != MainConfigName && manager.GetProxyTarget(name, parse).Ok?
    }

    /** The manifest reverse discovery derives for a qualifying site. */
    function Discovered(name: string, parse: Parser): (app: AppManifest)
      reads manager
      requires Qualifies(name, parse)
      ensures app.domain == DomainFromSiteName(name)
      ensures manager.GetProxyTarget(name, parse) == Ok(ProxyTarget(app.protocol, app.hostname, app.port))
    {
      DerivedManifest(name, manager.GetProxyTarget(name, parse).value)
    }

    /** A site reverse discovery writes a manifest for: listed, not the main config, and with a proxy target. */
    predicate Eligible(name: string, parse: Parser)
      reads manager
    {
      (name in manager.ListedAvailable() || name in manager.ListedArchived()) && Qualifies(name, parse)
    }

    /**
     * `SyncManifests`: for every listed site other than the main config that
     * has a proxy target, write the manifest derived from its name and target
     * unless a file of that manifest name exists. Existing manifests are never
     * changed, and a second run adds nothing.
     */
    method SyncManifests(parse: Parser, probe: Prober)
      modifies this
      ensures forall k :: k in old(manifests) ==> k in manifests && manifests[k] == old(manifests)[k]
      ensures forall n :: Eligible(n, parse) ==> ManifestName(n) in manifests
      ensures forall k :: k in manifests && k !in old(manifests) ==>
                exists n :: Eligible(n, parse) && ManifestName(n) == k && manifests[k] == Some(Discovered(n, parse))
      ensures (forall n :: Eligible(n, parse) ==> ManifestName(n) in old(manifests)) ==> manifests == old(manifests)
    {
      var sites := manager.GetSites(parse, probe);
      var names := Names(sites);
      ghost var discovered := map n | n in names && Qualifies(n, parse) :: Discovered(n, parse);
      SyncSites(names, parse, discovered);
      SyncOutcome(old(manifests), names, parse, discovered);
    }

    /**
     * What reverse discovery over the names `GetSites` lists does to the apps
     * directory `known`: keeps every manifest, gives every eligible site a
     * manifest name, adds only manifests derived from eligible sites, and
     * changes nothing when every eligible site has its manifest name already.
     */
    lemma SyncOutcome(known: Manifests, names: seq<string>, parse: Parser, discovered: map<string, AppManifest>)
      requires multiset(names) == multiset{MainConfigName} + multiset(manager.ListedAvailable()) + multiset(manager.ListedArchived())
      requires forall n :: n in discovered <==> n in names && Qualifies(n, parse)
      requires forall n :: n in discovered ==> discovered[n] == Discovered(n, parse)
      ensures var result := SyncNames(known, names, discovered);
              (forall k :: k in known ==> k in result && result[k] == known[k]) &&
              (forall n :: Eligible(n, parse) ==> ManifestName(n) in result) &&
              (forall k :: k in result && k !in known ==>
                 exists n :: Eligible(n, parse) && ManifestName(n) == k && result[k] == Some(Discovered(n, parse))) &&
              ((forall n :: Eligible(n, parse) ==> ManifestName(n) in known) ==> result == known)
    {
      var result := SyncNames(known, names, discovered);
      ListedNames(names, parse);
      SyncNamesKeeps(known, names, discovered);
      SyncNamesCovers(known, names, discovered);
      forall n | Eligible(n, parse) ensures ManifestName(n) in result {
        var j :| 0 <= j < |names| && names[j] == n;
      }
      forall k | k in result && k !in known
        ensures exists n :: Eligible(n, parse) && ManifestName(n) == k && result[k] == Some(Discovered(n, parse))
      {
        SyncNamesOrigin(known, names, discovered, k);
        var j :| 0 <= j < |names| && names[j] in discovered && ManifestName(names[j]) == k &&
                 result[k] == Some(discovered[names[j]]);
        assert Eligible(names[j], parse);
      }
      if forall n :: Eligible(n, parse) ==> ManifestName(n) in known {
        SyncNamesIdle(known, names, discovered);
      }
    }

    /** The loop of `SyncManifests` over the site names, in order. */
    method SyncSites(names: seq<string>, parse: Parser, ghost discovered: map<string, AppManifest>)
      modifies this
      requires forall n :: n in names ==> (n in discovered <==> Qualifies(n, parse))
      requires forall n :: n in names && n in discovered ==> discovered[n] == Discovered(n, parse)
      ensures manifests == SyncNames(old(manifests), names, discovered)
    {
      for i := 0 to |names|
        invariant manifests == SyncNames(old(manifests), names[..i], discovered)
      {
        SyncNamesSnoc(old(manifests), names[..i], names[i], discovered);
        assert names[..i + 1] == names[..i] + [names[i]];
        assert names[i] in names;
        SyncSite(names[i], parse, discovered);
      }
      assert names[..|names|] == names;
    }

    /** One iteration of `SyncManifests`: the site `name`, whose manifest, if it qualifies, is `discovered[name]`. */
    method SyncSite(name: string, parse: Parser, ghost discovered: map<string, AppManifest>)
      modifies this
      requires name in discovered <==> Qualifies(name, parse)
      requires name in discovered ==> discovered[name] == Discovered(name, parse)
      ensures manifests == if name in discovered && ManifestName(name) !in old(manifests)
                           then old(manifests)[ManifestName(name) := Some(discovered[name])]
                           else old(manifests)
    {
      if name == MainConfigName {
        return;
      }
      var target := manager.GetProxyTarget(name, parse);
      if target.Err? {
        return;
      }
      var manifestName := ManifestName(name);
      if manifestName in manifests {
        return;
      }
      manifests := manifests[manifestName := Some(DerivedManifest(name, target.value))];
    }

    /** The names `GetSites` returns are the main config's and the listed ones, each eligible when it qualifies. */
    lemma ListedNames(names: seq<string>, parse: Parser)
      requires multiset(names) == multiset{MainConfigName} + multiset(manager.ListedAvailable()) + multiset(manager.ListedArchived())
      ensures forall j :: 0 <= j < |names| && Qualifies(names[j], parse) ==> Eligible(names[j], parse)
      ensures forall n :: Eligible(n, parse) ==> n in names
    {
      forall j | 0 <= j < |names| && Qualifies(names[j], parse) ensures Eligible(names[j], parse) {
        assert names[j] in multiset(names);
      }
      forall n | Eligible(n, parse) ensures n in names {
        assert n in multiset(names);
      }
    }
  }
}
