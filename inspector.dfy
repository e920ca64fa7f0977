/**
 * Site inspection (nginx/manager.go): what the manager reads out of a parsed
 * config — the local check URL, the server name and the TLS flag of the
 * first server block, and the upstream of the first `location > proxy_pass`.
 */
module SiteInspector {
  import opened Wrappers
  import opened Strings
  import opened Directives
  import opened Errors

  /** Every check URL points at the local listener, in clear text. */
  const CheckUrlPrefix: string := "http://127.0.0.1:"
  const DefaultListenPort: string := "80"
  /** Port assumed for a proxy_pass target that names none or names an unreadable one. */
  const DefaultUpstreamPort: int := 80

  /** What `extractSiteDetails` returns: check URL, server_name and whether the site declares TLS. */
  datatype SiteDetails = SiteDetails(checkUrl: string, domain: string, hasSsl: bool)

  /** The result for a config that does not parse or has no server block. */
  const Undetermined: SiteDetails := SiteDetails("", "", false)

  // ---------------------------------------------------------------------
  // parseServerBlock
  // ---------------------------------------------------------------------

  /** A directive called `name` that has at least one parameter. */
  predicate HasFirstParam(d: Directive, name: string) {
    d.name == name && |d.params| > 0
  }

  /**
   * The first parameter of the LAST directive called `name` that has
   * parameters; later directives overwrite earlier ones.
   */
  function LastFirstParam(ds: seq<Directive>, name: string): (r: Option<string>)
    ensures r.None? <==> forall k :: 0 <= k < |ds| ==> !HasFirstParam(ds[k], name)
    ensures r.Some? ==> exists k :: 0 <= k < |ds| && HasFirstParam(ds[k], name) && r.value == ds[k].params[0] &&
                                    forall l :: k < l < |ds| ==> !HasFirstParam(ds[l], name)
  {
    if ds == [] then None
    else if HasFirstParam(ds[|ds| - 1], name) then Some(ds[|ds| - 1].params[0])
    else
      var r := LastFirstParam(ds[..|ds| - 1], name);
      assert forall k :: 0 <= k < |ds| - 1 ==> ds[..|ds| - 1][k] == ds[k];
      r
  }

  lemma LastFirstParamSnoc(ds: seq<Directive>, d: Directive, name: string)
    ensures LastFirstParam(ds + [d], name) == if HasFirstParam(d, name) then Some(d.params[0]) else LastFirstParam(ds, name)
  {
    assert (ds + [d])[..|ds|] == ds;
  }

  /** A `listen ... ssl` or an `ssl_certificate` directive. */
  predicate DeclaresSsl(d: Directive) {
    (d.name == "listen" && "ssl" in d.params) || d.name == "ssl_certificate"
  }

  predicate AnySsl(ds: seq<Directive>) {
    exists k :: 0 <= k < |ds| && DeclaresSsl(ds[k])
  }

  lemma AnySslSnoc(ds: seq<Directive>, d: Directive)
    ensures AnySsl(ds + [d]) == (AnySsl(ds) || DeclaresSsl(d))
  {
    if AnySsl(ds) {
      var k :| 0 <= k < |ds| && DeclaresSsl(ds[k]);
      assert (ds + [d])[k] == ds[k];
    }
    assert (ds + [d])[|ds|] == d;
  }

  /**
   * The details of one server block: port from the last `listen` with
   * parameters (default "80"), domain from the last `server_name` with
   * parameters (default ""), TLS if any directive declares it. The scheme of
   * the check URL is `http` whatever the TLS flag.
   */
  function ServerDetails(block: Block): (r: SiteDetails)
    ensures HasPrefix(r.checkUrl, CheckUrlPrefix) && r.checkUrl != ""
    ensures block.NoBlock? ==> !r.hasSsl && r.domain == ""
  {
    var port := if block.Block? then LastFirstParam(block.directives, "listen").GetOr(DefaultListenPort) else DefaultListenPort;
    assert (CheckUrlPrefix + port)[..|CheckUrlPrefix|] == CheckUrlPrefix;
    match block
    case NoBlock => SiteDetails(CheckUrlPrefix + DefaultListenPort, "", false)
    case Block(ds) =>
      SiteDetails(CheckUrlPrefix + LastFirstParam(ds, "listen").GetOr(DefaultListenPort),
                  LastFirstParam(ds, "server_name").GetOr(""),
                  AnySsl(ds))
  }

  /** The scan of a `listen` directive's parameters for `ssl`. */
  method HasSslParam(params: seq<string>) returns (found: bool)
    ensures found <==> "ssl" in params
  {
    found := false;
    for j := 0 to |params|
      invariant found <==> "ssl" in params[..j]
    {
      assert params[..j + 1] == params[..j] + [params[j]];
      if params[j] == "ssl" {
        found := true;
      }
    }
    assert params[..|params|] == params;
  }

  /** `parseServerBlock`: one pass over the block, overwriting port, domain and TLS flag. */
  method ParseServerBlock(block: Block) returns (checkUrl: string, domain: string, hasSsl: bool)
    ensures SiteDetails(checkUrl, domain, hasSsl) == ServerDetails(block)
    ensures HasPrefix(checkUrl, CheckUrlPrefix)
  {
    if block.NoBlock? {
      return CheckUrlPrefix + DefaultListenPort, "", false;
    }
    var ds := block.directives;
    var port := DefaultListenPort;
    domain, hasSsl := "", false;
    var i := 0;
    while i < |ds|
      invariant 0 <= i <= |ds|
      invariant port == LastFirstParam(ds[..i], "listen").GetOr(DefaultListenPort)
      invariant domain == LastFirstParam(ds[..i], "server_name").GetOr("")
      invariant hasSsl == AnySsl(ds[..i])
    {
      var d := ds[i];
      assert ds[..i + 1] == ds[..i] + [d];
      LastFirstParamSnoc(ds[..i], d, "listen");
      LastFirstParamSnoc(ds[..i], d, "server_name");
      AnySslSnoc(ds[..i], d);
      if d.name == "listen" {
        if |d.params| > 0 {
          port := d.params[0];
          var ssl := HasSslParam(d.params);
          if ssl {
            hasSsl := true;
          }
        }
      }
      if d.name == "server_name" {
        if |d.params| > 0 {
          domain := d.params[0];
        }
      }
      if d.name == "ssl_certificate" {
        hasSsl := true;
      }
      i := i + 1;
    }
    assert ds[..i] == ds;
    checkUrl := CheckUrlPrefix + port;
  }

  // ---------------------------------------------------------------------
  // extractSiteDetails: first server block, top level or inside `http`
  // ---------------------------------------------------------------------

  /** The block of the first `server` directly inside an `http` block. */
  function FirstHttpServer(hs: seq<Directive>): Option<Block>
  {
    if hs == [] then None
    else if hs[0].name == "server" then Some(hs[0].block)
    else FirstHttpServer(hs[1..])
  }

  /** `extractSiteDetails` after parsing: the details of the first server block met, or nothing. */
  function ScanForServer(ds: seq<Directive>): (r: SiteDetails)
    ensures r == Undetermined || (r.checkUrl != "" && HasPrefix(r.checkUrl, CheckUrlPrefix))
  {
    if ds == [] then Undetermined
    else if ds[0].name == "server" then ServerDetails(ds[0].block)
    else if ds[0].name == "http" && ds[0].block.Block? && FirstHttpServer(ds[0].block.directives).Some? then
      ServerDetails(FirstHttpServer(ds[0].block.directives).value)
    else ScanForServer(ds[1..])
  }

  /** `extractSiteDetails`: a config that does not read or parse yields empty details. */
  function ExtractSiteDetails(conf: Parsed): (r: SiteDetails)
    ensures r.checkUrl == "" ==> r == Undetermined
    ensures r.checkUrl != "" ==> HasPrefix(r.checkUrl, CheckUrlPrefix)
  {
    match conf
    case None => Undetermined
    case Some(ds) => ScanForServer(ds)
  }

  /** The server blocks directly inside an `http` block, in order. */
  function HttpServers(hs: seq<Directive>): seq<Block>
  {
    if hs == [] then []
    else (if hs[0].name == "server" then [hs[0].block] else []) + HttpServers(hs[1..])
  }

  /** Every server block of a file in document order: top-level ones and those inside `http`. */
  function ServerBlocks(ds: seq<Directive>): seq<Block>
  {
    if ds == [] then []
    else
      (if ds[0].name == "server" then [ds[0].block]
       else if ds[0].name == "http" && ds[0].block.Block? then HttpServers(ds[0].block.directives)
       else [])
      + ServerBlocks(ds[1..])
  }

  lemma {:induction false} FirstHttpServerIsFirst(hs: seq<Directive>)
    ensures FirstHttpServer(hs) == if HttpServers(hs) == [] then None else Some(HttpServers(hs)[0])
  {
    if hs != [] && hs[0].name != "server" {
      FirstHttpServerIsFirst(hs[1..]);
    }
  }

  /** Only the first server block in document order is inspected; without one, nothing is known. */
  lemma {:induction false} ExtractUsesFirstServerBlock(ds: seq<Directive>)
    ensures ExtractSiteDetails(Some(ds)) ==
            if ServerBlocks(ds) == [] then Undetermined else ServerDetails(ServerBlocks(ds)[0])
  {
    if ds != [] {
      ExtractUsesFirstServerBlock(ds[1..]);
      if ds[0].name == "http" && ds[0].block.Block? {
        FirstHttpServerIsFirst(ds[0].block.directives);
      }
    }
  }

  // ---------------------------------------------------------------------
  // findProxyPass: depth-first search for `location > proxy_pass`
  // ---------------------------------------------------------------------

  /** The first `proxy_pass` with a parameter directly inside a location block. */
  function LocationProxyPass(ls: seq<Directive>): Option<string>
  {
    if ls == [] then None
    else if HasFirstParam(ls[0], "proxy_pass") then Some(ls[0].params[0])
    else LocationProxyPass(ls[1..])
  }

  /**
   * `findProxyPass`: for each directive in order, first the proxy_pass
   * directly inside it when it is a `location`, then a recursive search of
   * its block; the first hit wins.
   */
  function FindProxyPass(ds: seq<Directive>): Option<string>
  {
    if ds == [] then None
    else
      var d := ds[0];
      var direct := if d.name == "location" && d.block.Block? then LocationProxyPass(d.block.directives) else None;
      if direct.Some? then direct
      else
        var nested := if d.block.Block? then FindProxyPass(d.block.directives) else None;
        if nested.Some? then nested else FindProxyPass(ds[1..])
  }

  /** The head of a sequence, if any. */
  function First(s: seq<string>): (r: Option<string>)
    ensures r.Some? <==> s != []
    ensures r.Some? ==> r.value == s[0]
  {
    if s == [] then None else Some(s[0])
  }

  /** All targets of `proxy_pass` directives with a parameter directly inside `ls`, in order. */
  function DirectProxyPasses(ls: seq<Directive>): seq<string>
  {
    if ls == [] then []
    else (if HasFirstParam(ls[0], "proxy_pass") then [ls[0].params[0]] else []) + DirectProxyPasses(ls[1..])
  }

  /**
   * Reference definition: every proxy_pass target sitting directly in a
   * location block anywhere in the tree, in depth-first, left-to-right order.
   */
  function Candidates(ds: seq<Directive>): seq<string>
  {
    if ds == [] then []
    else
      var d := ds[0];
      (if d.name == "location" && d.block.Block? then DirectProxyPasses(d.block.directives) else [])
      + (if d.block.Block? then Candidates(d.block.directives) else [])
      + Candidates(ds[1..])
  }

  lemma FirstOfAppend(a: seq<string>, b: seq<string>)
    ensures First(a + b) == if a != [] then First(a) else First(b)
  {
    if a != [] {
      assert (a + b)[0] == a[0];
    } else {
      assert a + b == b;
    }
  }

  lemma {:induction false} LocationProxyPassIsFirst(ls: seq<Directive>)
    ensures LocationProxyPass(ls) == First(DirectProxyPasses(ls))
  {
    if ls != [] {
      LocationProxyPassIsFirst(ls[1..]);
      var head := if HasFirstParam(ls[0], "proxy_pass") then [ls[0].params[0]] else [];
      FirstOfAppend(head, DirectProxyPasses(ls[1..]));
    }
  }

  /** `findProxyPass` returns the first candidate in depth-first, left-to-right order. */
  lemma {:induction false} FindProxyPassIsFirstCandidate(ds: seq<Directive>)
    ensures FindProxyPass(ds) == First(Candidates(ds))
  {
    if ds != [] {
      var d := ds[0];
      var isLocation := d.name == "location" && d.block.Block?;
      var direct := if isLocation then DirectProxyPasses(d.block.directives) else [];
      var nested := if d.block.Block? then Candidates(d.block.directives) else [];
      var rest := Candidates(ds[1..]);
      assert Candidates(ds) == direct + (nested + rest);
      var foundDirect := if isLocation then LocationProxyPass(d.block.directives) else None;
      var foundNested := if d.block.Block? then FindProxyPass(d.block.directives) else None;
      assert FindProxyPass(ds) ==
             if foundDirect.Some? then foundDirect
             else if foundNested.Some? then foundNested
             else FindProxyPass(ds[1..]);
      if isLocation {
        LocationProxyPassIsFirst(d.block.directives);
      }
      assert foundDirect == First(direct);
      if d.block.Block? {
        FindProxyPassIsFirstCandidate(d.block.directives);
      }
      assert foundNested == First(nested);
      FindProxyPassIsFirstCandidate(ds[1..]);
      FirstOfAppend(nested, rest);
      FirstOfAppend(direct, nested + rest);
    }
  }

  // ---------------------------------------------------------------------
  // GetProxyTarget and parseProxyUrl
  // ---------------------------------------------------------------------

  /** The upstream of a site: scheme, host and port of its proxy_pass. */
  datatype ProxyTarget = ProxyTarget(protocol: string, host: string, port: int)

  /** The search in one server block; a server without a block has no target. */
  function ServerProxyPass(b: Block): Option<string>
  {
    match b
    case NoBlock => None
    case Block(ds) => FindProxyPass(ds)
  }

  /** The servers directly inside an `http` block, tried in order. */
  function HttpProxyPass(hs: seq<Directive>): Option<string>
  {
    if hs == [] then None
    else
      var r := if hs[0].name == "server" then ServerProxyPass(hs[0].block) else None;
      if r.Some? then r else HttpProxyPass(hs[1..])
  }

  /** The loop of `GetProxyTarget` over top-level `server` and `http > server` blocks. */
  function FileProxyPass(ds: seq<Directive>): Option<string>
  {
    if ds == [] then None
    else
      var d := ds[0];
      var r := if d.name == "server" then ServerProxyPass(d.block)
               else if d.name == "http" && d.block.Block? then HttpProxyPass(d.block.directives)
               else None;
      if r.Some? then r else FileProxyPass(ds[1..])
  }

  /** The candidates of a list of server blocks, block after block. */
  function BlocksCandidates(bs: seq<Block>): seq<string>
  {
    if bs == [] then []
    else (if bs[0].Block? then Candidates(bs[0].directives) else []) + BlocksCandidates(bs[1..])
  }

  lemma BlocksCandidatesAppend(a: seq<Block>, b: seq<Block>)
    ensures BlocksCandidates(a + b) == BlocksCandidates(a) + BlocksCandidates(b)
  {
    if a != [] {
      assert (a + b)[1..] == a[1..] + b;
    } else {
      assert a + b == b;
    }
  }

  lemma {:induction false} ServerProxyPassIsFirst(b: Block)
    ensures ServerProxyPass(b) == First(BlocksCandidates([b]))
  {
    assert BlocksCandidates([b]) == (if b.Block? then Candidates(b.directives) else []) + BlocksCandidates([]);
    if b.Block? {
      FindProxyPassIsFirstCandidate(b.directives);
    }
  }

  lemma {:induction false} HttpProxyPassIsFirst(hs: seq<Directive>)
    ensures HttpProxyPass(hs) == First(BlocksCandidates(HttpServers(hs)))
  {
    if hs != [] {
      HttpProxyPassIsFirst(hs[1..]);
      var head := if hs[0].name == "server" then [hs[0].block] else [];
      BlocksCandidatesAppend(head, HttpServers(hs[1..]));
      FirstOfAppend(BlocksCandidates(head), BlocksCandidates(HttpServers(hs[1..])));
      if hs[0].name == "server" {
        ServerProxyPassIsFirst(hs[0].block);
      }
    }
  }

  /**
   * The proxy_pass `GetProxyTarget` uses is the first candidate of the whole
   * file: server blocks in document order, each searched depth-first.
   */
  lemma {:induction false} FileProxyPassIsFirst(ds: seq<Directive>)
    ensures FileProxyPass(ds) == First(BlocksCandidates(ServerBlocks(ds)))
  {
    if ds != [] {
      FileProxyPassIsFirst(ds[1..]);
      var d := ds[0];
      var head := if d.name == "server" then [d.block]
                  else if d.name == "http" && d.block.Block? then HttpServers(d.block.directives)
                  else [];
      BlocksCandidatesAppend(head, ServerBlocks(ds[1..]));
      FirstOfAppend(BlocksCandidates(head), BlocksCandidates(ServerBlocks(ds[1..])));
      if d.name == "server" {
        ServerProxyPassIsFirst(d.block);
      } else if d.name == "http" && d.block.Block? {
        HttpProxyPassIsFirst(d.block.directives);
      }
    }
  }

  /** The remainder of a proxy_pass value once `https://` or else `http://` is stripped. */
  function StripScheme(rawUrl: string): string
  {
    if HasPrefix(rawUrl, "https://") then TrimPrefix(rawUrl, "https://") else TrimPrefix(rawUrl, "http://")
  }

  /**
   * `parseProxyUrl`: never fails. Without a splittable `host:port` the whole
   * remainder is the host and the port is 80; a port that is not an integer
   * also becomes 80.
   */
  function ParseProxyUrl(rawUrl: string): (t: ProxyTarget)
    ensures t.protocol == (if HasPrefix(rawUrl, "https://") then "https" else "http")
    ensures InInt64(t.port)
    ensures var sp := SplitHostPort(StripScheme(rawUrl));
            sp.Some? ==> t.host == sp.value.0 &&
                         (Atoi(sp.value.1).None? ==> t.port == DefaultUpstreamPort) &&
                         (Atoi(sp.value.1).Some? ==> t.port == Atoi(sp.value.1).value)
  {
    var protocol := if HasPrefix(rawUrl, "https://") then "https" else "http";
    var rest := StripScheme(rawUrl);
    match SplitHostPort(rest)
    case None => ProxyTarget(protocol, rest, DefaultUpstreamPort)
    case Some((host, portStr)) =>
      match Atoi(portStr)
      case None => ProxyTarget(protocol, host, DefaultUpstreamPort)
      case Some(port) => ProxyTarget(protocol, host, port)
  }

  /** A remainder that does not split as `host:port` (one without a colon, say) is all host, on port 80. */
  lemma ParseProxyUrlHostOnly(rawUrl: string)
    requires SplitHostPort(StripScheme(rawUrl)).None?
    ensures ParseProxyUrl(rawUrl).host == StripScheme(rawUrl)
    ensures ParseProxyUrl(rawUrl).port == DefaultUpstreamPort
  {
  }

  /** The `%s://%s:%d` form in which the manager reports an upstream. */
  function FormatProxyUrl(t: ProxyTarget): string
  {
    t.protocol + "://" + t.host + ":" + FormatInt(t.port)
  }

  /** A host without colons or brackets is a plain host name or IPv4 address. */
  predicate PlainHost(host: string) {
    ':' !in host && '[' !in host && ']' !in host
  }

  /** Formatting an http(s) target with a plain host and parsing it back gives the target. */
  lemma ParseFormatProxyUrl(t: ProxyTarget)
    requires t.protocol == "http" || t.protocol == "https"
    requires PlainHost(t.host) && InInt64(t.port)
    ensures ParseProxyUrl(FormatProxyUrl(t)) == t
  {
    var hostport := t.host + ":" + FormatInt(t.port);
    var raw := FormatProxyUrl(t);
    assert raw == t.protocol + "://" + hostport;
    if t.protocol == "https" {
      assert raw[..8] == "https://";
      assert StripScheme(raw) == hostport;
    } else {
      assert raw[..7] == "http://";
      assert raw[4] == ':';
      assert !HasPrefix(raw, "https://");
      assert StripScheme(raw) == hostport;
    }
    SplitHostPortJoin(t.host, FormatInt(t.port));
    AtoiFormatInt(t.port);
  }

  /** `GetProxyTarget` on a parsed file. */
  function GetProxyTarget(conf: Parsed): (r: Result<ProxyTarget, Error>)
    ensures r.Err? ==> r.error == ParseFailed || r.error == NoProxyTarget
    ensures r == Err(ParseFailed) <==> conf.None?
    ensures r.Err? && r.error == NoProxyTarget ==> conf.Some? && BlocksCandidates(ServerBlocks(conf.value)) == []
    ensures r.Ok? ==> conf.Some? && BlocksCandidates(ServerBlocks(conf.value)) != [] &&
                      r.value == ParseProxyUrl(BlocksCandidates(ServerBlocks(conf.value))[0])
  {
    match conf
    case None => Err(ParseFailed)
    case Some(ds) =>
      FileProxyPassIsFirst(ds);
      match FileProxyPass(ds)
      case None => Err(NoProxyTarget)
      case Some(raw) => Ok(ParseProxyUrl(raw))
  }
}
