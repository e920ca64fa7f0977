# nginx-ui reconciliation core in Dafny

This project models the core of nginx-ui, a small web manager for an nginx host. The core has two parts:

- **The config store** (`nginx/manager.go`, module `Nginx` with `SiteInspector`). It covers:
  - the directory layout: the sites directory, the enabled-link directory, the archive directory, and the main config, which is addressed by the sentinel name `nginx.conf`;
  - the site lifecycle: enable, disable, archive, restore and save;
  - the validation and reload of the server;
  - the enumeration of sites (`GetSites`);
  - the inspection of a parsed config: the check URL, the domain and the TLS flag of the first server block, and the upstream of its first `proxy_pass`.
- **The app-manifest bridge** (`discovery/watcher.go`, module `Discovery`). Forward discovery turns a YAML manifest into a generated server block, saves it, enables it, tests it and reloads. Reverse discovery writes a manifest for every proxied site that has none.

The store's directories are the `Manager` class's state:

- `available` and `archived` map file names to file text;
- `enabled` is the set of link names;
- `mainConfig` is the main config's text, if that file exists.

The manager also keeps a ghost `history`: the save, enable, test and reload operations run on it so far, each with its outcome. A deployment's steps are stated as what it appends to that history.

The apps directory is the `Watcher`'s `manifests` map. It maps a file name in that directory to the decoded manifest, or to `None` when the file does not decode. A change event names the path `appsDir/name`; reverse discovery writes the file `name` of the same directory.

The supporting modules are:

- `Strings`: the Go library functions the core relies on, namely `net.SplitHostPort`, `strconv.Atoi`, `%d`, `strings.ReplaceAll`, `TrimSuffix` and string ordering;
- `Directives`: the parsed config tree;
- `Errors` and `Wrappers`: error kinds and result types.

Some properties proved here go beyond the per-call contracts:

- Inspection returns the first server block and the first `proxy_pass` candidate in depth-first order.
- `parseProxyUrl` inverts the manager's `%s://%s:%d` upstream format for an `http` or `https` upstream whose host has no colon or bracket.
- Domain names survive the mangling that forward discovery applies, whenever the domain has no `_`.
- A forward-then-reverse round trip recovers the original manifest, under these conditions:
  - the domain is a single word of the config language, has no `_`, and serves a non-empty name;
  - the upstream protocol is exactly `http` or `https`;
  - the upstream host is a single config word with no colon or bracket;
  - the port is a 64-bit integer.

  Reverse discovery skips the main config, so the domain `nginx`, which is saved as the main config, is not derived back.
- The list `GetSites` returns is sorted, and it is a permutation of the listed names.
- Reverse discovery never overwrites a manifest, adds only derived manifests, and is idempotent.

## Model

| member | source | states |
|---|---|---|
| Strings.SplitHostPort | discovery/watcher.go:238 | `net.SplitHostPort`: fails without a colon; the port holds no colon or bracket; the input is `host:port` with a colon-free host, or `[host]:port` |
| Strings.SplitHostPortJoin | nginx/manager.go:235 | a colon- and bracket-free host joined to a port with ':' splits back into exactly that host and port |
| Strings.Atoi | discovery/watcher.go:240 | `strconv.Atoi`: on success the value is in 64-bit range and the text starts with a digit or a sign |
| Strings.AtoiFormatInt | nginx/manager.go:244 | `Atoi` of the `%d` rendering of any 64-bit integer gives that integer back |
| Strings.ReplaceAllInverse | discovery/watcher.go:143-144 | replacing a character and replacing it back is the identity when the replacement did not occur in the input |
| Strings.LessTransitive | nginx/manager.go:372-374 | Go's string `<` is transitive |
| Strings.LessTotal | nginx/manager.go:372-374 | any two strings are equal or ordered one way or the other |
| Strings.NotAfterTransitive | nginx/manager.go:372-374 | the not-after order `sort.Slice` leaves names in is transitive |
| SiteInspector.LastFirstParam | nginx/manager.go:131-148 | the first parameter of the last directive of the name with parameters; none iff no such directive |
| SiteInspector.ServerDetails | nginx/manager.go:123-155 | the check URL is `http://127.0.0.1:` plus the port; a missing block gives port 80, no domain, no TLS |
| SiteInspector.ParseServerBlock | nginx/manager.go:123-155 | the loop that overwrites port and domain and sets the TLS flag computes `ServerDetails` of the block |
| SiteInspector.HasSslParam | nginx/manager.go:136-141 | the scan of a `listen` directive's parameters finds `ssl` exactly when it is among them |
| SiteInspector.ExtractSiteDetails | nginx/manager.go:96-121 | an unreadable or unparsable config, or one without a server block, yields empty details; otherwise the check URL has the loopback prefix |
| SiteInspector.ExtractUsesFirstServerBlock | nginx/manager.go:106-120 | the details are those of the first server block in document order (top level or directly inside `http`) |
| SiteInspector.FindProxyPassIsFirstCandidate | nginx/manager.go:170-193 | `findProxyPass` returns the first `location > proxy_pass` target in depth-first, left-to-right order |
| SiteInspector.FileProxyPassIsFirst | nginx/manager.go:195-214 | the target `GetProxyTarget` picks is the first candidate over all server blocks in document order |
| SiteInspector.ParseProxyUrl | nginx/manager.go:217-250 | never fails; the protocol is https exactly when the URL starts with `https://`; the port is a 64-bit integer; when the remainder splits as `host:port` the host is that host and the port is the integer value of the port text, or 80 when that text is not an integer |
| SiteInspector.ParseProxyUrlHostOnly | nginx/manager.go:235-242 | a remainder that `net.SplitHostPort` rejects is all host, on port 80 |
| SiteInspector.ParseFormatProxyUrl | nginx/manager.go:322-327 | formatting an http(s) upstream with a plain host as `%s://%s:%d` and parsing it back gives the same upstream |
| SiteInspector.GetProxyTarget | nginx/manager.go:159-215 | fails with a parse error exactly when the config did not parse, and with no-target exactly when no server block has a candidate; on success it is `parseProxyUrl` of the first candidate |
| Nginx.Manager.constructor | nginx/manager.go:34-58 | empty settings fall back to the default directories, binary and main config path |
| Nginx.Manager.ResolvePath | nginx/manager.go:450-455 | the sentinel name maps to the main config path; any other name maps into the sites directory |
| Nginx.Manager.ReadConfig | nginx/manager.go:450-455 | the text behind `ResolvePath(name)`: the main config for the sentinel, else the sites-directory file if it exists |
| Nginx.Manager.GetProxyTarget | nginx/manager.go:159-168 | the upstream of the file at `ResolvePath(name)`; a parse failure exactly when the file is missing or does not parse |
| Nginx.Manager.ListedAvailable | nginx/manager.go:260-268 | the non-hidden files of the sites directory |
| Nginx.Manager.ListedArchived | nginx/manager.go:271-281 | the `.conf` files of the archive directory, none when it is not configured |
| Nginx.Manager.SiteFor | nginx/manager.go:296-360 | one site entry: archived iff listed in the archive; path; enabled rules; upstream text |
| Nginx.Manager.SiteForDetails | nginx/manager.go:310-335 | TLS flag and display URL come from the inspected details; a site is active exactly when it has a check URL and the probe accepts it |
| Nginx.DisplayUrl | nginx/manager.go:312-335 | "N/A" without a check URL; scheme plus domain for a real domain; else the check URL |
| Nginx.Manager.InspectAll | nginx/manager.go:293-366 | one entry per listed name, in listing order, each equal to `SiteFor` of its name |
| Nginx.Manager.GetSites | nginx/manager.go:253-377 | sorted by name; names are the sentinel plus the listed available and archived names (as a multiset); each entry is `SiteFor` of its name |
| Nginx.ReadDir | nginx/manager.go:254-268 | a directory listing holds each name exactly once |
| Nginx.SortByName | nginx/manager.go:372-374 | the array ends sorted by name and is a permutation of the input |
| Nginx.NamesPermutation | nginx/manager.go:368-374 | reordering sites reorders their names: the multiset of names is kept |
| Nginx.Manager.EnableSite | nginx/manager.go:412-434 | refuses the sentinel and a missing enabled directory; otherwise adds the link, idempotently; keeps links resolving when the file exists; records an enable step with its outcome |
| Nginx.Manager.DisableSite | nginx/manager.go:437-447 | refuses the sentinel and a missing enabled directory; a missing link is not-found; otherwise removes it; records no deployment step |
| Nginx.Manager.ArchiveSite | nginx/manager.go:380-396 | refuses the sentinel without change; disables first, ignoring errors; moves the file to the archive, replacing a namesake there; keeps the two directories disjoint |
| Nginx.Manager.RestoreSite | nginx/manager.go:399-409 | refuses a name taken in the sites directory; a missing archive file is not-found; otherwise moves it back, not enabled |
| Nginx.Manager.SaveConfig | nginx/manager.go:478-485 | on success the file at `ResolvePath(name)` holds the content and no other file or link changes; on failure no file changes; records a save step with its outcome |
| Nginx.Manager.TestConfig | nginx/manager.go:488-495 | the only failure is a validation failure; no file or link changes; records a test step with its outcome |
| Nginx.Manager.Reload | nginx/manager.go:498-505 | the only failure is a reload failure; no file or link changes; records a reload step with its outcome |
| Discovery.ConfigName | discovery/watcher.go:191-192 | the config name for a domain ends in `.conf`, has no colon, and is five characters longer than the domain |
| Discovery.DomainFromSiteName | discovery/watcher.go:143-144 | the domain read off a config name contains no `_` |
| Discovery.ManifestName | discovery/watcher.go:115-118 | the manifest name is always a `.yaml` file, so forward discovery accepts it |
| Discovery.DomainRoundTrip | discovery/watcher.go:143-144 | a domain without `_` survives the trip to its config name and back |
| Discovery.SiteNameRoundTrip | discovery/watcher.go:191-192 | a colon-free `.conf` name survives the trip to a domain and back |
| Discovery.ConfigNameCollides | discovery/watcher.go:191-192 | "a:b" and "a_b" map to the same config file, and that file reads back as "a:b" |
| Discovery.ConfigNameIgnoresColons | discovery/watcher.go:191-192 | every domain shares its config file with the domain that has each ':' written as '_', and those differ whenever the domain has a ':' |
| Discovery.ConfigNameReachesMainConfig | discovery/watcher.go:191-197 | the domain "nginx" is saved under the main config's sentinel name |
| Discovery.Settings | discovery/watcher.go:224-243 | protocol defaults to http and hostname to 127.0.0.1; a `host:port` domain serves `host`, listens on the integer value of `port` when it is an integer, and otherwise on the watcher's listen port |
| Discovery.SettingsDomainWithPort | discovery/watcher.go:237-243 | a domain `host:N` with a plain host serves `host` on port N |
| Discovery.SplitHostIsWord | discovery/watcher.go:237-242 | the host part of a one-word `host:port`, when not empty, is one word |
| Discovery.ServedNameIsWord | discovery/watcher.go:237-242 | the name a one-word domain serves, when not empty, is one word |
| Discovery.ForwardWords | discovery/watcher.go:224-255 | one-word manifest fields give settings whose server name, protocol and host are single config words |
| Discovery.RenderConfig | discovery/watcher.go:245-255 | the template filled from the settings: the text has the listen line with the listen port, the `server_name` line with the server name, and the `proxy_pass` line with the `%s://%s:%d` upstream URL; it is tied to the inspected tree only through `RenderTree`, under the parser assumption listed below |
| Discovery.Watcher.GenerateNginxConfig | discovery/watcher.go:224-256 | the template filled from `Settings` of the app: it proxies to the app's upstream with the http and 127.0.0.1 defaults filled in; a domain without a colon is served under its own name on the watcher's listen port |
| Discovery.RenderedConfigInspection | discovery/watcher.go:245-255 | when the names in it are single config words, the generated config inspects as listening on the listen port, named by the server name, without TLS, with exactly one proxy target, the written URL |
| Discovery.GeneratedTarget | discovery/watcher.go:245-255 | the manager reads back exactly the generated upstream when it is http(s) with a plain host and the names in the config are single words |
| Discovery.ForwardThenReverse | discovery/watcher.go:143-151 | for a one-word domain without `_` that serves a non-empty name, and an http(s) upstream with a plain one-word host and a 64-bit port, the manifest derived from the generated config's file name and proxy target equals the manifest it was generated from; reverse discovery skips the main config, so for the domain `nginx` it derives nothing |
| Discovery.DerivedManifest | discovery/watcher.go:143-151 | the derived manifest's domain comes from the file name and its upstream from the proxy target |
| Discovery.PipelineShape | discovery/watcher.go:196-221 | a deployment starts with the save; nothing follows a failed save; enable and test follow a successful save; reload follows a passed test |
| Discovery.Watcher.constructor | discovery/watcher.go:31-48 | an empty apps directory and a zero listen port fall back to the defaults |
| Discovery.Watcher.ManifestPath | discovery/watcher.go:119 | the path of a manifest file is the apps directory, a slash, and the file name; a manifest file name gives a manifest path |
| Discovery.Watcher.Accepted | discovery/watcher.go:168-188 | a change is acted on only for a `.yaml`/`.yml` file of the apps directory that reads, decodes, and has a domain and a non-zero port |
| Discovery.Watcher.AcceptedAt | discovery/watcher.go:119-159 | a change to the path reverse discovery writes a manifest at deploys exactly the deployable manifest stored under that file name |
| Discovery.Watcher.Activate | discovery/watcher.go:202-221 | after a save: enable runs exactly when an enabled directory is configured and succeeds exactly for a non-sentinel name; the test runs; reload runs only after a passed test; the manager's history grows by exactly these steps |
| Discovery.Watcher.Deploy | discovery/watcher.go:190-221 | the manager's history grows by exactly the returned steps, which start with the save and follow the pipeline; nothing changes after a failed save; otherwise `GenerateNginxConfig` of the app reads back under the mangled name, and the link exists when enabling succeeded |
| Discovery.Watcher.Install | discovery/watcher.go:196-221 | the save of a given text under a given name, then activation: the history grows by exactly the returned steps, which follow the pipeline; nothing changes after a failed save; otherwise the text reads back under the name |
| Discovery.Watcher.HandleFileChange | discovery/watcher.go:167-222 | the manager's history grows by exactly the returned steps; none and no change for a rejected file; otherwise the deployment and the state `Deploy` promises |
| Discovery.Watcher.Discovered | discovery/watcher.go:106-151 | the derived manifest's domain comes from the site name and its upstream from the site's proxy target |
| Discovery.SyncNamesKeeps | discovery/watcher.go:119-124 | reverse discovery never changes or removes an existing manifest |
| Discovery.SyncNamesCovers | discovery/watcher.go:100-163 | every qualifying visited site ends with its manifest name taken |
| Discovery.SyncNamesOrigin | discovery/watcher.go:143-163 | every manifest added is the one derived from a qualifying visited site |
| Discovery.SyncNamesIdle | discovery/watcher.go:119-124 | when every qualifying site already has its manifest name, reverse discovery changes nothing |
| Discovery.Watcher.SyncOutcome | discovery/watcher.go:92-165 | over the names `GetSites` lists: keeps, covers every eligible site, adds only derived manifests, and is idempotent |
| Discovery.Watcher.SyncSites | discovery/watcher.go:100-164 | the loop leaves the directory that the fold over the names in order gives |
| Discovery.Watcher.SyncSite | discovery/watcher.go:101-163 | one site: skip the main config, sites without target, and taken names; else add its derived manifest |
| Discovery.Watcher.SyncManifests | discovery/watcher.go:92-165 | existing manifests unchanged; every eligible site has its manifest name; new manifests are derived from eligible sites; a run where all names are taken changes nothing |

Behaviour worth knowing, which the contracts make visible:

- **Archived status is decided by name alone.** `SiteFor` reports a site as archived whenever its name appears in the archive listing. So an available file that shares its name with an archived `.conf` file is reported as archived. The upstream, however, is always read from the sites directory, even for an archived site.
- **The main config can be overwritten.** `ConfigNameReachesMainConfig` and `HandleFileChange` together show that a manifest whose domain is `nginx` overwrites the main config. Enabling is refused for that name, and the chain continues to the test step.
- **A stale comment.** The comment above `extractSiteDetails` (nginx/manager.go:94) says it finds the first listen port. The code keeps the last one, and the model follows the code.

## Left out

- The liveness probe (`checkSiteStatus`, nginx/manager.go:72-92): an HTTP GET is I/O. It is the `probe` parameter of `GetSites`.
- The config parser (gonginx): it is a library outside this repository. It is the `parse` parameter, which maps file text to a directive tree or a parse failure. `RenderTree` states the tree the parser reads from the generated text when the server name, the upstream protocol and the upstream host are each a single config word (`WordSettings`). For other names, such as a domain holding a blank, `;`, a brace, `#` or a quote, the text reads differently, and the model says nothing about it.
- YAML encoding and decoding: also a library. A manifest file is modelled as its decoded value, or `None` when it does not decode.
- The `nginx -t` and `nginx -s reload` runs: external processes. Their verdict is a nondeterministic outcome.
- Mapping file-system errors to error values:
  - `SaveConfig` may fail as a whole.
  - `MkdirAll`, `Symlink`, `Rename` and `Remove` are taken to succeed whenever the model's own checks pass.
  - In `SyncManifests`, a failed manifest write or marshal is not modelled: every write succeeds.
- Directory entries that are subdirectories: the listings hold files only.
- `filepath.Join` cleaning and `filepath.Abs`: paths are plain `dir/name` strings. The three directories are taken to be distinct.
- The concurrency in `GetSites`: one goroutine per site and a result channel. The per-site tasks are independent, so the model runs them in sequence; the result is sorted afterwards either way.
- `sort.Slice` is not stable. `SortByName` is one insertion sort, and its contract states only what any such sort guarantees: sorted, and a permutation.
- `Watcher.Start`, i.e. the fsnotify event loop: it is event I/O. Each write or create event is one call of `HandleFileChange`, on a path the event names inside the apps directory. A path outside the apps directory is treated as a file that cannot be read.
- `ParseConfig` and `GetConfig` (nginx/manager.go:458-475), and `RunCertbot` (nginx/manager.go:507-517): thin wrappers over the parser, the file reader and an external binary.
- The main config path is taken to lie outside the sites directory, so the main config and the sites directory's files are separate state.
- A server directive without a block, in `GetProxyTarget`: the source calls a method on a nil block, which panics. The model treats such a server as having no proxy target.
- Callers: server/api.go and main.go are not part of this model.
- Nginx.Manager.SaveConfig: its contract does not promise that links keep resolving or that the sites and archive directories stay disjoint. The source does not preserve them either: it can write a name that is also archived.
- Nginx.Manager.EnableSite: preserves that links resolve only when the file exists. The source links a missing file without complaint.
- Discovery.Watcher.SyncManifests: when two sites map to one manifest name, which site wins is left unstated. The contract says only that the added manifest comes from some eligible site.
