# Mojo Browser core, modelled in Dafny

This project models the non-UI core of Mojo Browser, a PyQt5 web browser,
in four modules. The proofs are about these models.

- **Privacy** (`privacy.dfy`, from MojoPrivacy.py) covers three things:
  - the request interceptor: the HTTPS upgrade, the Cookie and DNT headers,
    the tracker table, and the per-host permissions;
  - the navigation check of `PrivacyPage`;
  - the proxy machinery of `PrivacyEngine`: the format check and probe of
    `test_proxy`, the scan of `initialize_proxies`, the choice made by
    `set_random_proxy`, `apply_proxy`, and the user-agent pick.

  The process-wide application proxy is a field of the engine.
- **Config** (`config.dfy`, from data_manager.py) covers the `DataManager`
  configuration tree:
  - the defaults;
  - the recursive `_merge_data` of the loaded file into the defaults, both
    as the function it computes and as the loop the source runs;
  - the seven section getters and setters;
  - `clear_all_private_data`;
  - the fall-back to the defaults, with a rewrite of the file, when loading
    raises.
- **Browser** (`browser.dfy`, from main.py) covers `MojoBrowser`:
  - the six persisted settings, loaded with defaults and saved whole;
  - `get_search_url` for the four engines;
  - how `load_page` classifies what was typed in the address bar;
  - `apply_settings`.
- **Extensions** (`extensions.dfy`, from addon.py) covers the
  `ExtensionManager`:
  - the name-to-path map rebuilt from the directory listing;
  - `validate_extensions`, which drops blank or "malicious" scripts and
    removes their files;
  - the enable/disable status map and the selection that
    `inject_extensions` makes;
  - the name `download_extension` gives a script;
  - the store listing kept in the cache file.

The supporting modules are:
- `Strings` (`strings.dfy`): Python's `str.strip`, `split`, `replace`,
  `lower` and `int()`, on ASCII digits and letters. `int()` ignores the
  same surrounding whitespace as `str.strip` except the separators
  U+001C-U+001F, which `str.strip` removes and `int()` rejects;
- `Paths` (`paths.dfy`): `os.path.basename` and `os.path.splitext`;
- `JsonData` (`json.dfy`): JSON values, Python truthiness and `dict.get`;
- `Wrappers` (`wrappers.dfy`): `Option`.

Files are modelled as values passed in and out:
- a missing file, a file `json.load` rejects, or a document;
- for scripts, a map from path to text;
- for the `*.js` glob, the listing it returns.

The network is modelled as parameters:
- the proxy probe is a predicate `reachable` on proxies;
- a download is the server's answer, or None for an error.

`random.choice` is an arbitrary choice (`:|`), so every property proved
holds whichever element is picked.

Points of the source's behaviour that the model keeps:
- The tracker table is the five escaped regular expressions of
  MojoPrivacy.py:18-24. MojoPrivacy.py:161-162 tests them as literal,
  case-sensitive substrings of the URL. See Findings.
- The HTTPS upgrade replaces every occurrence of "http://" in the URL
  (MojoPrivacy.py:154).
- A requested proxy that fails its test falls back to a random working
  proxy (MojoPrivacy.py:110-127).
- A proxy port passes through `setPort`, which keeps its low 16 bits
  (MojoPrivacy.py:80, 129).
- main.py's default home page is https://www.google.com (main.py:354). The
  https://mojox.org/search default belongs only to data_manager.py's tree.
- A download URL whose path ends in '/' gives the empty name, and the script
  is then written to the hidden file `extensions/.js` (addon.py:94-95).

## Model

| member | source | states |
|---|---|---|
| Privacy.Intercept | MojoPrivacy.py:150-173 | a redirect is the whole answer (no header, no block); otherwise DNT follows the settings alone |
| Privacy.MatchesAnyIff | MojoPrivacy.py:160-162 | the tracker loop fires exactly when some entry of the table is a substring of the URL |
| Privacy.UpgradeIsTerminal | MojoPrivacy.py:153-155 | with https_only on, an "http://" URL is redirected to its upgrade and nothing else happens (no header, no block); the target starts "https://" |
| Privacy.RedirectIff | MojoPrivacy.py:153-155 | a redirect happens exactly when https_only is on and the URL starts "http://" |
| Privacy.RedirectNotRepeated | MojoPrivacy.py:153-155 | the redirect target is never redirected again, whatever the settings and host |
| Privacy.SchemeOnlyUpgrade | MojoPrivacy.py:154 | a URL whose only "http://" is its scheme is upgraded to the same URL with "https://" |
| Privacy.HeadersFromSettings | MojoPrivacy.py:156-159 | without a redirect, DNT is set exactly when do_not_track is truthy or absent, and Cookie is emptied whenever block_third_party_cookies is truthy or absent |
| Privacy.BlockedIff | MojoPrivacy.py:153-173 | blocked exactly when not redirected and either the tracker check is on and a pattern matches, or the host's allow_js is falsy |
| Privacy.ClearCookieIff | MojoPrivacy.py:153-171 | Cookie is emptied exactly when not redirected and either the global setting asks, or no tracker block returned early and the host's allow_cookies is falsy |
| Privacy.TrackerBlockSkipsHostChecks | MojoPrivacy.py:160-166 | a tracker match blocks and returns before the permissions are read: the outcome is independent of them |
| Privacy.OnlyOwnHostPermissionsMatter | MojoPrivacy.py:167-173 | only the request host's own permission entry influences the outcome |
| Privacy.TrackerPatternsHoldBackslash | MojoPrivacy.py:18-24 | every tracker pattern as written contains a backslash |
| Privacy.NoBackslashNoTrackerMatch | MojoPrivacy.py:160-162 | a URL without a backslash never matches the table as written |
| Privacy.NoBackslashBlockedOnlyByHost | MojoPrivacy.py:160-173 | with the table as written, a URL without a backslash is blocked only by its host's allow_js |
| Privacy.TrackerHostsAreUnescaped | MojoPrivacy.py:18-24 | the corrected table is, entry by entry, the text each escaped expression matches |
| Privacy.TrackerMissedAsWritten | MojoPrivacy.py:160-166 | as written, https://www.google-analytics.com/collect passes with block_trackers on |
| Privacy.TrackerBlockedAsIntended | MojoPrivacy.py:160-166 | with the corrected table, any non-redirected URL containing a tracker address is blocked when the check is on |
| Privacy.CollectorBlockedAsIntended | MojoPrivacy.py:160-166 | with the corrected table, the Google Analytics request above is blocked |
| Privacy.AcceptNavigation | MojoPrivacy.py:220-224 | a page that reloads an upgraded URL refuses the original; without an engine in https_only mode the base class decides |
| Privacy.NavigationAgreesWithIntercept | MojoPrivacy.py:220-224 | the page refuses a navigation exactly when the interceptor would redirect it, and loads the same target; without an engine it defers to the base class |
| Privacy.ToPort | MojoPrivacy.py:80 | the port `setPort` keeps lies in 0..65535 and is congruent to the number modulo 65536 |
| Privacy.ParseProxy | MojoPrivacy.py:76-80 | a candidate that passes the format check yields a port in 0..65535 |
| Privacy.ParseProxyShape | MojoPrivacy.py:76-80 | a candidate that passes the format check has exactly one ':', the host before it, and the port is int() of the rest narrowed to 16 bits |
| Privacy.ParseProxyOfParts | MojoPrivacy.py:76-80 | any host and port text without ':' whose port int() accepts pass the format check, with that port narrowed to 16 bits |
| Privacy.ParseFormatProxy | MojoPrivacy.py:76-80 | "host:n" parses to the host and n narrowed to 16 bits; a proxy with a 16-bit port parses back to itself |
| Privacy.Working | MojoPrivacy.py:64-67 | the working list is no longer than the candidates, and holds only candidates that pass |
| Privacy.WorkingComplete | MojoPrivacy.py:64-67 | every candidate that passes its test is kept |
| Privacy.WorkingSound | MojoPrivacy.py:64-67 | a candidate that fails its test is never kept |
| Privacy.WorkingStep | MojoPrivacy.py:65-67 | one more candidate extends the working list by it exactly when it passes |
| Privacy.PrivacyEngine.constructor | MojoPrivacy.py:32-42 | the engine starts with the loaded settings, the working list is the passing candidates in order, and a proxy is chosen exactly when one works |
| Privacy.PrivacyEngine.TestProxy | MojoPrivacy.py:74-106 | the answer is "parses and the probe answers"; the probing manager ends with no proxy on every path |
| Privacy.PrivacyEngine.InitializeProxies | MojoPrivacy.py:64-72 | appends the passing candidates in list order; picks a working proxy when any, else leaves the proxy settings alone |
| Privacy.PrivacyEngine.ProbeCandidate | MojoPrivacy.py:65-67 | one loop round: the candidate is appended exactly when it passes |
| Privacy.PrivacyEngine.AddWorking | MojoPrivacy.py:67 | appending a candidate that parses keeps every working proxy parseable |
| Privacy.PrivacyEngine.SetRandomProxy | MojoPrivacy.py:108-137 | a working requested proxy is used untested; an untested one that passes is appended once and used; otherwise a random working proxy, or settings and application proxy cleared when none |
| Privacy.PrivacyEngine.TrySpecific | MojoPrivacy.py:110-119 | the requested branch: already working means usable; else tested, and appended exactly when it passes |
| Privacy.PrivacyEngine.PickAtRandom | MojoPrivacy.py:120-137 | a working proxy is chosen and adopted when the list is non-empty; the exception path clears the settings and sets no proxy |
| Privacy.PrivacyEngine.Adopt | MojoPrivacy.py:124-130 | the settings become the parsed proxy and the application proxy follows them |
| Privacy.PrivacyEngine.ApplyProxy | MojoPrivacy.py:139-148 | with settings: application proxy set and HTTP cache cleared; without: no proxy, cache untouched |
| Privacy.PrivacyEngine.SpoofUserAgent | MojoPrivacy.py:175-176 | the user agent is one of the three listed |
| Privacy.PrivacyEngine.AttachToProfile | MojoPrivacy.py:213-218 | the profile gets a listed user agent and the engine's proxy is applied to it |
| Privacy.ReselectIsStable | MojoPrivacy.py:108-116 | requesting a proxy that was just chosen chooses it again, and leaves the working list as it was |
| Privacy.ProxyListParses | MojoPrivacy.py:26-29 | every entry of PROXY_LIST passes the format check |
| Config.Defaults | data_manager.py:10-47 | the tree has exactly the extensions, privacy and browser sections |
| Config.Merge | data_manager.py:61-67 | the merged tree has exactly the defaults' keys |
| Config.MergeInto | data_manager.py:61-67 | the key-by-key loop, in any order, produces Merge |
| Config.MergeAt | data_manager.py:61-67 | per key: absent keeps the default, present replaces unless both are dictionaries, which merge keeping the default keys |
| Config.MergeIgnoresUnknown | data_manager.py:62-63 | keys the defaults lack make no difference |
| Config.MergeEmpty | data_manager.py:61-67 | merging an empty tree changes nothing |
| Config.MergeSelf | data_manager.py:61-67 | a tree merged into itself is unchanged |
| Config.MergeIdempotent | data_manager.py:61-67 | merging the same file twice equals merging it once |
| Config.ReloadIsStable | data_manager.py:50-75 | loading the saved result of a load gives the same tree |
| Config.PathsDistinct | data_manager.py:77-124 | different sections sit at different paths |
| Config.Lookup | data_manager.py:77-119 | a getter succeeds exactly when the parent is a dictionary holding the section's key |
| Config.Store | data_manager.py:80-124 | a setter succeeds exactly when the parent is a dictionary, and adds no top-level key |
| Config.StoreThenLookup | data_manager.py:80-124 | a value stored by a setter is what the getter returns |
| Config.StoreFrame | data_manager.py:80-124 | a setter changes no other section, no top-level key, nothing outside its parent |
| Config.StoreIffLookup | data_manager.py:77-124 | in a conforming tree a section can be set exactly when it can be read |
| Config.StoreConforms | data_manager.py:80-124 | setters keep every section reachable |
| Config.DefaultsHoldSections | data_manager.py:10-47 | the defaults hold all seven sections under dictionary parents |
| Config.MergedConforms | data_manager.py:48-67 | whatever the file holds, the loaded tree has every section reachable |
| Config.FreshPrivacy | data_manager.py:15-22 | fresh privacy settings: HTTPS only, no permissions, anti-fingerprinting on; empty proxy cache |
| Config.ClearPrivate | data_manager.py:126-129 | clearing adds no top-level key |
| Config.ClearPrivateSpec | data_manager.py:126-129 | clearing succeeds exactly when "browser" is a dictionary; history and bookmarks become empty, every other section is kept |
| Config.Loaded | data_manager.py:48-67 | whatever the file holds, the loaded tree has the default top-level keys and every section reachable |
| Config.DataManager.constructor | data_manager.py:8-59 | the tree is the defaults merged with a dictionary file; on a load error the defaults are kept and written back |
| Config.DataManager.SaveData | data_manager.py:69-75 | the file holds the whole tree |
| Config.DataManager.Get | data_manager.py:77-119 | returns the section; fails exactly when its parent is not a dictionary |
| Config.DataManager.Set | data_manager.py:80-124 | on success tree and file hold the new value; on failure nothing changes |
| Config.DataManager.ClearAllPrivateData | data_manager.py:126-129 | tree and file hold the cleared tree; on failure nothing changes |
| Browser.ToMap | main.py:369-380 | save_settings writes exactly the six keys |
| Browser.FromMap | main.py:354-359 | each of the six keys takes the file's value when present and its default when missing, whatever the other keys hold |
| Browser.LoadSettings | main.py:349-367 | loading fails exactly when the file does not parse or is not a dictionary |
| Browser.SaveLoadRoundTrip | main.py:349-380 | saving then loading gives back the six values |
| Browser.LoadSaveRoundTrip | main.py:349-380 | a file with exactly the six keys is rewritten unchanged after a load |
| Browser.MissingKeysTakeDefaults | main.py:354-367 | without a file, or with none of the keys, every field takes its default |
| Browser.LoadIgnoresOtherKeys | main.py:353-359 | keys other than the six are ignored |
| Browser.SearchUrl | main.py:303-312 | an address exists exactly for the four known engines |
| Browser.PrefixShape | main.py:305-312 | each engine prefix is HTTPS, has no space and ends in '=' |
| Browser.SearchUrlSpec | main.py:303-312 | prefix then the query character by character with spaces made '+'; no space; a '+'-free query is recovered |
| Browser.LoadTarget | main.py:292-301 | the view gets no address only when the search engine is unknown |
| Browser.LoadTargetCases | main.py:292-301 | scheme: as typed; domain-like: "http://" added; otherwise a search, all on the stripped text |
| Browser.TargetHasScheme | main.py:295-301 | whatever the stripped text, the view gets an http or https address |
| Browser.LoadTargetHasScheme | main.py:292-301 | whatever was typed, the view gets an http or https address |
| Browser.SearchUrlEnds | main.py:303-312 | for a query not ending in whitespace, the search address ends in the query's last character, or in '=' for an empty query |
| Browser.TargetTrimmed | main.py:295-301 | a text without surrounding whitespace yields an address without it |
| Browser.LoadTargetTrimmed | main.py:292-301 | the address handed to the view has no surrounding whitespace |
| Browser.LoadTargetIdempotent | main.py:292-301 | typing the loaded address again loads the same address, whatever the engine |
| Browser.MojoBrowser.constructor | main.py:232-287 | settings are those loaded; the view shows the home page |
| Browser.MojoBrowser.LoadPage | main.py:292-301 | the view gets the address for what was typed |
| Browser.MojoBrowser.ApplySettings | main.py:337-347 | an empty home page keeps the old one; the other five are replaced; the view shows the home page; the file reloads to the new settings |
| Browser.MojoBrowser.SaveSettings | main.py:369-380 | the file holds the six fields and loads back to them |
| Extensions.ScriptName | addon.py:34 | a loaded name never contains '/' |
| Extensions.ExtensionName | addon.py:94 | a downloaded name contains neither '/' nor '?' |
| Extensions.ExtensionNameOf | addon.py:94 | for dir/file.ext?query, with no '?' before the query, no '/' in file or ext and no '.' in ext, the name is file |
| Extensions.ScriptPathReloads | addon.py:95 | a name without '/' or leading dot is read back from its script path |
| Extensions.DownloadedNameReloads | addon.py:94-99 | a downloaded script is found by the rescan under the name the download returns, unless that name is empty or starts with a dot |
| Extensions.BasenameAfterSlash | addon.py:34 | the basename of dir/file is file |
| Extensions.TrailingSlashGivesEmptyName | addon.py:94-95 | a URL path ending in '/' gives the empty name, written to ".js", which would scan as ".js" |
| Extensions.NameMap | addon.py:29-35 | every entry maps a name to a listed path whose script name it is |
| Extensions.NameMapSpec | addon.py:31-35 | one entry per name in the listing, each a listed path of that name |
| Extensions.NameMapStep | addon.py:33-35 | each scanned path adds or replaces the entry of its name |
| Extensions.NameMapKeepsLast | addon.py:33-35 | the path kept for a name is the last listed with that name |
| Extensions.ScanListing | addon.py:32-35 | the scan loop builds the name map of the listing |
| Extensions.Validated | addon.py:41-52 | kept entries are exactly those whose file reads and is valid, unchanged |
| Extensions.RemainingFiles | addon.py:41-52 | validation only removes files, and changes none it keeps |
| Extensions.RemainingFilesSpec | addon.py:46-48 | a file is removed exactly when it is invalid and some entry points to it |
| Extensions.BlankRejected | addon.py:46 | an all-whitespace script is rejected |
| Extensions.MaliciousRejected | addon.py:46 | a script containing "malicious" in any letter case is rejected |
| Extensions.Validate | addon.py:41-52 | the loop over a snapshot, in any order, leaves Validated and RemainingFiles |
| Extensions.Enable | addon.py:54-62 | enabling touches no entry but the named one |
| Extensions.Disable | addon.py:64-71 | disabling keeps the keys, and marks a known name "disabled" |
| Extensions.EnableSpec | addon.py:54-62 | a loaded name becomes enabled; no other entry changes; an unknown name changes nothing |
| Extensions.EnableIdempotent | addon.py:54-62 | enabling twice is enabling once |
| Extensions.DisableSpec | addon.py:64-71 | disabling adds no key, leaves a known name not enabled, keeps the others |
| Extensions.DisableThenEnable | addon.py:54-71 | disable then enable re-enables a loaded name; enable then disable leaves it not enabled |
| Extensions.EnableSelects | addon.py:118-127 | an enabled loaded extension is injected when JavaScript is on; a disabled one is not |
| Extensions.LoadCached | addon.py:159-168 | anything but a dictionary holding "store" gives [] |
| Extensions.CacheStore | addon.py:148-157 | a file that is not a dictionary document is left as it was |
| Extensions.CacheRoundTrip | addon.py:148-168 | a listing cached into a dictionary document is what the next load returns; other entries are kept |
| Extensions.WriteOverFromStart | addon.py:150-154 | writing from offset 0 without truncating leaves a file as long as the longer of the old and new texts |
| Extensions.ShorterWriteKeepsTail | addon.py:150-154 | a shorter new text is not the file's text: the file starts with it and keeps the old text's tail |
| Extensions.ShrunkCacheHasExtraData | addon.py:148-157 | caching an empty store over a one-entry cache leaves the old closing lines after the new document |
| Extensions.ExtensionManager.constructor | addon.py:13-23 | starts from the loaded status map and the validated name map of the listing |
| Extensions.ExtensionManager.LoadExtensions | addon.py:29-39 | the map is rebuilt from the listing and validated |
| Extensions.ExtensionManager.ValidateExtensions | addon.py:41-52 | entries and files become Validated and RemainingFiles of the old ones |
| Extensions.ExtensionManager.EnableExtension | addon.py:54-62 | status updated as Enable; saved and injected exactly when a loaded, not yet enabled name |
| Extensions.ExtensionManager.DisableExtension | addon.py:64-71 | status updated as Disable; saved exactly when the name had a status |
| Extensions.ExtensionManager.InjectExtensions | addon.py:118-127 | the injected names are Selected: none without JavaScript, else the loaded enabled ones |
| Extensions.ExtensionManager.DownloadExtension | addon.py:90-105 | an error returns None and changes nothing; else the script is written under ExtensionName and the map reloaded |
| Strings.StripIdempotent | main.py:293 | stripping twice is stripping once |
| Strings.ParseIntOfNat | MojoPrivacy.py:80 | int() of a written-out port gives it back |
| Strings.SeparatorDefeatsInt | MojoPrivacy.py:80 | a port text starting with a separator U+001C-U+001F is rejected by int(), although str.strip would remove it |
| Paths.StripExtensionOfAppended | addon.py:34 | splitext removes an appended ".ext" from a name not all dots |

## Left out

- JSON text is not modelled. Files hold JSON values, and parse failures are
  a separate file state. Floats are not modelled.
- Privacy.Intercept: takes the privacy settings as a parameter. The source
  reads them from `self.parent.settings_persistence.privacy_settings`
  (MojoPrivacy.py:152), an attribute main.py never defines, so as written
  the interceptor would raise AttributeError on its first request.
- Privacy settings persistence (`load_privacy_settings` and
  `save_privacy_settings`): the constructor takes the loaded https_only and
  permissions as parameters.
- https_only is modelled as a bool, not as the truthiness of whatever the
  settings file held.
- Privacy.PrivacyEngine.constructor: it takes the candidate list as a
  parameter. The source always uses its five-entry PROXY_LIST, which is the
  constant ProxyList here.
- The anti-fingerprinting script and the `runJavaScript` calls are left
  out, because they are browser-side JavaScript. `inject_extension` is
  modelled only as the choice of which names are injected.
- The proxy probe's network exchange is left out. Its timeout and the HTTP
  status are folded into the `reachable` oracle.
- Logging and status-bar messages are left out.
- `random.choice` is modelled as an arbitrary choice, not a uniform one.
- Extensions.CacheStore: treats the write as a whole-file rewrite, the
  evidently intended behaviour. `cache_extensions` as written seeks to 0 and
  writes without truncating (see Findings).
- Extensions.CacheRoundTrip: holds under that whole-file rewrite. As written,
  caching a shorter document leaves the old tail, the next `json.load`
  fails, and the cached listing is not read back (see Findings).
- `update_extension_cache` and `fetch_store_extensions` are left out. They
  depend on file modification times and a network fetch.
- A failing `os.remove` in `validate_extensions` is left out: the source
  then deletes the entry twice and the second `del` raises.
- Failures to write a file are left out. Saves are modelled as always
  succeeding.
- The extension status read from a file is taken to be a dictionary.
- The per-host permissions are taken to be dictionaries. In the source, a
  host entry of privacy_settings.json that is not a dictionary makes
  `perms.get` raise inside `interceptRequest`, after the Cookie and DNT
  headers are set. That crash is not modelled.
- `int()` accepts ASCII digits only, and its surrounding whitespace is the
  ASCII and Unicode space characters of `str.isspace` minus U+001C-U+001F. Python's `int()` also accepts other
  Unicode decimal digits, such as the fullwidth "８０８０".
- Privacy.ToPort: follows PyQt5, whose conversion to quint16 is unchecked
  by default and keeps the low 16 bits. Under a binding that checks for
  overflow, an out-of-range port raises, and `test_proxy` returns False
  for it instead.
- Browser.MojoBrowser.constructor: requires a settings file that
  `load_settings` can read. In the source, a corrupt settings.json, or one
  whose top level is not a dictionary, makes `json.load` or `settings.get`
  raise inside `__init__` (main.py:233, 351-353), and the browser fails to
  start. It also requires a home page that is a string or None: any other
  JSON value makes `QUrl(self.home_page)` raise TypeError (main.py:287).
  Those crashes are not modelled.
- `os.path` is the POSIX one: paths split on '/' only. Windows' `ntpath`,
  which also splits on '\\', is not modelled.
- Getters return the section value. Aliasing of nested dictionaries between
  the returned value and the tree is not modelled.
- `\w` in `load_page` is ASCII letters, digits and '_'. Python's Unicode
  word characters are not modelled.
- `str.lower` is ASCII-only. The validity check still agrees with Python's:
  the only non-ASCII character that lowers into one of the letters of
  "malicious" is 'İ' (U+0130). It lowers to "i" followed by U+0307, and no
  'i' of "malicious" is followed by U+0307.
- Dictionary iteration order is not modelled. The loops are proved for any
  order.
- `QUrl(None)` for an unknown search engine is recorded as a null address.
- `PrivacyPage`'s base-class navigation answer is a parameter.

## Findings

| source | as written | input that shows it | evidently intended | confidence | as-written member | corrected member |
|---|---|---|---|---|---|---|
| MojoPrivacy.py:18-24 | the tracker patterns are regular expressions with escaped dots (`google-analytics\.com`), but MojoPrivacy.py:161-162 tests them with `pattern in url`, a literal substring test, so no ordinary URL ever matches | https://www.google-analytics.com/collect with block_trackers on is not blocked | block requests whose URL contains the tracker addresses (google-analytics.com, doubleclick.net, ...) | high (not executed) | Privacy.TrackerMissedAsWritten | Privacy.TrackerBlockedAsIntended |
| addon.py:148-157 | `cache_extensions` opens the cache "r+", seeks to 0 and dumps the new document without `f.truncate()` | caching `{"store": []}` over a cache holding `{"store": ["a"]}` (both `indent=4`) leaves the old closing lines after the new document, so `json.load` fails with "Extra data" and the next load returns [] | the cache file holds exactly the new document | high (not executed) | Extensions.ShrunkCacheHasExtraData | Extensions.CacheRoundTrip |
