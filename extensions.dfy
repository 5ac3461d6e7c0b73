/**
 * The extension manager of addon.py: the name-to-path map rebuilt from
 * the extensions directory, the filter that drops blank or "malicious"
 * scripts, the enabled/disabled status map, the choice of scripts to
 * inject, the name given to a downloaded script, and the store listing
 * kept in the cache file.
 */
module Extensions {
  import opened Wrappers
  import opened Strings
  import opened JsonData
  import opened Paths

  // ---------------------------------------------------------------------
  // Names
  // ---------------------------------------------------------------------

  /** The directory the scripts live in. */
  const ExtensionsDir: string := "extensions"

  /** `os.path.splitext(os.path.basename(path))[0]`: the name a script file is loaded under. */
  function ScriptName(path: string): (name: string)
    ensures '/' !in name
  {
    StripExtension(Basename(path))
  }

  /** `os.path.join(extensions_dir, f"{name}.js")`: where a downloaded script is written. */
  function ScriptPath(name: string): string {
    ExtensionsDir + "/" + name + ".js"
  }

  /**
   * The name `download_extension` gives the script at `url`: the basename
   * of the URL up to its first '?', without its extension.
   */
  function ExtensionName(url: string): (name: string)
    ensures '/' !in name && '?' !in name
  {
    var path := Split(url, '?')[0];
    var name := StripExtension(Basename(path));
    assert StartsWithRoot(Basename(path), name);
    assert forall i :: 0 <= i < |name| ==> name[i] == path[|path| - |Basename(path)| + i];
    name
  }

  /**
   * For a URL `dir/file.ext?query`, the name is `file`: the query and the
   * directories are dropped, and so is the extension, as long as the file
   * part is not all dots.
   */
  lemma ExtensionNameOf(dir: string, file: string, ext: string, query: string)
    requires '?' !in dir
    requires '/' !in file && '?' !in file && HasNonDotBefore(file, |file|)
    requires '/' !in ext && '?' !in ext && '.' !in ext
    ensures ExtensionName(dir + "/" + file + "." + ext + "?" + query) == file
  {
    var leaf := file + "." + ext;
    var path := dir + "/" + leaf;
    assert '/' !in leaf && '?' !in leaf;
    assert '?' !in path by {
      forall i | 0 <= i < |path| ensures path[i] != '?' {
        if i < |dir| {
          assert path[i] == dir[i];
        } else if i > |dir| {
          assert path[i] == leaf[i - |dir| - 1];
        }
      }
    }
    assert dir + "/" + file + "." + ext + "?" + query == path + ("?" + query);
    SplitSeparatorFree(path, "?" + query, '?');
    assert Split("?" + query, '?')[0] == "";
    assert path + "" == path;
    BasenameAfterSlash(dir, leaf);
    StripExtensionOfAppended(file, ext);
  }

  /**
   * A downloaded script is written where the next directory scan finds it
   * under the name the download returned, as long as that name is not
   * empty and does not start with a dot (a hidden file, which `*.js` does
   * not list).
   */
  lemma DownloadedNameReloads(url: string)
    requires ExtensionName(url) != [] && ExtensionName(url)[0] != '.'
    ensures ScriptName(ScriptPath(ExtensionName(url))) == ExtensionName(url)
  {
    ScriptPathReloads(ExtensionName(url));
  }

  /** A name without '/' that does not start with a dot is read back from its script path. */
  lemma ScriptPathReloads(name: string)
    requires name != [] && name[0] != '.' && '/' !in name
    ensures ScriptName(ScriptPath(name)) == name
  {
    assert ScriptPath(name) == ExtensionsDir + "/" + (name + ".js");
    assert '/' !in name + ".js";
    BasenameAfterSlash(ExtensionsDir, name + ".js");
    assert HasNonDotBefore(name, |name|) by {
      assert name[0] != '.';
    }
    StripExtensionOfAppended(name, "js");
    assert name + "." + "js" == name + ".js";
  }

  /** The basename of a path is what follows its last '/'. */
  lemma {:induction false} BasenameAfterSlash(dir: string, file: string)
    requires '/' !in file
    ensures Basename(dir + "/" + file) == file
    decreases |file|
  {
    var p := dir + "/" + file;
    if file == [] {
      assert p[|p| - 1] == '/';
    } else {
      var init := file[..|file| - 1];
      assert p[..|p| - 1] == dir + "/" + init;
      assert '/' !in init by {
        forall i | 0 <= i < |init| ensures init[i] != '/' {
          assert init[i] == file[i];
        }
      }
      BasenameAfterSlash(dir, init);
      assert init + [file[|file| - 1]] == file;
    }
  }

  /**
   * A URL whose path ends in '/' gives the empty name; the script is then
   * written to the hidden file ".js", which a scan would load, if it
   * listed it, under the name ".js" and not the empty name.
   */
  lemma TrailingSlashGivesEmptyName(dir: string, query: string)
    requires '?' !in dir
    ensures ExtensionName(dir + "/?" + query) == ""
    ensures ExtensionName(dir + "/") == ""
    ensures ScriptName(ScriptPath("")) == ".js"
  {
    assert dir + "/?" + query == (dir + "/") + ("?" + query);
    SplitSeparatorFree(dir + "/", "?" + query, '?');
    assert Split("?" + query, '?')[0] == "";
    assert dir + "/" + "" == dir + "/";
    SplitSeparatorFree(dir + "/", "", '?');
    assert (dir + "/") + "" == dir + "/";
    assert Split("", '?')[0] == "";
    BasenameAfterSlash(ExtensionsDir, ".js");
    assert ScriptPath("") == ExtensionsDir + "/" + ".js";
  }

  // ---------------------------------------------------------------------
  // The directory scan
  // ---------------------------------------------------------------------

  /**
   * A map built from a listing in order: each path under the name
   * `nameOf` gives it, a later path replacing an earlier one of the same
   * name.
   */
  function NameMapBy(listing: seq<string>, nameOf: string -> string): map<string, string> {
    if listing == [] then map[]
    else NameMapBy(listing[..|listing| - 1], nameOf)[nameOf(listing[|listing| - 1]) := listing[|listing| - 1]]
  }

  /** The map `load_extensions` builds from the listing: each path under its script name. */
  function NameMap(listing: seq<string>): (m: map<string, string>)
    ensures forall n :: n in m ==> m[n] in listing && ScriptName(m[n]) == n
  {
    NameMapSpec(listing, ScriptName);
    NameMapBy(listing, ScriptName)
  }

  /**
   * The scan loads exactly one entry per name in the listing, and each
   * entry's path is a listed path of that name.
   */
  lemma {:induction false} NameMapSpec(listing: seq<string>, nameOf: string -> string)
    ensures NameMapBy(listing, nameOf).Keys == set p | p in listing :: nameOf(p)
    ensures forall n :: n in NameMapBy(listing, nameOf) ==>
              NameMapBy(listing, nameOf)[n] in listing && nameOf(NameMapBy(listing, nameOf)[n]) == n
  {
    if listing != [] {
      var init := listing[..|listing| - 1];
      var last := listing[|listing| - 1];
      NameMapSpec(init, nameOf);
      assert listing == init + [last];
      NamesOfSnoc(init, last, nameOf);
    }
  }

  /** Scanning one more path of the listing adds or replaces the entry of its name. */
  lemma NameMapStep(listing: seq<string>, i: int, nameOf: string -> string)
    requires 0 <= i < |listing|
    ensures NameMapBy(listing[..i + 1], nameOf) == NameMapBy(listing[..i], nameOf)[nameOf(listing[i]) := listing[i]]
  {
    assert listing[..i + 1][..i] == listing[..i];
  }

  /** The names of a listing with one more path are the names before and that path's name. */
  lemma NamesOfSnoc(init: seq<string>, last: string, nameOf: string -> string)
    ensures (set p | p in init + [last] :: nameOf(p)) == (set p | p in init :: nameOf(p)) + {nameOf(last)}
  {
    var l := init + [last];
    assert forall p :: p in l <==> p in init || p == last;
  }

  /** The path kept for a name is the last one in the listing with that name. */
  lemma {:induction false} NameMapKeepsLast(listing: seq<string>, i: int, nameOf: string -> string)
    requires 0 <= i < |listing|
    requires forall j :: i < j < |listing| ==> nameOf(listing[j]) != nameOf(listing[i])
    ensures nameOf(listing[i]) in NameMapBy(listing, nameOf)
    ensures NameMapBy(listing, nameOf)[nameOf(listing[i])] == listing[i]
    decreases |listing|
  {
    var init := listing[..|listing| - 1];
    if i < |listing| - 1 {
      NameMapKeepsLast(init, i, nameOf);
      assert init[i] == listing[i];
    }
  }

  // ---------------------------------------------------------------------
  // Validation
  // ---------------------------------------------------------------------

  /** A script survives validation: not blank once stripped, and no "malicious" in any letter case. */
  predicate IsValidScript(code: string) {
    Strip(code) != [] && !Contains(ToLower(code), "malicious")
  }

  /** The entry for a path is kept: its file reads, and what it holds is valid. */
  predicate Keeps(path: string, files: map<string, string>) {
    path in files && IsValidScript(files[path])
  }

  /** The map `validate_extensions` leaves: the entries whose file reads and is valid. */
  function Validated(ext: map<string, string>, files: map<string, string>): (r: map<string, string>)
    ensures r.Keys <= ext.Keys
    ensures forall n :: n in r ==> r[n] == ext[n] && r[n] in files && IsValidScript(files[r[n]])
    ensures forall n :: n in ext && Keeps(ext[n], files) ==> n in r
  {
    map n | n in ext && Keeps(ext[n], files) :: ext[n]
  }

  /** The paths of the entries among `names` whose file reads but is invalid: the files removed. */
  function Rejected(ext: map<string, string>, files: map<string, string>, names: set<string>): set<string> {
    set n | n in names && n in ext && ext[n] in files && !IsValidScript(files[ext[n]]) :: ext[n]
  }

  /** The files left after validation: every file of a rejected script is removed, nothing else. */
  function RemainingFiles(ext: map<string, string>, files: map<string, string>): (r: map<string, string>)
    ensures r.Keys <= files.Keys
    ensures forall p :: p in r ==> r[p] == files[p]
  {
    map p | p in files && p !in Rejected(ext, files, ext.Keys) :: files[p]
  }

  /**
   * Validation removes exactly the files it rejects: a file stays unless
   * some entry points to it and it is invalid, and valid scripts keep
   * their files.
   */
  lemma RemainingFilesSpec(ext: map<string, string>, files: map<string, string>, p: string)
    requires p in files
    ensures p !in RemainingFiles(ext, files) <==> !IsValidScript(files[p]) && exists n :: n in ext && ext[n] == p
  {
    if !IsValidScript(files[p]) && exists n :: n in ext && ext[n] == p {
      var n :| n in ext && ext[n] == p;
      assert ext[n] in Rejected(ext, files, ext.Keys);
    }
  }

  /** A blank script is rejected. */
  lemma BlankRejected(code: string)
    requires forall i :: 0 <= i < |code| ==> IsSpace(code[i])
    ensures !IsValidScript(code)
  {
    StripEmptyIffBlank(code);
  }

  /** A script holding "malicious" written in any mix of letter cases is rejected. */
  lemma MaliciousRejected(before: string, word: string, after: string)
    requires ToLower(word) == "malicious"
    ensures !IsValidScript(before + word + after)
  {
    ToLowerConcat(before, word);
    ToLowerConcat(before + word, after);
    OccursInMiddle(ToLower(before), "malicious", ToLower(after));
  }

  /** The entries left once the names in `done` were checked: those not yet checked, and the kept ones. */
  function EntriesAfter(ext: map<string, string>, files: map<string, string>, done: set<string>): map<string, string> {
    map n | n in ext && (n !in done || Keeps(ext[n], files)) :: ext[n]
  }
  /** The files left once the names in `done` were checked. */
  function FilesAfter(ext: map<string, string>, files: map<string, string>, done: set<string>): map<string, string> {
    map p | p in files && p !in Rejected(ext, files, done) :: files[p]
  }

  /** Checking one more name rejects its path when its file reads and is invalid. */
  lemma RejectedStep(ext: map<string, string>, files: map<string, string>, done: set<string>, name: string)
    requires name in ext
    ensures Rejected(ext, files, done + {name})
            == Rejected(ext, files, done) + (if ext[name] in files && !IsValidScript(files[ext[name]]) then {ext[name]} else {})
  {
  }

  /** Checking one more name drops it unless its file reads and is valid. */
  lemma EntriesStep(ext: map<string, string>, files: map<string, string>, done: set<string>, name: string)
    requires name in ext && name !in done
    ensures EntriesAfter(ext, files, done + {name})
            == if Keeps(ext[name], files) then EntriesAfter(ext, files, done) else EntriesAfter(ext, files, done) - {name}
  {
  }

  /** Checking one more name removes its file when it is still there and invalid. */
  lemma FilesStep(ext: map<string, string>, files: map<string, string>, done: set<string>, name: string)
    requires name in ext && name !in done
    ensures var cur := FilesAfter(ext, files, done);
            var path := ext[name];
            FilesAfter(ext, files, done + {name})
            == if path in cur && !IsValidScript(cur[path]) then cur - {path} else cur
    ensures var cur := FilesAfter(ext, files, done);
            ext[name] in cur <==> ext[name] in files && ext[name] !in Rejected(ext, files, done)
  {
    RejectedStep(ext, files, done, name);
  }

  /** An entry whose file was already removed had an invalid file. */
  lemma RemovedWasInvalid(ext: map<string, string>, files: map<string, string>, done: set<string>, p: string)
    requires p in Rejected(ext, files, done)
    ensures p in files && !IsValidScript(files[p])
  {
  }

  /**
   * The loop of `validate_extensions`, over a snapshot of the entries in
   * any order: an entry whose file cannot be read (is missing, or was
   * removed for an earlier entry) is dropped; one whose text is invalid is
   * dropped and its file removed.
   */
  method Validate(ext: map<string, string>, files: map<string, string>)
    returns (remaining: map<string, string>, kept: map<string, string>)
    ensures remaining == Validated(ext, files)
    ensures kept == RemainingFiles(ext, files)
  {
    remaining := ext;
    kept := files;
    var pending := ext.Keys;
    while pending != {}
      invariant pending <= ext.Keys
      invariant remaining == EntriesAfter(ext, files, ext.Keys - pending)
      invariant kept == FilesAfter(ext, files, ext.Keys - pending)
      decreases pending
    {
      var name :| name in pending;
      var path := ext[name];
      ghost var done := ext.Keys - pending;
      assert ext.Keys - (pending - {name}) == done + {name};
      EntriesStep(ext, files, done, name);
      FilesStep(ext, files, done, name);
      if path in kept {
        if !IsValidScript(kept[path]) {
          remaining := remaining - {name};
          kept := kept - {path};
        }
      } else {
        if path in files {
          RemovedWasInvalid(ext, files, done, path);
        }
        remaining := remaining - {name};
      }
      pending := pending - {name};
    }
    assert ext.Keys - pending == ext.Keys;
    AllDone(ext, files);
  }

  /** Once every name is checked, the entries and files are those validation leaves. */
  lemma AllDone(ext: map<string, string>, files: map<string, string>)
    ensures EntriesAfter(ext, files, ext.Keys) == Validated(ext, files)
    ensures FilesAfter(ext, files, ext.Keys) == RemainingFiles(ext, files)
  {
  }
  // ---------------------------------------------------------------------
  // Status and injection
  // ---------------------------------------------------------------------

  /** `extension_status.get(name) == 'enabled'`. */
  predicate IsEnabled(status: map<string, Json>, name: string) {
    name in status && status[name] == JString("enabled")
  }

  /** The status map after `enable_extension(name)`, given the loaded names. */
  function Enable(status: map<string, Json>, loaded: set<string>, name: string): (r: map<string, Json>)
    ensures forall n :: n != name ==> (n in r <==> n in status) && (n in status ==> r[n] == status[n])
  {
    if name in loaded && !IsEnabled(status, name) then status[name := JString("enabled")] else status
  }

  /** The status map after `disable_extension(name)`. */
  function Disable(status: map<string, Json>, name: string): (r: map<string, Json>)
    ensures r.Keys == status.Keys
    ensures name in status ==> r[name] == JString("disabled")
  {
    if name in status then status[name := JString("disabled")] else status
  }

  /**
   * Enabling marks a loaded name enabled, adds no other key and changes no
   * other entry; a name not loaded leaves the map as it was.
   */
  lemma EnableSpec(status: map<string, Json>, loaded: set<string>, name: string)
    ensures IsEnabled(Enable(status, loaded, name), name) <==> name in loaded || IsEnabled(status, name)
    ensures Enable(status, loaded, name).Keys <= status.Keys + {name}
    ensures name !in loaded ==> Enable(status, loaded, name) == status
    ensures forall n :: n in status && n != name ==> Enable(status, loaded, name)[n] == status[n]
  {
  }

  /** Enabling twice is enabling once. */
  lemma EnableIdempotent(status: map<string, Json>, loaded: set<string>, name: string)
    ensures Enable(Enable(status, loaded, name), loaded, name) == Enable(status, loaded, name)
  {
  }

  /** Disabling never adds a key and leaves a known name not enabled; other entries are kept. */
  lemma DisableSpec(status: map<string, Json>, name: string)
    ensures Disable(status, name).Keys == status.Keys
    ensures !IsEnabled(Disable(status, name), name) <==> name in status || !IsEnabled(status, name)
    ensures forall n :: n in status && n != name ==> Disable(status, name)[n] == status[n]
  {
  }

  /** A loaded extension that was disabled is enabled again by `enable_extension`. */
  lemma DisableThenEnable(status: map<string, Json>, loaded: set<string>, name: string)
    requires name in loaded
    ensures IsEnabled(Enable(Disable(status, name), loaded, name), name)
    ensures !IsEnabled(Disable(Enable(status, loaded, name), name), name)
  {
  }

  /** The names `inject_extensions` injects: none without JavaScript, else the loaded names marked enabled. */
  function Selected(ext: map<string, string>, status: map<string, Json>, jsEnabled: bool): set<string> {
    if jsEnabled then set n | n in ext && IsEnabled(status, n) else {}
  }

  /** After enabling a loaded extension it is among those injected whenever JavaScript is on. */
  lemma EnableSelects(ext: map<string, string>, status: map<string, Json>, name: string)
    requires name in ext
    ensures name in Selected(ext, Enable(status, ext.Keys, name), true)
    ensures name !in Selected(ext, Disable(status, name), true) <==> name in status || !IsEnabled(status, name)
  {
  }

  // ---------------------------------------------------------------------
  // The store cache
  // ---------------------------------------------------------------------

  /** The cache file: missing, rejected by `json.load`, or a document. */
  datatype CacheFile = NoCache | BadCache | Cached(doc: Json)

  /** `load_cached_extensions`: the "store" entry of a dictionary document, `[]` in every other case. */
  function LoadCached(file: CacheFile): (r: Json)
    ensures !(file.Cached? && file.doc.JObject? && "store" in file.doc.fields) ==> r == JArray([])
  {
    match file
    case Cached(JObject(fields)) => Get(fields, "store", JArray([]))
    case _ => JArray([])
  }

  /** `cache_extensions(store)`: a dictionary document gets the "store" entry; anything else is left as it was. */
  function CacheStore(file: CacheFile, store: Json): (r: CacheFile)
    ensures !(file.Cached? && file.doc.JObject?) ==> r == file
  {
    match file
    case Cached(JObject(fields)) => Cached(JObject(fields["store" := store]))
    case _ => file
  }

  /** A listing cached into a dictionary document is what the next load returns; other entries are kept. */
  lemma CacheRoundTrip(file: CacheFile, store: Json)
    requires file.Cached? && file.doc.JObject?
    ensures LoadCached(CacheStore(file, store)) == store
    ensures forall k :: k in file.doc.fields && k != "store" ==> CacheStore(file, store).doc.fields[k] == file.doc.fields[k]
  {
  }

  /**
   * The text of the cache file after `cache_extensions` as written: the
   * file is opened "r+", `f.seek(0)` goes back to the start and the new
   * document is written over the old one, with no `f.truncate()`, so a
   * longer old text keeps its tail.
   */
  function WriteOverFromStart(before: string, text: string): (r: string)
    ensures |r| == (if |text| < |before| then |before| else |text|)
  {
    if |text| < |before| then text + before[|text|..] else text
  }

  /**
   * A document shorter than the one it replaces does not become the file's
   * text: the file starts with it and goes on with the tail of `before`.
   */
  lemma ShorterWriteKeepsTail(before: string, text: string)
    requires |text| < |before|
    ensures WriteOverFromStart(before, text) != text
    ensures StartsWith(WriteOverFromStart(before, text), text)
    ensures WriteOverFromStart(before, text)[|text|..] == before[|text|..]
  {
    var r := WriteOverFromStart(before, text);
    assert r[..|text|] == text;
  }

  /**
   * Caching an empty store over a cache that listed one extension, both as
   * `json.dump(..., indent=4)` lays them out: the file ends up as the new
   * document followed by the old one's last lines, text that `json.load`
   * rejects ("Extra data"), so the next `load_cached_extensions` returns
   * `[]` and not the store just cached.
   */
  lemma ShrunkCacheHasExtraData()
    ensures WriteOverFromStart("{\n    \"store\": [\n        \"a\"\n    ]\n}",
                               "{\n    \"store\": []\n}")
            == "{\n    \"store\": []\n}" + "      \"a\"\n    ]\n}"
  {
  }

  // ---------------------------------------------------------------------
  // The manager
  // ---------------------------------------------------------------------

  /**
   * The loop of `load_extensions` that fills the cleared map from the
   * listing, for the naming rule `nameOf` (ScriptName in the source).
   */
  method ScanListing(listing: seq<string>, nameOf: string -> string) returns (m: map<string, string>)
    ensures m == NameMapBy(listing, nameOf)
  {
    m := map[];
    var i := 0;
    while i < |listing|
      invariant 0 <= i <= |listing|
      invariant m == NameMapBy(listing[..i], nameOf)
    {
      var path := listing[i];
      NameMapStep(listing, i, nameOf);
      m := m[nameOf(path) := path];
      i := i + 1;
    }
    assert listing[..i] == listing;
  }

  class ExtensionManager {
    /** Loaded extensions: name to script path. */
    var extensions: map<string, string>
    /** The status map, as `json.load` left it plus the updates since. */
    var extensionStatus: map<string, Json>
    /** What extension_status.json holds. */
    var savedStatus: map<string, Json>
    /** The readable script files: path to text. */
    var files: map<string, string>

    /**
     * `__init__`: the status map `load_extension_status` read, then
     * `load_extensions` over the paths the directory scan lists.
     */
    constructor (status: map<string, Json>, files: map<string, string>, listing: seq<string>)
      ensures extensionStatus == status && savedStatus == status
      ensures extensions == Validated(NameMap(listing), files)
      ensures this.files == RemainingFiles(NameMap(listing), files)
    {
      extensions := map[];
      extensionStatus := status;
      savedStatus := status;
      this.files := files;
      new;
      LoadExtensions(listing);
    }

    /**
     * `load_extensions`, for the paths the directory scan lists: the map
     * is rebuilt from nothing, then validated.
     */
    method LoadExtensions(listing: seq<string>)
      modifies this`extensions, this`files
      ensures extensions == Validated(NameMap(listing), old(files))
      ensures files == RemainingFiles(NameMap(listing), old(files))
    {
      var scanned := ScanListing(listing, ScriptName);
      extensions := scanned;
      ValidateExtensions();
    }

    /**
     * `validate_extensions`: each entry whose file cannot be read is
     * dropped; each whose text is blank or holds "malicious" is dropped and
     * its file removed.
     */
    method ValidateExtensions()
      modifies this`extensions, this`files
      ensures extensions == Validated(old(extensions), old(files))
      ensures files == RemainingFiles(old(extensions), old(files))
    {
      var remaining, kept := Validate(extensions, files);
      extensions := remaining;
      files := kept;
    }

    /** `enable_extension`; the answer says whether the script was injected into the current tab. */
    method EnableExtension(name: string) returns (injected: bool)
      modifies this`extensionStatus, this`savedStatus
      ensures injected == (name in extensions && !IsEnabled(old(extensionStatus), name))
      ensures extensionStatus == Enable(old(extensionStatus), extensions.Keys, name)
      ensures savedStatus == if injected then extensionStatus else old(savedStatus)
    {
      injected := name in extensions && !IsEnabled(extensionStatus, name);
      if injected {
        extensionStatus := extensionStatus[name := JString("enabled")];
        savedStatus := extensionStatus;
      }
    }

    /** `disable_extension`. */
    method DisableExtension(name: string)
      modifies this`extensionStatus, this`savedStatus
      ensures extensionStatus == Disable(old(extensionStatus), name)
      ensures savedStatus == if name in old(extensionStatus) then extensionStatus else old(savedStatus)
    {
      if name in extensionStatus {
        extensionStatus := extensionStatus[name := JString("disabled")];
        savedStatus := extensionStatus;
      }
    }

    /** `inject_extensions`: the names whose scripts are run in the page. */
    method InjectExtensions(jsEnabled: bool) returns (injected: set<string>)
      ensures injected == Selected(extensions, extensionStatus, jsEnabled)
    {
      injected := {};
      if !jsEnabled {
        return;
      }
      var pending := extensions.Keys;
      while pending != {}
        invariant pending <= extensions.Keys
        invariant injected == set n | n in extensions && n !in pending && IsEnabled(extensionStatus, n)
        decreases pending
      {
        var name :| name in pending;
        if IsEnabled(extensionStatus, name) {
          injected := injected + {name};
        }
        pending := pending - {name};
      }
    }

    /**
     * `download_extension`, for the server's answer (None for a network or
     * HTTP error) and the listing the directory scan gives afterwards: the
     * script is written under its derived name and the map is reloaded.
     */
    method DownloadExtension(url: string, response: Option<string>, listing: seq<string>)
      returns (name: Option<string>)
      modifies this`extensions, this`files
      ensures response.None? ==> name.None? && extensions == old(extensions) && files == old(files)
      ensures response.Some? ==>
                && name == Some(ExtensionName(url))
                && extensions == Validated(NameMap(listing), old(files)[ScriptPath(ExtensionName(url)) := response.value])
                && files == RemainingFiles(NameMap(listing), old(files)[ScriptPath(ExtensionName(url)) := response.value])
    {
      if response.None? {
        return None;
      }
      var n := ExtensionName(url);
      files := files[ScriptPath(n) := response.value];
      extensions := extensions[n := ScriptPath(n)];
      LoadExtensions(listing);
      name := Some(n);
    }
  }
}
