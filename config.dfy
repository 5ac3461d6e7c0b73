/**
 * The configuration store of data_manager.py: a JSON tree of defaults
 * into which the file's tree is merged on start-up, read and written one
 * section at a time, and saved whole after every change.
 */
module Config {
  import opened Wrappers
  import opened JsonData

  // ---------------------------------------------------------------------
  // Defaults
  // ---------------------------------------------------------------------

  function DefaultPrivacySettings(): map<string, Json> {
    map["https_only" := JBool(true),
        "permissions" := JObject(map[]),
        "anti_fingerprinting_enabled" := JBool(true)]
  }

  function DefaultBrowserPrivacy(): map<string, Json> {
    map["do_not_track" := JBool(true),
        "block_third_party_cookies" := JBool(true),
        "block_trackers" := JBool(false),
        "clear_data_on_exit" := JBool(false),
        "private_browsing" := JBool(false),
        "fingerprint_protection" := JBool(false)]
  }

  function DefaultBrowserSettings(): map<string, Json> {
    map["home_page" := JString("https://mojox.org/search"),
        "search_engine" := JString("Google"),
        "theme" := JString("Dark"),
        "javascript_enabled" := JBool(true),
        "block_popups" := JBool(true),
        "block_mixed_content" := JBool(true),
        "new_tab_behavior" := JString("Home Page"),
        "hardware_acceleration" := JBool(true),
        "preload_pages" := JBool(false),
        "cache_size_limit" := JString("250 MB"),
        "privacy_settings" := JObject(DefaultBrowserPrivacy())]
  }

  /** The tree `DataManager.__init__` starts from, before anything is loaded. */
  function Defaults(): (r: map<string, Json>)
    ensures r.Keys == {"extensions", "privacy", "browser"}
  {
    map["extensions" := JObject(map["status" := JObject(map[]), "cache" := JObject(map[])]),
        "privacy" := JObject(map["settings" := JObject(DefaultPrivacySettings()),
                                 "proxy_cache" := JObject(map[])]),
        "browser" := JObject(map["settings" := JObject(DefaultBrowserSettings()),
                                 "bookmarks" := JArray([]),
                                 "history" := JArray([])])]
  }

  // ---------------------------------------------------------------------
  // Merging a loaded tree into the defaults
  // ---------------------------------------------------------------------

  /** What `_merge_data` leaves under a key both trees hold: dictionaries merge, anything else is replaced. */
  function MergeValue(base: Json, loaded: Json): Json
    decreases loaded, 1
  {
    if base.JObject? && loaded.JObject? then JObject(Merge(base.fields, loaded.fields)) else loaded
  }

  /** `_merge_data(base, loaded)` as the tree it produces. */
  function Merge(base: map<string, Json>, loaded: map<string, Json>): (r: map<string, Json>)
    decreases JObject(loaded), 0
    ensures r.Keys == base.Keys
  {
    map k | k in base :: if k in loaded then MergeValue(base[k], loaded[k]) else base[k]
  }

  /**
   * `_merge_data`: walks the loaded keys in any order, ignores those the
   * defaults lack, recurses where both sides are dictionaries and
   * overwrites everywhere else.
   */
  method MergeInto(base: map<string, Json>, loaded: map<string, Json>) returns (merged: map<string, Json>)
    decreases JObject(loaded)
    ensures merged == Merge(base, loaded)
  {
    merged := base;
    var pending := loaded.Keys;
    while pending != {}
      invariant pending <= loaded.Keys
      invariant merged.Keys == base.Keys
      invariant forall k :: k in base ==>
                  merged[k] == if k in loaded && k !in pending then MergeValue(base[k], loaded[k]) else base[k]
      decreases pending
    {
      var key :| key in pending;
      var value := loaded[key];
      if key in merged {
        if value.JObject? && merged[key].JObject? {
          var sub := MergeInto(merged[key].fields, value.fields);
          merged := merged[key := JObject(sub)];
        } else {
          merged := merged[key := value];
        }
      }
      pending := pending - {key};
    }
  }

  /**
   * Per key: a key absent from the loaded tree keeps its value; a key
   * present on both sides takes the loaded value unless both are
   * dictionaries, which merge with the default key set kept.
   */
  lemma MergeAt(base: map<string, Json>, loaded: map<string, Json>, k: string)
    requires k in base
    ensures k !in loaded ==> Merge(base, loaded)[k] == base[k]
    ensures k in loaded && !(base[k].JObject? && loaded[k].JObject?) ==> Merge(base, loaded)[k] == loaded[k]
    ensures k in loaded && base[k].JObject? && loaded[k].JObject? ==>
              Merge(base, loaded)[k].JObject? && Merge(base, loaded)[k].fields.Keys == base[k].fields.Keys
  {
  }

  /** Keys the defaults lack make no difference. */
  lemma MergeIgnoresUnknown(base: map<string, Json>, loaded: map<string, Json>)
    ensures Merge(base, loaded) == Merge(base, map k | k in loaded && k in base :: loaded[k])
  {
  }

  /** Merging an empty tree changes nothing. */
  lemma MergeEmpty(base: map<string, Json>)
    ensures Merge(base, map[]) == base
  {
  }

  /** Merging a tree into itself gives it back. */
  lemma {:induction false} MergeSelf(t: map<string, Json>)
    decreases JObject(t)
    ensures Merge(t, t) == t
  {
    forall k | k in t && t[k].JObject?
      ensures Merge(t[k].fields, t[k].fields) == t[k].fields
    {
      MergeSelf(t[k].fields);
    }
  }

  /** Merging the same loaded tree a second time changes nothing more. */
  lemma {:induction false} MergeIdempotent(base: map<string, Json>, loaded: map<string, Json>)
    decreases JObject(loaded)
    ensures Merge(Merge(base, loaded), loaded) == Merge(base, loaded)
  {
    var once := Merge(base, loaded);
    forall k | k in base && k in loaded
      ensures MergeValue(once[k], loaded[k]) == once[k]
    {
      MergeAt(base, loaded, k);
      if base[k].JObject? && loaded[k].JObject? {
        MergeIdempotent(base[k].fields, loaded[k].fields);
      } else {
        if loaded[k].JObject? {
          MergeSelf(loaded[k].fields);
        }
      }
    }
  }

  /**
   * Loading the tree a load produced (what the next start-up reads once
   * it was saved) gives that tree again.
   */
  lemma {:induction false} ReloadIsStable(base: map<string, Json>, loaded: map<string, Json>)
    decreases JObject(base)
    ensures Merge(base, Merge(base, loaded)) == Merge(base, loaded)
  {
    var once := Merge(base, loaded);
    forall k | k in base
      ensures MergeValue(base[k], once[k]) == once[k]
    {
      if k in loaded && base[k].JObject? && loaded[k].JObject? {
        ReloadIsStable(base[k].fields, loaded[k].fields);
      } else if k !in loaded && base[k].JObject? {
        MergeSelf(base[k].fields);
      }
    }
  }

  // ---------------------------------------------------------------------
  // Sections
  // ---------------------------------------------------------------------

  /** The seven sections with a getter and a setter. */
  datatype Section = ExtensionStatus | ExtensionCache | PrivacySettings | ProxyCache
                   | BrowserSettings | Bookmarks | History

  /** The top-level key a section sits under. */
  function Parent(s: Section): string {
    match s
    case ExtensionStatus | ExtensionCache => "extensions"
    case PrivacySettings | ProxyCache => "privacy"
    case BrowserSettings | Bookmarks | History => "browser"
  }

  /** The key of a section inside its parent. */
  function Child(s: Section): string {
    match s
    case ExtensionStatus => "status"
    case ExtensionCache => "cache"
    case PrivacySettings | BrowserSettings => "settings"
    case ProxyCache => "proxy_cache"
    case Bookmarks => "bookmarks"
    case History => "history"
  }

  /** Two different sections never share a path. */
  lemma PathsDistinct(s: Section, t: Section)
    requires s != t
    ensures Parent(s) != Parent(t) || Child(s) != Child(t)
  {
  }

  /**
   * `get_X`: `data[parent][child]`; None where Python raises (a missing
   * key, or a parent that a load replaced by something not a dictionary).
   */
  function Lookup(data: map<string, Json>, s: Section): (r: Option<Json>)
    ensures r.Some? <==> Parent(s) in data && data[Parent(s)].JObject? && Child(s) in data[Parent(s)].fields
  {
    if Parent(s) in data && data[Parent(s)].JObject? && Child(s) in data[Parent(s)].fields
    then Some(data[Parent(s)].fields[Child(s)])
    else None
  }

  /** `set_X` before the save: `data[parent][child] = v`; None where Python raises. */
  function Store(data: map<string, Json>, s: Section, v: Json): (r: Option<map<string, Json>>)
    ensures r.Some? <==> Parent(s) in data && data[Parent(s)].JObject?
    ensures r.Some? ==> r.value.Keys == data.Keys
  {
    if Parent(s) in data && data[Parent(s)].JObject?
    then Some(data[Parent(s) := JObject(data[Parent(s)].fields[Child(s) := v])])
    else None
  }

  /** A stored value is what the getter then returns. */
  lemma StoreThenLookup(data: map<string, Json>, s: Section, v: Json)
    requires Store(data, s, v).Some?
    ensures Lookup(Store(data, s, v).value, s) == Some(v)
  {
  }

  /**
   * A store touches its own section only: every other section reads as
   * before, no top-level key appears or goes, and nothing outside the
   * parent changes.
   */
  lemma StoreFrame(data: map<string, Json>, s: Section, v: Json, t: Section)
    requires Store(data, s, v).Some? && t != s
    ensures Lookup(Store(data, s, v).value, t) == Lookup(data, t)
    ensures Store(data, s, v).value.Keys == data.Keys
    ensures forall k :: k in data && k != Parent(s) ==> Store(data, s, v).value[k] == data[k]
  {
    PathsDistinct(s, t);
  }

  /**
   * Every section is reachable: each parent is present, and whenever it
   * is a dictionary it holds the section's key.
   */
  ghost predicate Conforms(data: map<string, Json>) {
    forall s: Section :: Parent(s) in data && (data[Parent(s)].JObject? ==> Child(s) in data[Parent(s)].fields)
  }

  /** In a conforming tree a section can be stored exactly when it can be read. */
  lemma StoreIffLookup(data: map<string, Json>, s: Section, v: Json)
    requires Conforms(data)
    ensures Store(data, s, v).Some? <==> Lookup(data, s).Some?
  {
  }

  /** Stores keep a tree conforming. */
  lemma StoreConforms(data: map<string, Json>, s: Section, v: Json)
    requires Conforms(data) && Store(data, s, v).Some?
    ensures Conforms(Store(data, s, v).value)
  {
    var r := Store(data, s, v).value;
    forall t: Section ensures Parent(t) in r && (r[Parent(t)].JObject? ==> Child(t) in r[Parent(t)].fields) {
      if Parent(t) == Parent(s) {
        assert Child(t) in data[Parent(s)].fields;
      }
    }
  }

  /** Each section of the defaults is present, under a dictionary parent. */
  lemma DefaultsHoldSections(s: Section)
    ensures Parent(s) in Defaults() && Defaults()[Parent(s)].JObject?
    ensures Child(s) in Defaults()[Parent(s)].fields
  {
  }

  /** Whatever the file holds, the tree a load produces conforms. */
  lemma MergedConforms(loaded: map<string, Json>)
    ensures Conforms(Merge(Defaults(), loaded))
  {
    var r := Merge(Defaults(), loaded);
    forall s: Section ensures Parent(s) in r && (r[Parent(s)].JObject? ==> Child(s) in r[Parent(s)].fields) {
      DefaultsHoldSections(s);
      MergeAt(Defaults(), loaded, Parent(s));
    }
  }

  /**
   * A fresh store holds the privacy defaults: HTTPS only, no per-host
   * permissions, anti-fingerprinting on, and an empty proxy cache.
   */
  lemma FreshPrivacy()
    ensures Lookup(Defaults(), PrivacySettings)
            == Some(JObject(map["https_only" := JBool(true), "permissions" := JObject(map[]),
                                "anti_fingerprinting_enabled" := JBool(true)]))
    ensures Lookup(Defaults(), ProxyCache) == Some(JObject(map[]))
  {
  }

  /** `clear_all_private_data` before the save: history first, then bookmarks, each set to `[]`. */
  function ClearPrivate(data: map<string, Json>): (r: Option<map<string, Json>>)
    ensures r.Some? ==> r.value.Keys == data.Keys
  {
    match Store(data, History, JArray([]))
    case None => None
    case Some(d) => Store(d, Bookmarks, JArray([]))
  }

  /**
   * Clearing succeeds exactly when the browser section is a dictionary;
   * it leaves history and bookmarks empty and every other section as it was.
   */
  lemma ClearPrivateSpec(data: map<string, Json>, t: Section)
    requires t != History && t != Bookmarks
    ensures ClearPrivate(data).Some? <==> "browser" in data && data["browser"].JObject?
    ensures ClearPrivate(data).Some? ==>
              && Lookup(ClearPrivate(data).value, History) == Some(JArray([]))
              && Lookup(ClearPrivate(data).value, Bookmarks) == Some(JArray([]))
              && Lookup(ClearPrivate(data).value, t) == Lookup(data, t)
  {
    if ClearPrivate(data).Some? {
      var d := Store(data, History, JArray([])).value;
      StoreThenLookup(data, History, JArray([]));
      StoreFrame(d, Bookmarks, JArray([]), History);
      StoreThenLookup(d, Bookmarks, JArray([]));
      StoreFrame(data, History, JArray([]), t);
      StoreFrame(d, Bookmarks, JArray([]), t);
    }
  }

  // ---------------------------------------------------------------------
  // The store object
  // ---------------------------------------------------------------------

  /** What the configuration file holds: nothing, something `json.load` rejects, or a document. */
  datatype ConfigFile = Absent | Unreadable | Stored(doc: Json)

  /** The tree `__init__` ends with, for each state of the file. */
  function Loaded(file: ConfigFile): (r: map<string, Json>)
    ensures r.Keys == Defaults().Keys
    ensures Conforms(r)
  {
    if file.Stored? && file.doc.JObject? then
      MergedConforms(file.doc.fields);
      Merge(Defaults(), file.doc.fields)
    else
      MergedConforms(map[]);
      MergeEmpty(Defaults());
      Defaults()
  }

  /**
   * Start-up fails over to the defaults and rewrites the file exactly when
   * loading raised: an unreadable file, or a document whose top level is
   * not a dictionary.
   */
  predicate LoadFails(file: ConfigFile) {
    file.Unreadable? || (file.Stored? && !file.doc.JObject?)
  }

  class DataManager {
    var data: map<string, Json>
    var file: ConfigFile

    ghost predicate Valid()
      reads this
    {
      Conforms(data)
    }

    /** `__init__` followed by `load_data`. */
    constructor (file: ConfigFile)
      ensures Valid()
      ensures data == Loaded(file)
      ensures this.file == if LoadFails(file) then Stored(JObject(Defaults())) else file
    {
      data := Defaults();
      this.file := file;
      new;
      MergedConforms(map[]);
      MergeEmpty(Defaults());
      match file {
        case Absent =>
        case Unreadable =>
          SaveData();
        case Stored(doc) =>
          if doc.JObject? {
            var merged := MergeInto(data, doc.fields);
            data := merged;
            MergedConforms(doc.fields);
          } else {
            SaveData();
          }
      }
    }

    /** `save_data`: the file now holds the whole tree. */
    method SaveData()
      modifies this`file
      ensures file == Stored(JObject(data))
    {
      file := Stored(JObject(data));
    }

    /** A section getter. */
    method Get(s: Section) returns (r: Option<Json>)
      requires Valid()
      ensures r == Lookup(data, s)
      ensures r.Some? <==> data[Parent(s)].JObject?
    {
      if data[Parent(s)].JObject? {
        r := Some(data[Parent(s)].fields[Child(s)]);
      } else {
        r := None;
      }
    }

    /** A section setter: on success the tree and the file both hold the new value; on failure nothing changes. */
    method Set(s: Section, v: Json) returns (ok: bool)
      requires Valid()
      modifies this
      ensures Valid()
      ensures ok == Store(old(data), s, v).Some?
      ensures ok ==> data == Store(old(data), s, v).value && file == Stored(JObject(data))
      ensures !ok ==> data == old(data) && file == old(file)
    {
      var r := Store(data, s, v);
      ok := r.Some?;
      if ok {
        StoreConforms(data, s, v);
        data := r.value;
        SaveData();
      }
    }

    /** `clear_all_private_data`. */
    method ClearAllPrivateData() returns (ok: bool)
      requires Valid()
      modifies this
      ensures Valid()
      ensures ok == ClearPrivate(old(data)).Some?
      ensures ok ==> data == ClearPrivate(old(data)).value && file == Stored(JObject(data))
      ensures !ok ==> data == old(data) && file == old(file)
    {
      var r := ClearPrivate(data);
      ok := r.Some?;
      if ok {
        var d := Store(data, History, JArray([])).value;
        StoreConforms(data, History, JArray([]));
        StoreConforms(d, Bookmarks, JArray([]));
        data := r.value;
        SaveData();
      }
    }
  }
}
