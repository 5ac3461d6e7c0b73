/**
 * The address bar and the six persisted settings of `MojoBrowser` in
 * main.py: classifying what was typed as an address or a search, building
 * the search address for each engine, applying the settings dialog, and
 * the settings file read at start-up and rewritten on every change.
 */
module Browser {
  import opened Wrappers
  import opened Strings
  import opened JsonData

  // ---------------------------------------------------------------------
  // Settings and their file
  // ---------------------------------------------------------------------

  /** The six fields, each as `json.load` may have left it. */
  datatype Settings = Settings(homePage: Json, searchEngine: Json, theme: Json,
                               javascriptEnabled: Json, blockPopups: Json, blockMixedContent: Json)

  function DefaultSettings(): Settings {
    Settings(JString("https://www.google.com"), JString("Google"), JString("Dark"),
             JBool(true), JBool(true), JBool(true))
  }

  /** The keys `save_settings` writes. */
  const SettingsKeys: set<string> :=
    {"home_page", "search_engine", "theme", "javascript_enabled", "block_popups", "block_mixed_content"}

  /** The dictionary `save_settings` writes. */
  function ToMap(s: Settings): (m: map<string, Json>)
    ensures m.Keys == SettingsKeys
  {
    map["home_page" := s.homePage, "search_engine" := s.searchEngine, "theme" := s.theme,
        "javascript_enabled" := s.javascriptEnabled, "block_popups" := s.blockPopups,
        "block_mixed_content" := s.blockMixedContent]
  }

  /**
   * The fields `load_settings` reads from a dictionary: each of the six
   * keys takes the file's value when present and its default when
   * missing, whatever the other keys hold.
   */
  function FromMap(m: map<string, Json>): (s: Settings)
    ensures forall k :: k in SettingsKeys && k in m ==> ToMap(s)[k] == m[k]
    ensures forall k :: k in SettingsKeys && k !in m ==> ToMap(s)[k] == ToMap(DefaultSettings())[k]
  {
    var d := DefaultSettings();
    Settings(Get(m, "home_page", d.homePage), Get(m, "search_engine", d.searchEngine),
             Get(m, "theme", d.theme), Get(m, "javascript_enabled", d.javascriptEnabled),
             Get(m, "block_popups", d.blockPopups), Get(m, "block_mixed_content", d.blockMixedContent))
  }

  /** The settings file: missing, rejected by `json.load`, or a document. */
  datatype SettingsFile = NoFile | Unparsable | Saved(doc: Json)

  /**
   * `load_settings`: the defaults without a file, the document's fields
   * with defaults for the missing keys otherwise; None where the source
   * raises (the file does not parse, or its top level is not a dictionary).
   */
  function LoadSettings(file: SettingsFile): (r: Option<Settings>)
    ensures r.None? <==> file.Unparsable? || (file.Saved? && !file.doc.JObject?)
  {
    match file
    case NoFile => Some(DefaultSettings())
    case Unparsable => None
    case Saved(doc) => if doc.JObject? then Some(FromMap(doc.fields)) else None
  }

  /** Saving and loading again gives back the six values. */
  lemma SaveLoadRoundTrip(s: Settings)
    ensures LoadSettings(Saved(JObject(ToMap(s)))) == Some(s)
  {
  }

  /** A saved file holding exactly the six keys is written back unchanged after a load. */
  lemma LoadSaveRoundTrip(m: map<string, Json>)
    requires m.Keys == SettingsKeys
    ensures ToMap(FromMap(m)) == m
  {
  }

  /** Without a file, and with a file holding none of the keys, every field takes its default. */
  lemma MissingKeysTakeDefaults(m: map<string, Json>)
    requires m.Keys !! SettingsKeys
    ensures LoadSettings(NoFile) == Some(DefaultSettings())
    ensures LoadSettings(Saved(JObject(m))) == Some(DefaultSettings())
  {
  }

  /** Keys other than the six are ignored. */
  lemma LoadIgnoresOtherKeys(m: map<string, Json>)
    ensures FromMap(m) == FromMap(map k | k in m && k in SettingsKeys :: m[k])
  {
  }

  // ---------------------------------------------------------------------
  // Search addresses
  // ---------------------------------------------------------------------

  const GooglePrefix: string := "https://www.google.com/search?q="
  const BingPrefix: string := "https://www.bing.com/search?q="
  const DuckDuckGoPrefix: string := "https://duckduckgo.com/?q="
  const YahooPrefix: string := "https://search.yahoo.com/search?p="

  /** The fixed address before the query, for each engine `get_search_url` knows. */
  function EnginePrefix(engine: Json): Option<string> {
    if engine == JString("Google") then Some(GooglePrefix)
    else if engine == JString("Bing") then Some(BingPrefix)
    else if engine == JString("DuckDuckGo") then Some(DuckDuckGoPrefix)
    else if engine == JString("Yahoo") then Some(YahooPrefix)
    else None
  }

  /** An HTTPS address without spaces that ends in '=', ready for the query. */
  predicate IsQueryPrefix(p: string) {
    StartsWith(p, "https://") && ' ' !in p && p[|p| - 1] == '='
  }

  lemma GooglePrefixShape() ensures IsQueryPrefix(GooglePrefix) {}
  lemma BingPrefixShape() ensures IsQueryPrefix(BingPrefix) {}
  lemma DuckDuckGoPrefixShape() ensures IsQueryPrefix(DuckDuckGoPrefix) {}
  lemma YahooPrefixShape() ensures IsQueryPrefix(YahooPrefix) {}

  predicate KnownEngine(engine: Json) {
    engine in {JString("Google"), JString("Bing"), JString("DuckDuckGo"), JString("Yahoo")}
  }

  /** `get_search_url`: the engine's prefix and the query with every space made `+`; None for any other engine. */
  function SearchUrl(engine: Json, query: string): (r: Option<string>)
    ensures r.Some? <==> KnownEngine(engine)
  {
    match EnginePrefix(engine)
    case None => None
    case Some(prefix) => Some(prefix + ReplaceAll(query, " ", "+"))
  }

  /** Each engine prefix is an HTTPS address without spaces, ending in '='. */
  lemma PrefixShape(engine: Json)
    requires KnownEngine(engine)
    ensures IsQueryPrefix(EnginePrefix(engine).value)
  {
    GooglePrefixShape();
    BingPrefixShape();
    DuckDuckGoPrefixShape();
    YahooPrefixShape();
  }

  /**
   * A search address is the engine prefix followed by the query, character
   * for character, with `+` wherever the query had a space: it has no
   * space at all, and for a query without `+` the query is recovered by
   * turning the `+` back into spaces.
   */
  lemma SearchUrlSpec(engine: Json, query: string)
    requires KnownEngine(engine)
    ensures var r := SearchUrl(engine, query).value;
            var p := EnginePrefix(engine).value;
            && |r| == |p| + |query|
            && r[..|p|] == p
            && (forall i :: 0 <= i < |query| ==> r[|p| + i] == if query[i] == ' ' then '+' else query[i])
            && ' ' !in r
            && ('+' !in query ==> ReplaceAll(r[|p|..], "+", " ") == query)
  {
    var p := EnginePrefix(engine).value;
    var q := ReplaceAll(query, " ", "+");
    var r := p + q;
    assert SearchUrl(engine, query).value == r;
    ReplaceCharPointwise(query, ' ', '+');
    ReplaceCharRemoves(query, ' ', '+');
    PrefixShape(engine);
    assert r[|p|..] == q;
    if '+' !in query {
      ReplaceCharPointwise(q, '+', ' ');
      var back := ReplaceAll(q, "+", " ");
      assert |back| == |query|;
      forall i | 0 <= i < |query| ensures back[i] == query[i] {
        assert q[i] == if query[i] == ' ' then '+' else query[i];
      }
    }
  }

  // ---------------------------------------------------------------------
  // The address bar
  // ---------------------------------------------------------------------

  /** `\w`, for ASCII text. */
  predicate IsWordChar(c: char) {
    ('a' <= c <= 'z') || ('A' <= c <= 'Z') || ('0' <= c <= '9') || c == '_'
  }

  /** A dot followed by two word characters starts at `i`. */
  predicate DotWordAt(s: string, i: nat) {
    i + 2 < |s| && s[i] == '.' && IsWordChar(s[i + 1]) && IsWordChar(s[i + 2])
  }

  /** `re.search(r'\.\w{2,}', s)` finds a match. */
  predicate LooksLikeDomain(s: string) {
    exists i: nat | i < |s| :: DotWordAt(s, i)
  }

  predicate HasScheme(s: string) {
    StartsWith(s, "http://") || StartsWith(s, "https://")
  }

  /**
   * The address `load_page` hands to the view for the stripped text `t`:
   * an address with a scheme as it is, a domain-like text with "http://"
   * in front, anything else as a search; None where the search engine is
   * not one of the four.
   */
  function TargetOf(t: string, engine: Json): Option<string> {
    if HasScheme(t) || LooksLikeDomain(t) then
      Some(if HasScheme(t) then t else "http://" + t)
    else
      SearchUrl(engine, t)
  }

  /** `load_page` for what was typed: the text is stripped first. */
  function LoadTarget(typed: string, engine: Json): (r: Option<string>)
    ensures r.None? ==> !KnownEngine(engine)
  {
    TargetOf(Strip(typed), engine)
  }

  /**
   * The three cases of `load_page`, on the stripped text: a scheme keeps
   * the text, a domain-like text gains "http://", and anything else is
   * searched for.
   */
  lemma LoadTargetCases(typed: string, engine: Json)
    ensures HasScheme(Strip(typed)) ==> LoadTarget(typed, engine) == Some(Strip(typed))
    ensures !HasScheme(Strip(typed)) && LooksLikeDomain(Strip(typed)) ==>
              LoadTarget(typed, engine) == Some("http://" + Strip(typed))
    ensures !HasScheme(Strip(typed)) && !LooksLikeDomain(Strip(typed)) ==>
              LoadTarget(typed, engine) == SearchUrl(engine, Strip(typed))
  {
  }

  /** Whatever the text, the view is handed an address with a scheme (or nothing, for an unknown engine). */
  lemma TargetHasScheme(t: string, engine: Json)
    requires TargetOf(t, engine).Some?
    ensures HasScheme(TargetOf(t, engine).value)
  {
    if !HasScheme(t) && !LooksLikeDomain(t) {
      PrefixShape(engine);
      assert StartsWith(EnginePrefix(engine).value + ReplaceAll(t, " ", "+"), "https://");
    }
  }

  /** Whatever was typed, the view is handed an address with a scheme (or nothing, for an unknown engine). */
  lemma LoadTargetHasScheme(typed: string, engine: Json)
    requires LoadTarget(typed, engine).Some?
    ensures HasScheme(LoadTarget(typed, engine).value)
  {
    TargetHasScheme(Strip(typed), engine);
  }

  /**
   * A search address for a query not ending in whitespace ends in the
   * query's last character, or in the prefix's '=' for an empty query;
   * either way it does not end in whitespace.
   */
  lemma SearchUrlEnds(engine: Json, t: string)
    requires KnownEngine(engine) && (t != [] ==> !IsSpace(t[|t| - 1]))
    ensures var u := SearchUrl(engine, t).value; u != [] && u[|u| - 1] == (if t == [] then '=' else t[|t| - 1])
    ensures var u := SearchUrl(engine, t).value; u != [] && !IsSpace(u[|u| - 1])
  {
    var u := SearchUrl(engine, t).value;
    var p := EnginePrefix(engine).value;
    SearchUrlSpec(engine, t);
    PrefixShape(engine);
    if |t| > 0 {
      assert u[|u| - 1] == u[|p| + (|t| - 1)];
    } else {
      assert u[|u| - 1] == '=';
    }
  }

  /** For a text without whitespace at its ends, the address handed to the view has none either. */
  lemma TargetTrimmed(t: string, engine: Json)
    requires t != [] ==> !IsSpace(t[0]) && !IsSpace(t[|t| - 1])
    requires TargetOf(t, engine).Some?
    ensures var u := TargetOf(t, engine).value; u != [] && !IsSpace(u[0]) && !IsSpace(u[|u| - 1])
  {
    var u := TargetOf(t, engine).value;
    TargetHasScheme(t, engine);
    assert u[0] == 'h';
    if HasScheme(t) {
      assert u == t;
    } else if LooksLikeDomain(t) {
      assert u == "http://" + t && t != [];
      assert u[|u| - 1] == t[|t| - 1];
    } else {
      assert u == SearchUrl(engine, t).value;
      SearchUrlEnds(engine, t);
    }
  }

  /** What the bar hands to the view neither starts nor ends with whitespace. */
  lemma LoadTargetTrimmed(typed: string, engine: Json)
    requires LoadTarget(typed, engine).Some?
    ensures var u := LoadTarget(typed, engine).value; u != [] && !IsSpace(u[0]) && !IsSpace(u[|u| - 1])
  {
    TargetTrimmed(Strip(typed), engine);
  }

  /**
   * Typing the address the bar loaded back into the bar loads the same
   * address again, whatever engine is then selected.
   */
  lemma LoadTargetIdempotent(typed: string, engine: Json, engine2: Json)
    requires LoadTarget(typed, engine).Some?
    ensures LoadTarget(LoadTarget(typed, engine).value, engine2) == LoadTarget(typed, engine)
  {
    var u := LoadTarget(typed, engine).value;
    LoadTargetTrimmed(typed, engine);
    LoadTargetHasScheme(typed, engine);
    StripUntrimmed(u);
    assert LoadTarget(u, engine2) == TargetOf(u, engine2);
  }

  // ---------------------------------------------------------------------
  // The window
  // ---------------------------------------------------------------------

  /** A value `QUrl(...)` accepts: a string, or None for the null address; anything else raises TypeError. */
  predicate IsUrlArgument(v: Json) {
    v.JString? || v.JNull?
  }

  /** The part of `MojoBrowser` that holds state: its settings, their file, and what the view shows. */
  class MojoBrowser {
    var settings: Settings
    /** The settings file. */
    var settingsFile: SettingsFile
    /** The last value handed to the view's `setUrl`; JNull stands for the None of an unknown engine. */
    var viewUrl: Json

    /**
     * `__init__`: load the settings, then show the home page. The source
     * does not start when loading raises, or when the loaded home page is
     * something `QUrl` refuses.
     */
    constructor (file: SettingsFile)
      requires LoadSettings(file).Some?
      requires IsUrlArgument(LoadSettings(file).value.homePage)
      ensures settings == LoadSettings(file).value
      ensures settingsFile == file
      ensures viewUrl == settings.homePage
    {
      settings := LoadSettings(file).value;
      settingsFile := file;
      viewUrl := LoadSettings(file).value.homePage;
    }

    /** `load_page`, for the text in the address bar. */
    method LoadPage(typed: string)
      modifies this`viewUrl
      ensures viewUrl == match LoadTarget(typed, settings.searchEngine)
                         case Some(u) => JString(u)
                         case None => JNull
    {
      var target := LoadTarget(typed, settings.searchEngine);
      match target {
        case Some(u) => viewUrl := JString(u);
        case None => viewUrl := JNull;
      }
    }

    /**
     * `apply_settings`, with the values the dialog reads from its widgets:
     * an empty home page keeps the previous one, the other five fields are
     * replaced as given; the view goes to the home page and the file holds
     * the new settings.
     */
    method ApplySettings(homePage: string, searchEngine: string, theme: string,
                         javascriptEnabled: bool, blockPopups: bool, blockMixedContent: bool)
      modifies this
      ensures settings.homePage == if homePage == "" then old(settings.homePage) else JString(homePage)
      ensures settings.(homePage := JNull)
              == Settings(JNull, JString(searchEngine), JString(theme), JBool(javascriptEnabled),
                          JBool(blockPopups), JBool(blockMixedContent))
      ensures viewUrl == settings.homePage
      ensures settingsFile == Saved(JObject(ToMap(settings)))
      ensures LoadSettings(settingsFile) == Some(settings)
    {
      var home := if Truthy(JString(homePage)) then JString(homePage) else settings.homePage;
      settings := Settings(home, JString(searchEngine), JString(theme), JBool(javascriptEnabled),
                           JBool(blockPopups), JBool(blockMixedContent));
      viewUrl := settings.homePage;
      SaveSettings();
    }

    /** `save_settings`: the file holds the six fields. */
    method SaveSettings()
      modifies this`settingsFile
      ensures settingsFile == Saved(JObject(ToMap(settings)))
      ensures LoadSettings(settingsFile) == Some(settings)
    {
      settingsFile := Saved(JObject(ToMap(settings)));
      SaveLoadRoundTrip(settings);
    }
  }
}
