/**
 * The privacy engine of MojoPrivacy.py: the per-request decision
 * (HTTPS upgrade, Cookie and DNT headers, tracker and per-host blocking),
 * the navigation-time HTTPS upgrade, and the proxy pool that tests
 * candidates, keeps the working ones and picks the process-wide proxy.
 */
module Privacy {
  import opened Wrappers
  import opened Strings
  import opened JsonData

  const UserAgents: seq<string> := [
    "Mozilla/5.0 (Windows NT 10.0; Win64; x64) AppleWebKit/537.36 (KHTML, like Gecko) Chrome/120.0.0.0 Safari/537.36",
    "Mozilla/5.0 (Macintosh; Intel Mac OS X 10_15_7) AppleWebKit/605.1.15 (KHTML, like Gecko) Version/17.0 Safari/605.1.15",
    "Mozilla/5.0 (X11; Linux x86_64) AppleWebKit/537.36 (KHTML, like Gecko) Firefox/119.0"
  ]

  /** The tracker table exactly as written: raw regular-expression text, backslashes included. */
  const TrackerPatterns: seq<string> := [
    "google-analytics\\.com",
    "doubleclick\\.net",
    "adservice\\.google\\.",
    "facebook\\.com/tr",
    "twitter\\.com/i/"
  ]

  /** The candidate proxies of `PROXY_LIST`, each written `host + ":" + port`. */
  const ProxyList: seq<string> := [
    "88.135.41.109" + ":" + "4145", "103.251.223.105" + ":" + "6084",
    "182.160.110.154" + ":" + "9898", "198.44.171.161" + ":" + "7088",
    "104.207.53.203" + ":" + "3128"
  ]

  // ---------------------------------------------------------------------
  // Request policy
  // ---------------------------------------------------------------------

  /**
   * What the interceptor does to one request: the URL it redirects to (if
   * any), whether it sets the Cookie header to empty, whether it sets
   * `DNT: 1`, and whether it blocks the request.
   */
  datatype Outcome = Outcome(redirect: Option<string>, clearCookie: bool, setDnt: bool, blocked: bool)

  /** Per-host overrides: host name to its permission dictionary. */
  type Permissions = map<string, map<string, Json>>

  /** Some pattern of the table is a literal substring of the URL (the source's `pattern in url`). */
  predicate MatchesAny(url: string, patterns: seq<string>) {
    patterns != [] && (Contains(url, patterns[0]) || MatchesAny(url, patterns[1..]))
  }

  /** `url.replace("http://", "https://")`: every occurrence, not only the scheme. */
  function Upgrade(url: string): string {
    ReplaceAll(url, "http://", "https://")
  }

  predicate UpgradesTo(url: string, httpsOnly: bool) {
    httpsOnly && StartsWith(url, "http://")
  }

  predicate CookiesBlocked(settings: map<string, Json>) {
    Truthy(Get(settings, "block_third_party_cookies", JBool(true)))
  }

  predicate DoNotTrack(settings: map<string, Json>) {
    Truthy(Get(settings, "do_not_track", JBool(true)))
  }

  predicate TrackersBlocked(settings: map<string, Json>) {
    Truthy(Get(settings, "block_trackers", JBool(false)))
  }

  predicate HostDeniesCookies(host: string, permissions: Permissions) {
    host in permissions && !Truthy(Get(permissions[host], "allow_cookies", JBool(true)))
  }

  predicate HostDeniesScripts(host: string, permissions: Permissions) {
    host in permissions && !Truthy(Get(permissions[host], "allow_js", JBool(true)))
  }

  /**
   * `PrivacyEngine.interceptRequest`, step by step as the source runs it:
   * the HTTPS upgrade returns at once; otherwise the Cookie and DNT headers
   * are set from the settings, a tracker match blocks and returns, and last
   * the request host's own permissions may clear Cookie and block.
   * `patterns` is the tracker table the engine consults (TrackerPatterns).
   */
  function Intercept(url: string, host: string, httpsOnly: bool, settings: map<string, Json>,
                     permissions: Permissions, patterns: seq<string>): (o: Outcome)
    ensures o.redirect.Some? ==> !o.clearCookie && !o.setDnt && !o.blocked
    ensures o.redirect.None? ==> o.setDnt == DoNotTrack(settings)
  {
    if httpsOnly && StartsWith(url, "http://") then
      Outcome(Some(Upgrade(url)), false, false, false)
    else
      var headers := Outcome(None, CookiesBlocked(settings), DoNotTrack(settings), false);
      if TrackersBlocked(settings) && MatchesAny(url, patterns) then
        headers.(blocked := true)
      else if host in permissions then
        var perms := permissions[host];
        headers.(clearCookie := headers.clearCookie || !Truthy(Get(perms, "allow_cookies", JBool(true))),
                 blocked := !Truthy(Get(perms, "allow_js", JBool(true))))
      else
        headers
  }

  /** A pattern matches iff some entry of the table is a substring of the URL. */
  lemma {:induction false} MatchesAnyIff(url: string, patterns: seq<string>)
    ensures MatchesAny(url, patterns) <==> exists i :: 0 <= i < |patterns| && Contains(url, patterns[i])
  {
    if patterns != [] {
      MatchesAnyIff(url, patterns[1..]);
      if MatchesAny(url, patterns[1..]) {
        var i :| 0 <= i < |patterns[1..]| && Contains(url, patterns[1..][i]);
        assert Contains(url, patterns[i + 1]);
      }
      forall i | 1 <= i < |patterns| && Contains(url, patterns[i])
        ensures MatchesAny(url, patterns[1..])
      {
        assert patterns[1..][i - 1] == patterns[i];
      }
    }
  }

  /**
   * With `https_only` on, a URL starting "http://" is redirected to the URL
   * with every "http://" made "https://", and nothing else is done: no
   * header is touched and nothing is blocked. The target starts "https://".
   */
  lemma UpgradeIsTerminal(url: string, host: string, httpsOnly: bool, settings: map<string, Json>,
                          permissions: Permissions, patterns: seq<string>)
    requires UpgradesTo(url, httpsOnly)
    ensures Intercept(url, host, httpsOnly, settings, permissions, patterns)
            == Outcome(Some(Upgrade(url)), false, false, false)
    ensures StartsWith(Upgrade(url), "https://")
  {
    ReplaceAllAtFront(url, "http://", "https://");
  }

  /** The redirect target is itself never redirected again: the upgrade reaches a fixed point in one step. */
  lemma RedirectNotRepeated(url: string, host: string, httpsOnly: bool, settings: map<string, Json>,
                            permissions: Permissions, patterns: seq<string>,
                            host2: string, settings2: map<string, Json>, permissions2: Permissions)
    requires Intercept(url, host, httpsOnly, settings, permissions, patterns).redirect.Some?
    ensures Intercept(Intercept(url, host, httpsOnly, settings, permissions, patterns).redirect.value,
                      host2, httpsOnly, settings2, permissions2, patterns).redirect.None?
  {
    var target := Upgrade(url);
    ReplaceAllAtFront(url, "http://", "https://");
    assert target[..7] == "https:/";
    assert !StartsWith(target, "http://");
  }

  /** A request is redirected exactly when `https_only` is on and the URL starts "http://". */
  lemma RedirectIff(url: string, host: string, httpsOnly: bool, settings: map<string, Json>,
                    permissions: Permissions, patterns: seq<string>)
    ensures Intercept(url, host, httpsOnly, settings, permissions, patterns).redirect.Some?
            <==> UpgradesTo(url, httpsOnly)
  {
  }

  /**
   * Without a redirect, `DNT: 1` is set exactly when `do_not_track` is
   * truthy or absent; the Cookie header is emptied whenever
   * `block_third_party_cookies` is truthy or absent.
   */
  lemma HeadersFromSettings(url: string, host: string, httpsOnly: bool, settings: map<string, Json>,
                            permissions: Permissions, patterns: seq<string>)
    requires !UpgradesTo(url, httpsOnly)
    ensures Intercept(url, host, httpsOnly, settings, permissions, patterns).setDnt
            == ("do_not_track" !in settings || Truthy(settings["do_not_track"]))
    ensures "block_third_party_cookies" !in settings || Truthy(settings["block_third_party_cookies"])
            ==> Intercept(url, host, httpsOnly, settings, permissions, patterns).clearCookie
  {
  }

  /**
   * A request is blocked exactly when it is not redirected and either the
   * tracker check is on and a pattern matches, or the host's permissions
   * have a falsy `allow_js`.
   */
  lemma BlockedIff(url: string, host: string, httpsOnly: bool, settings: map<string, Json>,
                   permissions: Permissions, patterns: seq<string>)
    ensures Intercept(url, host, httpsOnly, settings, permissions, patterns).blocked
            <==> !UpgradesTo(url, httpsOnly)
                 && ((TrackersBlocked(settings) && MatchesAny(url, patterns))
                     || HostDeniesScripts(host, permissions))
  {
  }

  /**
   * The Cookie header is emptied exactly when the request is not redirected
   * and either the global cookie setting asks for it, or no tracker block
   * cut the checks short and the host's permissions have a falsy `allow_cookies`.
   */
  lemma ClearCookieIff(url: string, host: string, httpsOnly: bool, settings: map<string, Json>,
                       permissions: Permissions, patterns: seq<string>)
    ensures Intercept(url, host, httpsOnly, settings, permissions, patterns).clearCookie
            <==> !UpgradesTo(url, httpsOnly)
                 && (CookiesBlocked(settings)
                     || (!(TrackersBlocked(settings) && MatchesAny(url, patterns))
                         && HostDeniesCookies(host, permissions)))
  {
  }

  /**
   * A tracker block happens before the per-host checks: the outcome is a
   * block and does not depend on the permission map at all.
   */
  lemma TrackerBlockSkipsHostChecks(url: string, host: string, httpsOnly: bool, settings: map<string, Json>,
                                    permissions: Permissions, patterns: seq<string>)
    requires !UpgradesTo(url, httpsOnly) && TrackersBlocked(settings) && MatchesAny(url, patterns)
    ensures Intercept(url, host, httpsOnly, settings, permissions, patterns).blocked
    ensures Intercept(url, host, httpsOnly, settings, permissions, patterns)
            == Intercept(url, host, httpsOnly, settings, map[], patterns)
  {
  }

  /**
   * The permission map matters only through the request host's own entry:
   * two maps that agree on that host give the same outcome, and a host
   * without an entry is treated as if the map were empty.
   */
  lemma OnlyOwnHostPermissionsMatter(url: string, host: string, httpsOnly: bool, settings: map<string, Json>,
                                     permissions: Permissions, other: Permissions, patterns: seq<string>)
    requires host in permissions <==> host in other
    requires host in permissions ==> permissions[host] == other[host]
    ensures Intercept(url, host, httpsOnly, settings, permissions, patterns)
            == Intercept(url, host, httpsOnly, settings, other, patterns)
    ensures host !in permissions ==> Intercept(url, host, httpsOnly, settings, permissions, patterns)
                                     == Intercept(url, host, httpsOnly, settings, map[], patterns)
  {
  }

  /** Each entry of TrackerPatterns holds a backslash (the regular-expression escape before a dot). */
  lemma TrackerPatternsHoldBackslash()
    ensures forall i :: 0 <= i < |TrackerPatterns| ==> '\\' in TrackerPatterns[i]
  {
    assert TrackerPatterns[0][16] == '\\';
    assert TrackerPatterns[1][11] == '\\';
    assert TrackerPatterns[2][9] == '\\';
    assert TrackerPatterns[3][8] == '\\';
    assert TrackerPatterns[4][7] == '\\';
  }

  /** As written, a URL without a backslash never matches the tracker table. */
  lemma {:induction false} NoBackslashNoTrackerMatch(url: string)
    requires '\\' !in url
    ensures !MatchesAny(url, TrackerPatterns)
  {
    TrackerPatternsHoldBackslash();
    MatchesAnyIff(url, TrackerPatterns);
    forall i | 0 <= i < |TrackerPatterns| ensures !Contains(url, TrackerPatterns[i]) {
      if Contains(url, TrackerPatterns[i]) {
        ContainsNeedsChar(url, TrackerPatterns[i], '\\');
      }
    }
  }

  /**
   * Hence, with the table as written, a URL without a backslash is blocked
   * only by its host's `allow_js` permission, whatever the settings say.
   */
  lemma NoBackslashBlockedOnlyByHost(url: string, host: string, httpsOnly: bool,
                                     settings: map<string, Json>, permissions: Permissions)
    requires '\\' !in url
    ensures Intercept(url, host, httpsOnly, settings, permissions, TrackerPatterns).blocked
            ==> HostDeniesScripts(host, permissions)
  {
    NoBackslashNoTrackerMatch(url);
  }

  /**
   * A URL whose only "http://" is its scheme is redirected to the same URL
   * with the scheme made "https://" and nothing else changed.
   */
  lemma SchemeOnlyUpgrade(rest: string)
    requires !Contains(rest, "http://")
    ensures Upgrade("http://" + rest) == "https://" + rest
  {
    var url := "http://" + rest;
    assert StartsWith(url, "http://") && url[7..] == rest;
    ReplaceAllAbsent(rest, "http://", "https://");
  }

  // ---------------------------------------------------------------------
  // Tracker table: the regular expressions read literally (see the
  // Findings section of README.md)
  // ---------------------------------------------------------------------

  /** The text a regular expression made of literal characters and `\`-escapes matches. */
  function RegexLiteral(p: string): (r: string)
    ensures '\\' in r ==> '\\' in p
  {
    if p == [] then []
    else if p[0] == '\\' && |p| > 1 then [p[1]] + RegexLiteral(p[2..])
    else [p[0]] + RegexLiteral(p[1..])
  }

  /** Text without a backslash passes through unchanged in front of the rest. */
  lemma {:induction false} LiteralPrefix(a: string, t: string)
    requires '\\' !in a
    ensures RegexLiteral(a + t) == a + RegexLiteral(t)
  {
    if a != [] {
      assert (a + t)[1..] == a[1..] + t;
      LiteralPrefix(a[1..], t);
    } else {
      assert a + t == t;
    }
  }

  /** An escaped dot after a backslash-free text reads as a plain dot. */
  lemma EscapedDot(a: string, b: string)
    requires '\\' !in a
    ensures RegexLiteral(a + "\\." + b) == a + "." + RegexLiteral(b)
  {
    assert a + "\\." + b == a + ("\\." + b);
    LiteralPrefix(a, "\\." + b);
    assert ("\\." + b)[2..] == b;
  }

  /** Backslash-free text is matched by itself. */
  lemma PlainText(b: string)
    requires '\\' !in b
    ensures RegexLiteral(b) == b
  {
    LiteralPrefix(b, "");
    assert b + "" == b;
  }

  /** One escaped dot between two backslash-free texts. */
  lemma OneDot(a: string, b: string)
    requires '\\' !in a && '\\' !in b
    ensures RegexLiteral(a + "\\." + b) == a + "." + b
  {
    EscapedDot(a, b);
    PlainText(b);
  }

  /** Two escaped dots, each after a backslash-free text. */
  lemma TwoDots(a: string, b: string)
    requires '\\' !in a && '\\' !in b
    ensures RegexLiteral(a + "\\." + b + "\\.") == a + "." + b + "."
  {
    assert a + "\\." + b + "\\." == a + "\\." + (b + "\\.");
    EscapedDot(a, b + "\\.");
    assert b + "\\." == b + "\\." + [];
    EscapedDot(b, []);
    PlainText(b);
    assert RegexLiteral([]) == [];
    assert b + "." + [] == b + ".";
  }

  /** The tracker table as the regular expressions mean it: the addresses with plain dots. */
  const TrackerHosts: seq<string> := [
    "google-analytics.com",
    "doubleclick.net",
    "adservice.google.",
    "facebook.com/tr",
    "twitter.com/i/"
  ]

  lemma CatHost0() ensures "google-analytics" + "." + "com" == TrackerHosts[0] {}
  lemma CatHost1() ensures "doubleclick" + "." + "net" == TrackerHosts[1] {}
  lemma CatHost2() ensures "adservice" + "." + "google" + "." == TrackerHosts[2] {}
  lemma CatHost3() ensures "facebook" + "." + "com/tr" == TrackerHosts[3] {}
  lemma CatHost4() ensures "twitter" + "." + "com/i/" == TrackerHosts[4] {}

  lemma UnescapeHost0() ensures RegexLiteral(TrackerPatterns[0]) == TrackerHosts[0] {
    assert TrackerPatterns[0] == "google-analytics" + "\\." + "com";
    OneDot("google-analytics", "com");
    CatHost0();
  }
  lemma UnescapeHost1() ensures RegexLiteral(TrackerPatterns[1]) == TrackerHosts[1] {
    assert TrackerPatterns[1] == "doubleclick" + "\\." + "net";
    OneDot("doubleclick", "net");
    CatHost1();
  }
  lemma UnescapeHost2() ensures RegexLiteral(TrackerPatterns[2]) == TrackerHosts[2] {
    assert TrackerPatterns[2] == "adservice" + "\\." + "google" + "\\.";
    TwoDots("adservice", "google");
    CatHost2();
  }
  lemma UnescapeHost3() ensures RegexLiteral(TrackerPatterns[3]) == TrackerHosts[3] {
    assert TrackerPatterns[3] == "facebook" + "\\." + "com/tr";
    OneDot("facebook", "com/tr");
    CatHost3();
  }
  lemma UnescapeHost4() ensures RegexLiteral(TrackerPatterns[4]) == TrackerHosts[4] {
    assert TrackerPatterns[4] == "twitter" + "\\." + "com/i/";
    OneDot("twitter", "com/i/");
    CatHost4();
  }

  /** Each entry of TrackerHosts is what the corresponding tracker expression matches. */
  lemma TrackerHostsAreUnescaped()
    ensures |TrackerHosts| == |TrackerPatterns|
    ensures TrackerHosts[0] == RegexLiteral(TrackerPatterns[0])
    ensures TrackerHosts[1] == RegexLiteral(TrackerPatterns[1])
    ensures TrackerHosts[2] == RegexLiteral(TrackerPatterns[2])
    ensures TrackerHosts[3] == RegexLiteral(TrackerPatterns[3])
    ensures TrackerHosts[4] == RegexLiteral(TrackerPatterns[4])
  {
    UnescapeHost0();
    UnescapeHost1();
    UnescapeHost2();
    UnescapeHost3();
    UnescapeHost4();
  }

  /**
   * As written: a plain request to the Google Analytics collector is not
   * blocked even with the tracker check on, because the table holds
   * `google-analytics\.com` with its backslash and is tested as a literal
   * substring.
   */
  lemma TrackerMissedAsWritten()
    ensures !Intercept("https://www.google-analytics.com/collect", "www.google-analytics.com", false,
                       map["block_trackers" := JBool(true)], map[], TrackerPatterns).blocked
  {
    NoBackslashBlockedOnlyByHost("https://www.google-analytics.com/collect", "www.google-analytics.com",
                                 false, map["block_trackers" := JBool(true)], map[]);
  }

  /**
   * Corrected: with the intended table, every request not redirected whose
   * URL contains one of the tracker addresses is blocked when the tracker
   * check is on, whatever the host permissions.
   */
  lemma TrackerBlockedAsIntended(url: string, host: string, httpsOnly: bool,
                                 settings: map<string, Json>, permissions: Permissions, i: int)
    requires 0 <= i < |TrackerHosts| && Contains(url, TrackerHosts[i])
    requires !UpgradesTo(url, httpsOnly) && TrackersBlocked(settings)
    ensures Intercept(url, host, httpsOnly, settings, permissions, TrackerHosts).blocked
  {
    MatchesAnyIff(url, TrackerHosts);
  }

  lemma CatCollector()
    ensures "https://www." + TrackerHosts[0] + "/collect" == "https://www.google-analytics.com/collect"
  {
  }

  /** With the intended table, the Google Analytics request missed as written is blocked. */
  lemma CollectorBlockedAsIntended()
    ensures Intercept("https://www.google-analytics.com/collect", "www.google-analytics.com", false,
                      map["block_trackers" := JBool(true)], map[], TrackerHosts).blocked
  {
    CatCollector();
    OccursInMiddle("https://www.", TrackerHosts[0], "/collect");
    TrackerBlockedAsIntended("https://www.google-analytics.com/collect", "www.google-analytics.com", false,
                             map["block_trackers" := JBool(true)], map[], 0);
  }

  // ---------------------------------------------------------------------
  // Navigation requests
  // ---------------------------------------------------------------------

  /** A page's answer to a navigation request, and the URL it loads instead (if any). */
  datatype Navigation = Navigation(accepted: bool, reload: Option<string>)

  /**
   * `PrivacyPage.acceptNavigationRequest`. `engineHttpsOnly` is the
   * attached engine's `https_only` (None when no engine is attached);
   * `baseAccepts` is the answer of the base class, which is not modelled.
   */
  function AcceptNavigation(engineHttpsOnly: Option<bool>, url: string, baseAccepts: bool): (n: Navigation)
    ensures n.reload.Some? ==> !n.accepted
    ensures engineHttpsOnly != Some(true) ==> n == Navigation(baseAccepts, None)
  {
    if engineHttpsOnly == Some(true) && StartsWith(url, "http://") then
      Navigation(false, Some(Upgrade(url)))
    else
      Navigation(baseAccepts, None)
  }

  /**
   * The page and the request interceptor upgrade the same URLs to the same
   * target: the page refuses a navigation exactly when the interceptor
   * would redirect it, and reloads the interceptor's target; a page with
   * no engine defers to the base class.
   */
  lemma NavigationAgreesWithIntercept(httpsOnly: bool, url: string, baseAccepts: bool, host: string,
                                      settings: map<string, Json>, permissions: Permissions, patterns: seq<string>)
    ensures AcceptNavigation(Some(httpsOnly), url, baseAccepts).reload
            == Intercept(url, host, httpsOnly, settings, permissions, patterns).redirect
    ensures AcceptNavigation(Some(httpsOnly), url, baseAccepts).accepted
            == (Intercept(url, host, httpsOnly, settings, permissions, patterns).redirect.None? && baseAccepts)
    ensures AcceptNavigation(None, url, baseAccepts) == Navigation(baseAccepts, None)
  {
  }

  // ---------------------------------------------------------------------
  // Proxies
  // ---------------------------------------------------------------------

  /** A proxy address as `QNetworkProxy` holds it: a host name and a 16-bit port. */
  datatype Proxy = Proxy(host: string, port: int)

  /** A proxy setting of the network layer. */
  datatype NetProxy = DefaultProxy | NoProxy | HttpProxy(proxy: Proxy)

  /** The number of ports: `QNetworkProxy.setPort` takes a quint16. */
  const PortRange: int := 65536

  /**
   * The port `setPort(int(port))` leaves: PyQt5 converts a Python int to
   * a quint16 without overflow checking, keeping the low 16 bits, so a
   * negative or too-large number wraps round.
   */
  function ToPort(n: int): (port: int)
    ensures 0 <= port < PortRange
    ensures (port - n) % PortRange == 0
  {
    n % PortRange
  }

  /**
   * The format check of `test_proxy` (and of `set_random_proxy`):
   * `host, port = s.split(":")` followed by `int(port)`. Any other number
   * of parts, or a port `int()` rejects, is a ValueError, modelled as None.
   * The number `int()` gives is then narrowed to a port by `setPort`.
   */
  function ParseProxy(s: string): (r: Option<Proxy>)
    ensures r.Some? ==> 0 <= r.value.port < PortRange
  {
    var parts := Split(s, ':');
    if |parts| != 2 then None
    else
      match ParseInt(parts[1])
      case None => None
      case Some(n) => Some(Proxy(parts[0], ToPort(n)))
  }

  /**
   * A candidate that parses holds exactly one ':', the host is everything
   * before it, and the port is `int()` of everything after it, narrowed
   * to 16 bits.
   */
  lemma ParseProxyShape(s: string)
    requires ParseProxy(s).Some?
    ensures multiset(s)[':'] == 1
    ensures |ParseProxy(s).value.host| < |s|
    ensures s == ParseProxy(s).value.host + ":" + s[|ParseProxy(s).value.host| + 1..]
    ensures ':' !in ParseProxy(s).value.host
    ensures ParseInt(s[|ParseProxy(s).value.host| + 1..]).Some?
    ensures ParseProxy(s).value.port == ToPort(ParseInt(s[|ParseProxy(s).value.host| + 1..]).value)
    ensures 0 <= ParseProxy(s).value.port < PortRange
  {
    var parts := Split(s, ':');
    SplitCount(s, ':');
    JoinSplit(s, ':');
    assert s == parts[0] + ":" + parts[1];
    assert s[|parts[0]| + 1..] == parts[1];
  }

  /**
   * Conversely, any host and port text without ':' whose port `int()`
   * accepts (" 80", "+80", "8_0", ...) pass the format check, with the
   * port `int()` gives narrowed to 16 bits.
   */
  lemma ParseProxyOfParts(host: string, rest: string)
    requires ':' !in host && ':' !in rest && ParseInt(rest).Some?
    ensures ParseProxy(host + ":" + rest) == Some(Proxy(host, ToPort(ParseInt(rest).value)))
  {
    SplitPair(host, rest, ':');
  }

  /** Every built-in candidate passes the format check, so each one reaches the probe. */
  lemma ProxyListParses()
    ensures forall i :: 0 <= i < |ProxyList| ==> ParseProxy(ProxyList[i]).Some?
  {
    forall i | 0 <= i < |ProxyList| ensures ParseProxy(ProxyList[i]).Some? {
      if i == 0 {
        ListedProxyParses("88.135.41.109", "4145");
      } else if i == 1 {
        ListedProxyParses("103.251.223.105", "6084");
      } else if i == 2 {
        ListedProxyParses("182.160.110.154", "9898");
      } else if i == 3 {
        ListedProxyParses("198.44.171.161", "7088");
      } else {
        ListedProxyParses("104.207.53.203", "3128");
      }
    }
  }

  /** One built-in entry: a dotted address, ':' and four digits. */
  lemma ListedProxyParses(host: string, port: string)
    requires ':' !in host && |port| == 4 && forall i :: 0 <= i < 4 ==> IsDigit(port[i])
    ensures ParseProxy(host + ":" + port).Some?
  {
    assert ':' !in port;
    IntStripUntrimmed(port);
    assert forall i :: 0 <= i < 4 ==> RunCharAt(port, i);
    ParseProxyOfParts(host, port);
  }

  /** `host:port` written out. */
  function FormatProxy(p: Proxy): string
    requires p.port >= 0
  {
    p.host + ":" + NatToString(p.port)
  }

  /**
   * "host:n" parses to the host and `n` wrapped to 16 bits; in particular
   * a proxy with a 16-bit port, written as `host:port`, parses back to
   * itself.
   */
  lemma ParseFormatProxy(p: Proxy)
    requires ':' !in p.host && p.port >= 0
    ensures ParseProxy(FormatProxy(p)) == Some(Proxy(p.host, ToPort(p.port)))
    ensures p.port < PortRange ==> ParseProxy(FormatProxy(p)) == Some(p)
  {
    var digits := NatToString(p.port);
    assert ':' !in digits by {
      forall i | 0 <= i < |digits| ensures digits[i] != ':' {
        assert IsDigit(digits[i]);
      }
    }
    SplitPair(p.host, digits, ':');
    ParseIntOfNat(p.port);
  }

  /** `test_proxy` succeeds: the candidate parses and the probe through it answers. */
  predicate Passes(candidate: string, reachable: Proxy -> bool) {
    ParseProxy(candidate).Some? && reachable(ParseProxy(candidate).value)
  }

  /** The candidates that pass, in list order. */
  function Working(candidates: seq<string>, reachable: Proxy -> bool): (w: seq<string>)
    ensures |w| <= |candidates|
    ensures forall p :: p in w ==> p in candidates && Passes(p, reachable)
  {
    if candidates == [] then []
    else
      var last := candidates[|candidates| - 1];
      Working(candidates[..|candidates| - 1], reachable) + (if Passes(last, reachable) then [last] else [])
  }

  /** Every candidate that passes is kept. */
  lemma {:induction false} WorkingComplete(candidates: seq<string>, reachable: Proxy -> bool, p: string)
    requires p in candidates && Passes(p, reachable)
    ensures p in Working(candidates, reachable)
  {
    var init := candidates[..|candidates| - 1];
    if p != candidates[|candidates| - 1] {
      assert candidates == init + [candidates[|candidates| - 1]];
      WorkingComplete(init, reachable, p);
    }
  }

  /** A candidate that fails its test is never kept. */
  lemma WorkingSound(candidates: seq<string>, reachable: Proxy -> bool, p: string)
    requires !Passes(p, reachable)
    ensures p !in Working(candidates, reachable)
  {
  }

  /** Testing one more candidate extends the working list by it exactly when it passes. */
  lemma WorkingStep(candidates: seq<string>, i: nat, reachable: Proxy -> bool)
    requires i < |candidates|
    ensures Working(candidates[..i + 1], reachable)
            == Working(candidates[..i], reachable) + (if Passes(candidates[i], reachable) then [candidates[i]] else [])
  {
    assert candidates[..i + 1][..i] == candidates[..i];
  }

  /** Python truthiness of `specific_proxy`: None and "" ask for no particular proxy. */
  predicate Requested(specific: Option<string>) {
    specific.Some? && specific.value != ""
  }

  /** A browser profile: its user agent and the URLs in its HTTP cache. */
  class Profile {
    var userAgent: string
    var httpCache: set<string>

    constructor (userAgent: string, httpCache: set<string>)
      ensures this.userAgent == userAgent && this.httpCache == httpCache
    {
      this.userAgent := userAgent;
      this.httpCache := httpCache;
    }
  }

  /**
   * The engine's state. `probeProxy` is the proxy of the engine's own
   * network manager, used only to probe candidates; `applicationProxy` is
   * the process-wide application proxy, which the engine alone sets.
   */
  class PrivacyEngine {
    var httpsOnly: bool
    var permissions: Permissions
    var proxySettings: Option<Proxy>
    var proxyList: seq<string>
    var workingProxies: seq<string>
    var probeProxy: NetProxy
    var applicationProxy: NetProxy
    /** The working-list entry the proxy settings were parsed from. */
    ghost var chosenEntry: string

    /**
     * Every working proxy parses (it passed `test_proxy`), and a chosen
     * proxy is one of them and is the application proxy.
     */
    ghost predicate Valid()
      reads this
    {
      && (forall p :: p in workingProxies ==> ParseProxy(p).Some?)
      && (proxySettings.Some? ==>
            && applicationProxy == HttpProxy(proxySettings.value)
            && chosenEntry in workingProxies && ParseProxy(chosenEntry) == proxySettings)
    }

    /**
     * `PrivacyEngine.__init__`, with the settings `load_privacy_settings`
     * produced, the candidate list (ProxyList in the source), and the
     * application proxy the process had before passed in.
     */
    constructor (candidates: seq<string>, httpsOnly: bool, permissions: Permissions,
                 applicationProxy: NetProxy, reachable: Proxy -> bool)
      ensures Valid()
      ensures this.httpsOnly == httpsOnly && this.permissions == permissions && proxyList == candidates
      ensures workingProxies == Working(candidates, reachable)
      ensures workingProxies == [] ==> proxySettings == None && this.applicationProxy == applicationProxy
      ensures workingProxies != [] ==> proxySettings.Some?
    {
      this.httpsOnly := httpsOnly;
      this.permissions := permissions;
      proxySettings := None;
      proxyList := candidates;
      workingProxies := [];
      probeProxy := DefaultProxy;
      this.applicationProxy := applicationProxy;
      new;
      InitializeProxies(reachable);
    }

    /**
     * `test_proxy`: the answer is whether the candidate parses and the
     * probe through it succeeds; on every path the probing manager is left
     * with no proxy.
     */
    method TestProxy(candidate: string, reachable: Proxy -> bool) returns (ok: bool)
      modifies this`probeProxy
      ensures ok == Passes(candidate, reachable)
      ensures probeProxy == NoProxy
    {
      match ParseProxy(candidate) {
        case None =>
          ok := false;
        case Some(p) =>
          probeProxy := HttpProxy(p);
          ok := reachable(p);
      }
      probeProxy := NoProxy;
    }

    /**
     * `initialize_proxies`: tests the list in order and appends each
     * passing candidate; then picks a random working proxy, or, when there
     * is none, leaves the proxy settings as they were.
     */
    method InitializeProxies(reachable: Proxy -> bool)
      requires Valid()
      modifies this`workingProxies, this`probeProxy, this`proxySettings, this`applicationProxy, this`chosenEntry
      ensures Valid()
      ensures workingProxies == old(workingProxies) + Working(proxyList, reachable)
      ensures workingProxies == [] ==>
                proxySettings == old(proxySettings) && applicationProxy == old(applicationProxy)
      ensures workingProxies != [] ==> proxySettings.Some?
    {
      var i := 0;
      while i < |proxyList|
        invariant 0 <= i <= |proxyList|
        invariant Valid()
        invariant workingProxies == old(workingProxies) + Working(proxyList[..i], reachable)
        modifies this`workingProxies, this`probeProxy
      {
        ghost var before := workingProxies;
        ProbeCandidate(proxyList[i], reachable);
        WorkingStep(proxyList, i, reachable);
        assert workingProxies == before + (if Passes(proxyList[i], reachable) then [proxyList[i]] else []);
        i := i + 1;
      }
      assert proxyList[..i] == proxyList;
      if workingProxies != [] {
        var _ := SetRandomProxy(None, reachable);
      }
    }

    /** One round of the loop in `initialize_proxies`: the candidate is tested and appended when it passes. */
    method ProbeCandidate(candidate: string, reachable: Proxy -> bool)
      requires Valid()
      modifies this`workingProxies, this`probeProxy
      ensures Valid()
      ensures workingProxies == old(workingProxies) + (if Passes(candidate, reachable) then [candidate] else [])
    {
      var ok := TestProxy(candidate, reachable);
      if ok {
        AddWorking(candidate);
      }
    }

    /** A candidate that passed its test joins the working list. */
    method AddWorking(candidate: string)
      requires Valid() && ParseProxy(candidate).Some?
      modifies this`workingProxies
      ensures Valid()
      ensures workingProxies == old(workingProxies) + [candidate]
    {
      workingProxies := workingProxies + [candidate];
    }

    /**
     * `set_random_proxy`: a requested proxy that is already working is
     * used as it is; an untested one that passes is appended once and
     * used; otherwise a working proxy is picked at random. With none, the
     * settings and the application proxy are cleared to "no proxy".
     */
    method SetRandomProxy(specific: Option<string>, reachable: Proxy -> bool) returns (chosen: Option<string>)
      requires Valid()
      modifies this`workingProxies, this`probeProxy, this`proxySettings, this`applicationProxy, this`chosenEntry
      ensures Valid()
      ensures Requested(specific) && specific.value in old(workingProxies) ==>
                chosen == specific && workingProxies == old(workingProxies)
      ensures Requested(specific) && specific.value !in old(workingProxies) && Passes(specific.value, reachable) ==>
                chosen == specific && workingProxies == old(workingProxies) + [specific.value]
      ensures !Requested(specific) || (specific.value !in old(workingProxies) && !Passes(specific.value, reachable)) ==>
                && workingProxies == old(workingProxies)
                && (chosen.Some? <==> workingProxies != [])
                && (chosen.Some? ==> chosen.value in workingProxies)
      ensures chosen.Some? ==> proxySettings == ParseProxy(chosen.value) && proxySettings.Some?
                               && applicationProxy == HttpProxy(proxySettings.value)
      ensures chosen.None? ==> proxySettings == None && applicationProxy == NoProxy
      ensures probeProxy == if Requested(specific) && specific.value !in old(workingProxies)
                            then NoProxy else old(probeProxy)
    {
      var usable := false;
      if Requested(specific) {
        usable := TrySpecific(specific.value, reachable);
      }
      if usable {
        Adopt(specific.value);
        chosen := specific;
      } else {
        chosen := PickAtRandom();
      }
    }

    /**
     * The requested branch of `set_random_proxy`: a proxy already working
     * is usable untested; any other is tested, and appended when it passes.
     */
    method TrySpecific(candidate: string, reachable: Proxy -> bool) returns (usable: bool)
      requires Valid()
      modifies this`workingProxies, this`probeProxy
      ensures Valid()
      ensures usable ==> candidate in workingProxies
      ensures candidate in old(workingProxies) ==>
                usable && workingProxies == old(workingProxies) && probeProxy == old(probeProxy)
      ensures candidate !in old(workingProxies) ==>
                && usable == Passes(candidate, reachable)
                && workingProxies == old(workingProxies) + (if usable then [candidate] else [])
                && probeProxy == NoProxy
    {
      if candidate in workingProxies {
        usable := true;
      } else {
        usable := TestProxy(candidate, reachable);
        if usable {
          AddWorking(candidate);
        }
      }
    }

    /**
     * The fallback of `set_random_proxy`: a working proxy picked at random
     * is adopted; with none, the settings and the application proxy are
     * cleared (the source's "No working proxies available" exception).
     */
    method PickAtRandom() returns (chosen: Option<string>)
      requires Valid()
      modifies this`proxySettings, this`applicationProxy, this`chosenEntry
      ensures Valid()
      ensures chosen.Some? <==> workingProxies != []
      ensures chosen.Some? ==> chosen.value in workingProxies && proxySettings == ParseProxy(chosen.value)
                               && proxySettings.Some? && applicationProxy == HttpProxy(proxySettings.value)
      ensures chosen.None? ==> proxySettings == None && applicationProxy == NoProxy
    {
      if workingProxies == [] {
        proxySettings := None;
        applicationProxy := NoProxy;
        chosen := None;
      } else {
        var i :| 0 <= i < |workingProxies|;
        Adopt(workingProxies[i]);
        chosen := Some(workingProxies[i]);
      }
    }

    /** The tail of `set_random_proxy`: a working proxy becomes the settings and the application proxy. */
    method Adopt(proxy: string)
      requires proxy in workingProxies
      requires forall p :: p in workingProxies ==> ParseProxy(p).Some?
      modifies this`proxySettings, this`applicationProxy, this`chosenEntry
      ensures Valid()
      ensures proxySettings == ParseProxy(proxy) && proxySettings.Some?
      ensures applicationProxy == HttpProxy(proxySettings.value)
    {
      var parsed := ParseProxy(proxy);
      chosenEntry := proxy;
      proxySettings := parsed;
      applicationProxy := HttpProxy(parsed.value);
    }

    /**
     * `apply_proxy`: with a chosen proxy, it becomes the application proxy
     * and the profile's HTTP cache is cleared; without one the application
     * proxy becomes "no proxy" and the cache is left alone.
     */
    method ApplyProxy(profile: Profile)
      requires Valid()
      modifies this`applicationProxy, profile`httpCache
      ensures Valid()
      ensures proxySettings.Some? ==> applicationProxy == HttpProxy(proxySettings.value) && profile.httpCache == {}
      ensures proxySettings.None? ==> applicationProxy == NoProxy && profile.httpCache == old(profile.httpCache)
    {
      if proxySettings.Some? {
        applicationProxy := HttpProxy(proxySettings.value);
        profile.httpCache := {};
      } else {
        applicationProxy := NoProxy;
      }
    }

    /** `spoof_user_agent`: one of the three fixed user agents, picked at random. */
    method SpoofUserAgent() returns (ua: string)
      ensures ua in UserAgents
    {
      assert UserAgents[0] in UserAgents;
      ua :| ua in UserAgents;
    }

    /**
     * `PrivacyPage.setPrivacyEngine` with an engine: the page's profile gets
     * a spoofed user agent and the engine's proxy is applied to it (the
     * anti-fingerprinting script is not modelled).
     */
    method AttachToProfile(profile: Profile)
      requires Valid()
      modifies this`applicationProxy, profile
      ensures Valid()
      ensures profile.userAgent in UserAgents
      ensures proxySettings.Some? ==> applicationProxy == HttpProxy(proxySettings.value) && profile.httpCache == {}
      ensures proxySettings.None? ==> applicationProxy == NoProxy && profile.httpCache == old(profile.httpCache)
    {
      var ua := SpoofUserAgent();
      profile.userAgent := ua;
      ApplyProxy(profile);
    }
  }

  /**
   * Asking twice for the same proxy, once it was chosen, gives the same
   * proxy again and leaves the working list as the first call left it
   * (`between`).
   */
  method ReselectIsStable(engine: PrivacyEngine, proxy: string, reachable: Proxy -> bool)
    returns (first: Option<string>, second: Option<string>, between: seq<string>)
    requires engine.Valid() && proxy != ""
    modifies engine
    ensures first == Some(proxy) ==> second == first && engine.workingProxies == between
  {
    first := engine.SetRandomProxy(Some(proxy), reachable);
    second := None;
    between := engine.workingProxies;
    if first == Some(proxy) {
      assert proxy in engine.workingProxies;
      second := engine.SetRandomProxy(Some(proxy), reachable);
    }
  }
}
