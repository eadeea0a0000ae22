/** The plugin's settings and how `init_plugin` derives them from the
    host's configuration dictionary. */
module Config {
  import opened Wrappers

  /** The plugin's private attributes after initialisation. */
  datatype Settings = Settings(
    enabled: bool,
    apiUrl: string,
    apiToken: string,
    onlySuccess: bool,
    retryTimes: int,
    timeout: int,
    notifyImmediately: bool,
    testMode: bool)

  /** The class-level defaults, which `config.get` also falls back to. */
  const Defaults: Settings := Settings(false, "", "", true, 3, 10, false, false)

  /** A non-empty configuration dictionary: each field is the value stored
      under its key, or `None` when the key is absent. */
  datatype RawConfig = RawConfig(
    enabled: Option<bool>,
    apiUrl: Option<string>,
    apiToken: Option<string>,
    onlySuccess: Option<bool>,
    retryTimes: Option<int>,
    timeout: Option<int>,
    notifyImmediately: Option<bool>,
    testMode: Option<bool>)

  /** Python's `s.rstrip("/")`: every trailing slash removed, nothing else. */
  function StripTrailingSlashes(s: string): (r: string)
    ensures |r| <= |s| && r == s[..|r|]
    ensures forall i :: |r| <= i < |s| ==> s[i] == '/'
    ensures r == [] || r[|r| - 1] != '/'
  {
    if |s| > 0 && s[|s| - 1] == '/' then StripTrailingSlashes(s[..|s| - 1]) else s
  }

  /** The three properties above pin the stripped string down: any prefix
      of `s` that leaves only slashes behind and does not itself end in a
      slash is the stripped string. */
  lemma StripTrailingSlashesUnique(s: string, r: string)
    requires |r| <= |s| && r == s[..|r|]
    requires forall i :: |r| <= i < |s| ==> s[i] == '/'
    requires r == [] || r[|r| - 1] != '/'
    ensures r == StripTrailingSlashes(s)
  {
  }

  /** Stripping twice strips nothing more. */
  lemma StripTrailingSlashesIdempotent(s: string)
    ensures StripTrailingSlashes(StripTrailingSlashes(s)) == StripTrailingSlashes(s)
  {
    var t := StripTrailingSlashes(s);
    StripTrailingSlashesUnique(t, t);
  }

  /** `init_plugin`: a missing or empty dictionary (`None`) leaves the
      settings as they are; a non-empty one sets every attribute, taking the
      default for each absent key. */
  function Init(current: Settings, config: Option<RawConfig>): (s: Settings)
    ensures config.None? ==> s == current
    ensures config.Some? ==> s.apiUrl == StripTrailingSlashes(config.value.apiUrl.GetOr(""))
    ensures config.Some? ==> s.apiUrl == [] || s.apiUrl[|s.apiUrl| - 1] != '/'
    ensures config.Some? ==> s.enabled == config.value.enabled.GetOr(false)
    ensures config.Some? ==> s.apiToken == config.value.apiToken.GetOr("")
    ensures config.Some? ==> s.onlySuccess == config.value.onlySuccess.GetOr(true)
    ensures config.Some? ==> s.retryTimes == config.value.retryTimes.GetOr(3)
    ensures config.Some? ==> s.timeout == config.value.timeout.GetOr(10)
    ensures config.Some? ==> s.notifyImmediately == config.value.notifyImmediately.GetOr(false)
    ensures config.Some? ==> s.testMode == config.value.testMode.GetOr(false)
  {
    match config
    case None => current
    case Some(c) =>
      Settings(
        c.enabled.GetOr(Defaults.enabled),
        StripTrailingSlashes(c.apiUrl.GetOr(Defaults.apiUrl)),
        c.apiToken.GetOr(Defaults.apiToken),
        c.onlySuccess.GetOr(Defaults.onlySuccess),
        c.retryTimes.GetOr(Defaults.retryTimes),
        c.timeout.GetOr(Defaults.timeout),
        c.notifyImmediately.GetOr(Defaults.notifyImmediately),
        c.testMode.GetOr(Defaults.testMode))
  }

  /** A non-empty dictionary never inherits from the settings it replaces:
      the result depends on the dictionary alone. */
  lemma InitIgnoresCurrent(a: Settings, b: Settings, c: RawConfig)
    ensures Init(a, Some(c)) == Init(b, Some(c))
  {
  }

  /** A dictionary holding none of the plugin's keys yields the defaults. */
  lemma InitWithoutKeysIsDefaults(current: Settings)
    ensures Init(current, Some(RawConfig(None, None, None, None, None, None, None, None))) == Defaults
  {
  }

  /** Initialising again with the stored (already stripped) URL keeps it. */
  lemma InitUrlStable(current: Settings, c: RawConfig)
    ensures Init(current, Some(c.(apiUrl := Some(Init(current, Some(c)).apiUrl)))).apiUrl
         == Init(current, Some(c)).apiUrl
  {
    StripTrailingSlashesIdempotent(c.apiUrl.GetOr(""));
  }
}
