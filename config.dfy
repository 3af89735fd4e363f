/** Configuration records, their defaults, command-line overrides and `~`
    expansion of paths. Reading and writing the configuration file is outside
    the model; the home directory is a parameter. */
module Config {
  import opened Common

  type u16 = x: int | 0 <= x < 0x1_0000
  type u64 = x: int | 0 <= x < 0x1_0000_0000_0000_0000

  datatype ProxyConfig = ProxyConfig(port: u16, bindAddress: string)

  datatype DashboardConfig = DashboardConfig(
    tokenLimit: u64,
    maxLogEntries: nat,
    refreshRateHz: nat,
    promptPreviewLength: nat)

  /** One upstream vendor: where to forward to and how to recognise its paths. */
  datatype ProviderConfig = ProviderConfig(
    host: string,
    baseUrl: string,
    envVars: seq<string>,
    pathPattern: string)

  datatype ArchiveConfig = ArchiveConfig(enabled: bool, directory: string, format: seq<string>)

  datatype Config = Config(
    proxy: ProxyConfig,
    dashboard: DashboardConfig,
    providers: map<string, ProviderConfig>,
    archive: ArchiveConfig)

  /** The provider table of `Config::default`, built by successive inserts. */
  function DefaultProviders(): map<string, ProviderConfig>
  {
    map[]
      ["anthropic" := ProviderConfig("api.anthropic.com", "https://api.anthropic.com",
                                     ["ANTHROPIC_BASE_URL"], "/v1/messages")]
      ["openai" := ProviderConfig("api.openai.com", "https://api.openai.com",
                                  ["OPENAI_BASE_URL"], "/v1/chat/completions")]
      ["gemini" := ProviderConfig("generativelanguage.googleapis.com",
                                  "https://generativelanguage.googleapis.com",
                                  ["GOOGLE_GEMINI_BASE_URL", "GEMINI_API_BASE_URL", "GEMINI_BASEURL"],
                                  "generateContent")]
  }

  /** `Config::default`. */
  function DefaultConfig(): Config
  {
    Config(
      ProxyConfig(8080, "127.0.0.1"),
      DashboardConfig(200_000, 100, 4, 200),
      DefaultProviders(),
      ArchiveConfig(true, "~/.sherlock/prompts", ["markdown", "json"]))
  }

  /** The constants the default configuration promises, and the routing
      patterns of its three vendors. */
  lemma DefaultConfigConstants()
    ensures DefaultConfig().proxy.port == 8080
    ensures DefaultConfig().dashboard.tokenLimit == 200_000
    ensures DefaultConfig().dashboard.maxLogEntries == 100
    ensures DefaultConfig().providers.Keys == {"anthropic", "openai", "gemini"}
    ensures DefaultConfig().providers["anthropic"].pathPattern == "/v1/messages"
    ensures DefaultConfig().providers["openai"].pathPattern == "/v1/chat/completions"
    ensures DefaultConfig().providers["gemini"].pathPattern == "generateContent"
  {
  }

  /** `Config::with_overrides`: a given port or token limit replaces the
      configured one; nothing else changes. */
  function WithOverrides(c: Config, port: Option<u16>, limit: Option<u64>): (r: Config)
    ensures r.proxy.port == (if port.Some? then port.value else c.proxy.port)
    ensures r.dashboard.tokenLimit == (if limit.Some? then limit.value else c.dashboard.tokenLimit)
    ensures r.proxy.bindAddress == c.proxy.bindAddress
    ensures r.dashboard.maxLogEntries == c.dashboard.maxLogEntries
    ensures r.dashboard.refreshRateHz == c.dashboard.refreshRateHz
    ensures r.dashboard.promptPreviewLength == c.dashboard.promptPreviewLength
    ensures r.providers == c.providers && r.archive == c.archive
  {
    var withPort := if port.Some? then c.(proxy := c.proxy.(port := port.value)) else c;
    if limit.Some? then withPort.(dashboard := withPort.dashboard.(tokenLimit := limit.value))
    else withPort
  }

  /** Without overrides the configuration is returned as it was; applying the
      same overrides twice is applying them once. */
  lemma WithOverridesNeutral(c: Config, port: Option<u16>, limit: Option<u64>)
    ensures WithOverrides(c, None, None) == c
    ensures WithOverrides(WithOverrides(c, port, limit), port, limit) == WithOverrides(c, port, limit)
  {
  }

  /** The source's unit test. */
  lemma WithOverridesExample()
    ensures WithOverrides(DefaultConfig(), Some(9090), Some(100_000)).proxy.port == 9090
    ensures WithOverrides(DefaultConfig(), Some(9090), Some(100_000)).dashboard.tokenLimit == 100_000
  {
  }

  /** `PathBuf::join` on Unix: an absolute `rest` replaces `base`; otherwise
      `rest` follows `base` with exactly one separator between them (added
      unless `base` already ends with one), or none when `base` is empty. */
  function JoinPath(base: string, rest: string): (r: string)
    ensures StartsWith(rest, "/") ==> r == rest
    ensures !StartsWith(rest, "/") ==> StartsWith(r, base)
    ensures !StartsWith(rest, "/") ==> r == base + rest || r == base + "/" + rest
    ensures !StartsWith(rest, "/") && base != "" ==> (r == base + "/" + rest <==> base[|base| - 1] != '/')
    ensures !StartsWith(rest, "/") && base == "" ==> r == rest
  {
    if |rest| > 0 && rest[0] == '/' then rest
    else if base == "" || base[|base| - 1] == '/' then base + rest
    else base + "/" + rest
  }

  /** `expand_tilde`, with the result of `dirs::home_dir` as `home`. */
  function ExpandTilde(path: string, home: Option<string>): (r: string)
  {
    if StartsWith(path, "~/") then
      (if home.Some? then JoinPath(home.value, path[2..]) else path)
    else if path == "~" then
      (if home.Some? then home.value else path)
    else path
  }

  /** The three cases of `expand_tilde`, and that a path under `~` lands
      under the home directory. */
  lemma ExpandTildeCases(path: string, home: string)
    ensures path == "~" ==> ExpandTilde(path, Some(home)) == home
    ensures StartsWith(path, "~/") ==> ExpandTilde(path, Some(home)) == JoinPath(home, path[2..])
    ensures StartsWith(path, "~/") && !StartsWith(path, "~//") ==>
              StartsWith(ExpandTilde(path, Some(home)), home)
    ensures !StartsWith(path, "~/") && path != "~" ==> ExpandTilde(path, Some(home)) == path
    ensures ExpandTilde(path, None) == path
  {
    if StartsWith(path, "~/") && !StartsWith(path, "~//") {
      assert !StartsWith(path[2..], "/") by {
        if |path| >= 3 { assert path[..3] == "~/" + [path[2]]; }
      }
    }
  }

  /** Expanding an expanded path changes nothing when the home directory is
      non-empty and does not itself start with `~`. */
  lemma ExpandTildeIdempotent(path: string, home: string)
    requires home != "" && home[0] != '~'
    ensures ExpandTilde(ExpandTilde(path, Some(home)), Some(home)) == ExpandTilde(path, Some(home))
  {
    var once := ExpandTilde(path, Some(home));
    if StartsWith(path, "~/") {
      var rest := path[2..];
      if StartsWith(rest, "/") {
        assert once == rest && once[0] == '/';
      } else {
        assert StartsWith(once, home);
        assert once[0] == home[0];
      }
      assert !StartsWith(once, "~/") && once != "~";
    } else if path == "~" {
      assert once == home;
      assert !StartsWith(once, "~/") && once != "~";
    }
  }
}
