/** exporter/vmonitorexporter/config.go: the exporter's configuration and
    its `Validate`, which refuses missing credentials, fills in the default
    endpoints and sanitizes the dimension keys in place; and
    exporter/vmonitorexporter/output.go `CheckConfig`, which refuses an
    endpoint URL without a scheme or a host.

    `SanitizeDimensionName` is not shown: it is the parameter `sanitize`.
    `url.Parse` is the parameter `parseURL`. */
module ExporterConfig {
  import opened Common

  const DefaultEndpoint: string := "https://monitoring-agent.vngcloud.vn:443"
  const DefaultIAMURL: string := "https://iamapis.vngcloud.vn/accounts-api/v2/auth/token"

  datatype ConfigError = InvalidCredentials

  /** The dimension keys after sanitizing each in place. */
  function SanitizeAll(keys: seq<string>, sanitize: string -> string): (r: seq<string>)
    ensures |r| == |keys|
    ensures forall i | 0 <= i < |keys| :: r[i] == sanitize(keys[i])
  {
    if keys == [] then []
    else SanitizeAll(keys[..|keys| - 1], sanitize) + [sanitize(keys[|keys| - 1])]
  }

  /** A value left empty takes its default; any other value is kept. */
  function OrDefault(value: string, default: string): (r: string)
    ensures value == [] ==> r == default
    ensures value != [] ==> r == value
  {
    if value == "" then default else value
  }

  /** Sanitizing twice with an idempotent sanitizer is sanitizing once. */
  lemma SanitizeAllIdempotent(keys: seq<string>, sanitize: string -> string)
    requires forall s :: sanitize(sanitize(s)) == sanitize(s)
    ensures SanitizeAll(SanitizeAll(keys, sanitize), sanitize) == SanitizeAll(keys, sanitize)
  {
  }

  class Config {
    var endpoint: string
    var clientID: string
    var clientSecret: string
    var iamURL: string
    var dimensionKeys: seq<string>
    var valueKeys: seq<string>

    constructor (endpoint: string, clientID: string, clientSecret: string, iamURL: string,
                 dimensionKeys: seq<string>, valueKeys: seq<string>)
      ensures this.endpoint == endpoint && this.clientID == clientID && this.clientSecret == clientSecret
      ensures this.iamURL == iamURL && this.dimensionKeys == dimensionKeys && this.valueKeys == valueKeys
    {
      this.endpoint := endpoint;
      this.clientID := clientID;
      this.clientSecret := clientSecret;
      this.iamURL := iamURL;
      this.dimensionKeys := dimensionKeys;
      this.valueKeys := valueKeys;
    }

    /** `Validate`: missing credentials are an error before anything is
        touched; otherwise the endpoints take their defaults when empty and
        every dimension key is sanitized, in place and in order. */
    method Validate(sanitize: string -> string) returns (err: Option<ConfigError>)
      modifies this
      ensures clientID == old(clientID) && clientSecret == old(clientSecret) && valueKeys == old(valueKeys)
      ensures old(clientID) == [] || old(clientSecret) == [] ==>
                err == Some(InvalidCredentials)
                && endpoint == old(endpoint) && iamURL == old(iamURL) && dimensionKeys == old(dimensionKeys)
      ensures old(clientID) != [] && old(clientSecret) != [] ==>
                err == None
                && endpoint == OrDefault(old(endpoint), DefaultEndpoint)
                && iamURL == OrDefault(old(iamURL), DefaultIAMURL)
                && dimensionKeys == SanitizeAll(old(dimensionKeys), sanitize)
    {
      if clientID == "" || clientSecret == "" {
        return Some(InvalidCredentials);
      }
      if endpoint == "" {
        endpoint := DefaultEndpoint;
      }
      if iamURL == "" {
        iamURL := DefaultIAMURL;
      }
      var i := 0;
      while i < |dimensionKeys|
        invariant 0 <= i <= |dimensionKeys| == |old(dimensionKeys)|
        invariant forall j | 0 <= j < i :: dimensionKeys[j] == sanitize(old(dimensionKeys)[j])
        invariant forall j | i <= j < |dimensionKeys| :: dimensionKeys[j] == old(dimensionKeys)[j]
        invariant clientID == old(clientID) && clientSecret == old(clientSecret) && valueKeys == old(valueKeys)
        invariant endpoint == OrDefault(old(endpoint), DefaultEndpoint) && iamURL == OrDefault(old(iamURL), DefaultIAMURL)
      {
        dimensionKeys := dimensionKeys[i := sanitize(dimensionKeys[i])];
        i := i + 1;
      }
      return None;
    }
  }

  /** The configuration the exporter test builds, with empty credentials,
      is refused and left as it was. */
  method ValidateEmptyCredentials(sanitize: string -> string) returns (err: Option<ConfigError>)
    ensures err == Some(InvalidCredentials)
  {
    var cfg := new Config("", "", "", "", [], []);
    err := cfg.Validate(sanitize);
  }

  /** A second `Validate` after a successful one changes only the
      dimension keys, and not them either when the sanitizer is idempotent. */
  method ValidateTwice(cfg: Config, sanitize: string -> string) returns (first: Option<ConfigError>, second: Option<ConfigError>)
    requires forall s :: sanitize(sanitize(s)) == sanitize(s)
    modifies cfg
    ensures first == second
    ensures first.None? ==> cfg.endpoint != [] && cfg.iamURL != []
                            && cfg.dimensionKeys == SanitizeAll(old(cfg.dimensionKeys), sanitize)
  {
    first := cfg.Validate(sanitize);
    second := cfg.Validate(sanitize);
    if first.None? {
      SanitizeAllIdempotent(old(cfg.dimensionKeys), sanitize);
    }
  }

  // ---------------------------------------------------------------------
  // CheckConfig (output.go)

  /** The parts of a parsed URL that `CheckConfig` looks at. */
  datatype URL = URL(scheme: string, host: string)

  datatype CheckError = InvalidURL(url: string)

  /** `CheckConfig`: the endpoint must parse, with a scheme and a host. */
  function CheckConfig(url: string, parseURL: string -> Option<URL>): (r: Option<CheckError>)
    ensures r == None <==> parseURL(url).Some? && parseURL(url).value.scheme != [] && parseURL(url).value.host != []
    ensures r.Some? ==> r.value.url == url
  {
    var u := parseURL(url);
    if u.Some? && u.value.scheme != "" && u.value.host != "" then None else Some(InvalidURL(url))
  }
}
