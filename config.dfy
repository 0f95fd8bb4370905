/**
 * The service configuration: its defaults and `Config::validate`, which collects one
 * message per violated rule, in checking order. The `api_key` field the admin handlers
 * read is part of the record.
 */
module Config {
  import opened Wrappers
  import opened Strings

  datatype TlsBackend = Rustls | NativeTls

  datatype Config = Config(
    host: string,
    port: nat,
    region: string,
    kiroVersion: string,
    machineId: Option<string>,
    systemVersion: string,
    nodeVersion: string,
    tlsBackend: TlsBackend,
    countTokensApiUrl: Option<string>,
    countTokensApiKey: Option<string>,
    countTokensAuthType: string,
    proxyUrl: Option<string>,
    proxyUsername: Option<string>,
    proxyPassword: Option<string>,
    adminApiKey: Option<string>,
    apiKey: Option<string>,
    sessionCacheMaxCapacity: nat,
    sessionCacheTtlSecs: nat,
    healthCheckIntervalSecs: nat,
    rateLimitEnabled: bool,
    rateLimitPerMinute: nat,
    rateLimitPerHour: nat,
    rateLimitPerKeyPerMinute: nat,
    rateLimitPerKeyPerHour: nat,
    historyManagementEnabled: bool,
    historyTruncateThreshold: nat,
    historyEnableAiSummary: bool,
    historyEnableImagePlaceholder: bool,
    historyKeepRecentMessages: nat)

  const SYSTEM_VERSIONS: seq<string> := ["darwin#24.6.0", "win32#10.0.22631"]

  /**
   * `Config::default()`. The system version is drawn at random from two values; which one
   * is the `firstSystemVersion` parameter.
   */
  function DefaultConfig(firstSystemVersion: bool): (c: Config)
    ensures c.host == "127.0.0.1" && c.port == 8080 && c.region == "us-east-1"
    ensures c.systemVersion in SYSTEM_VERSIONS && c.countTokensAuthType == "x-api-key"
    ensures c.proxyUrl.None? && c.proxyPassword.None? && c.adminApiKey.None? && c.apiKey.None?
    ensures c.sessionCacheMaxCapacity == 10000 && c.sessionCacheTtlSecs == 3600 && c.healthCheckIntervalSecs == 600
    ensures c.rateLimitEnabled && c.rateLimitPerMinute == 60 && c.rateLimitPerHour == 1000
    ensures c.rateLimitPerKeyPerMinute == 30 && c.rateLimitPerKeyPerHour == 500
    ensures c.historyManagementEnabled && c.historyTruncateThreshold == 100000
    ensures !c.historyEnableAiSummary && c.historyEnableImagePlaceholder && c.historyKeepRecentMessages == 20
  {
    Config(
      host := "127.0.0.1", port := 8080, region := "us-east-1", kiroVersion := "0.8.0",
      machineId := None,
      systemVersion := if firstSystemVersion then SYSTEM_VERSIONS[0] else SYSTEM_VERSIONS[1],
      nodeVersion := "22.21.1", tlsBackend := Rustls,
      countTokensApiUrl := None, countTokensApiKey := None, countTokensAuthType := "x-api-key",
      proxyUrl := None, proxyUsername := None, proxyPassword := None,
      adminApiKey := None, apiKey := None,
      sessionCacheMaxCapacity := 10000, sessionCacheTtlSecs := 3600, healthCheckIntervalSecs := 600,
      rateLimitEnabled := true, rateLimitPerMinute := 60, rateLimitPerHour := 1000,
      rateLimitPerKeyPerMinute := 30, rateLimitPerKeyPerHour := 500,
      historyManagementEnabled := true, historyTruncateThreshold := 100000,
      historyEnableAiSummary := false, historyEnableImagePlaceholder := true,
      historyKeepRecentMessages := 20)
  }

  /** A proxy URL is acceptable when it is absent, empty, or uses one of the three schemes. */
  predicate ProxyUrlAccepted(url: Option<string>)
  {
    url.None? || url.value == ""
    || StartsWith(url.value, "http://") || StartsWith(url.value, "https://") || StartsWith(url.value, "socks5://")
  }

  predicate AuthTypeAccepted(t: string)
  {
    t == "x-api-key" || t == "bearer"
  }

  /** One validation rule: whether it fires on the configuration and what it reports. */
  datatype Rule = Rule(fires: bool, message: string)

  /** The rules in the order `validate` checks them, in the source's five groups. */
  function Rules(c: Config): (rs: seq<Rule>)
    ensures |rs| == 14
  {
    ServerRules(c) + CacheRules(c) + RateLimitRules(c) + AuthTypeRules(c) + HistoryRules(c)
  }

  function ProxyUrlMessage(url: Option<string>): string
  {
    "proxyUrl 格式不正确: " + (if url.Some? then url.value else "") + "，应以 http://、https:// 或 socks5:// 开头"
  }

  function AuthTypeMessage(t: string): string
  {
    "countTokensAuthType 无效: " + t + "，应为 'x-api-key' 或 'bearer'"
  }

  function ServerRules(c: Config): (rs: seq<Rule>)
    ensures |rs| == 4
  {
    [ Rule(IsBlank(c.host), "host 不能为空"),
      Rule(c.port == 0, "port 不能为 0"),
      Rule(IsBlank(c.region), "region 不能为空"),
      Rule(!ProxyUrlAccepted(c.proxyUrl), ProxyUrlMessage(c.proxyUrl)) ]
  }

  function CacheRules(c: Config): (rs: seq<Rule>)
    ensures |rs| == 3
  {
    [ Rule(c.sessionCacheMaxCapacity == 0, "sessionCacheMaxCapacity 不能为 0"),
      Rule(c.sessionCacheTtlSecs == 0, "sessionCacheTtlSecs 不能为 0"),
      Rule(c.healthCheckIntervalSecs == 0, "healthCheckIntervalSecs 不能为 0") ]
  }

  function RateLimitRules(c: Config): (rs: seq<Rule>)
    ensures |rs| == 4
  {
    [ Rule(c.rateLimitEnabled && c.rateLimitPerMinute == 0, "rateLimitPerMinute 不能为 0"),
      Rule(c.rateLimitEnabled && c.rateLimitPerHour == 0, "rateLimitPerHour 不能为 0"),
      Rule(c.rateLimitEnabled && c.rateLimitPerKeyPerMinute == 0, "rateLimitPerKeyPerMinute 不能为 0"),
      Rule(c.rateLimitEnabled && c.rateLimitPerKeyPerHour == 0, "rateLimitPerKeyPerHour 不能为 0") ]
  }

  function AuthTypeRules(c: Config): (rs: seq<Rule>)
    ensures |rs| == 1
  {
    [ Rule(!AuthTypeAccepted(c.countTokensAuthType), AuthTypeMessage(c.countTokensAuthType)) ]
  }

  function HistoryRules(c: Config): (rs: seq<Rule>)
    ensures |rs| == 2
  {
    [ Rule(c.historyManagementEnabled && c.historyTruncateThreshold == 0, "historyTruncateThreshold 不能为 0"),
      Rule(c.historyManagementEnabled && c.historyKeepRecentMessages == 0, "historyKeepRecentMessages 不能为 0") ]
  }

  /** The messages of the rules that fire, in order. */
  function FiringMessages(rs: seq<Rule>): (r: seq<string>)
    ensures |r| <= |rs|
  {
    if rs == [] then []
    else FiringMessages(rs[..|rs| - 1]) + (if rs[|rs| - 1].fires then [rs[|rs| - 1].message] else [])
  }

  /** What `validate` reports for a configuration. */
  function ConfigErrors(c: Config): seq<string>
  {
    FiringMessages(Rules(c))
  }

  lemma {:induction false} FiringMessagesEmptyIff(rs: seq<Rule>)
    ensures FiringMessages(rs) == [] <==> forall i :: 0 <= i < |rs| ==> !rs[i].fires
  {
    if rs != [] {
      FiringMessagesEmptyIff(rs[..|rs| - 1]);
      assert forall i :: 0 <= i < |rs| - 1 ==> rs[..|rs| - 1][i] == rs[i];
    }
  }

  lemma {:induction false} FiringRuleReported(rs: seq<Rule>, i: nat)
    requires i < |rs| && rs[i].fires
    ensures rs[i].message in FiringMessages(rs)
  {
    if i < |rs| - 1 {
      FiringRuleReported(rs[..|rs| - 1], i);
    }
  }

  /** Validation passes exactly when no rule fires, and every firing rule is reported. */
  lemma ValidationCompleteness(c: Config)
    ensures ConfigErrors(c) == [] <==> forall i :: 0 <= i < |Rules(c)| ==> !Rules(c)[i].fires
    ensures forall i :: 0 <= i < |Rules(c)| && Rules(c)[i].fires ==> Rules(c)[i].message in ConfigErrors(c)
  {
    FiringMessagesEmptyIff(Rules(c));
    forall i | 0 <= i < |Rules(c)| && Rules(c)[i].fires
      ensures Rules(c)[i].message in ConfigErrors(c)
    {
      FiringRuleReported(Rules(c), i);
    }
  }

  /** The checks the source names, each rejecting the configuration with its message. */
  lemma RejectedSettings(c: Config)
    ensures IsBlank(c.host) ==> "host 不能为空" in ConfigErrors(c)
    ensures IsBlank(c.region) ==> "region 不能为空" in ConfigErrors(c)
    ensures c.port == 0 ==> "port 不能为 0" in ConfigErrors(c)
    ensures c.sessionCacheMaxCapacity == 0 ==> "sessionCacheMaxCapacity 不能为 0" in ConfigErrors(c)
    ensures c.sessionCacheTtlSecs == 0 ==> "sessionCacheTtlSecs 不能为 0" in ConfigErrors(c)
    ensures c.healthCheckIntervalSecs == 0 ==> "healthCheckIntervalSecs 不能为 0" in ConfigErrors(c)
    ensures !ProxyUrlAccepted(c.proxyUrl) || !AuthTypeAccepted(c.countTokensAuthType) ==> ConfigErrors(c) != []
  {
    ValidationCompleteness(c);
    assert Rules(c)[0].message == "host 不能为空";
    assert Rules(c)[1].message == "port 不能为 0";
    assert Rules(c)[2].message == "region 不能为空";
    assert Rules(c)[4].message == "sessionCacheMaxCapacity 不能为 0";
    assert Rules(c)[5].message == "sessionCacheTtlSecs 不能为 0";
    assert Rules(c)[6].message == "healthCheckIntervalSecs 不能为 0";
    assert Rules(c)[3].fires == !ProxyUrlAccepted(c.proxyUrl);
    assert Rules(c)[11].fires == !AuthTypeAccepted(c.countTokensAuthType);
  }

  /** With rate limiting off, the four rate checks never fire; with history management off, neither do its two. */
  lemma GatedChecks(c: Config, a: nat, b: nat, d: nat, e: nat, f: nat, g: nat)
    ensures !c.rateLimitEnabled ==> ConfigErrors(c.(rateLimitPerMinute := a, rateLimitPerHour := b,
      rateLimitPerKeyPerMinute := d, rateLimitPerKeyPerHour := e)) == ConfigErrors(c)
    ensures !c.historyManagementEnabled ==>
      ConfigErrors(c.(historyTruncateThreshold := f, historyKeepRecentMessages := g)) == ConfigErrors(c)
  {
    if !c.rateLimitEnabled {
      var c' := c.(rateLimitPerMinute := a, rateLimitPerHour := b, rateLimitPerKeyPerMinute := d, rateLimitPerKeyPerHour := e);
      assert Rules(c') == Rules(c);
    }
    if !c.historyManagementEnabled {
      assert Rules(c.(historyTruncateThreshold := f, historyKeepRecentMessages := g)) == Rules(c);
    }
  }

  /** The default configuration, with either system version, passes validation. */
  lemma DefaultConfigValid(firstSystemVersion: bool)
    ensures ConfigErrors(DefaultConfig(firstSystemVersion)) == []
  {
    var c := DefaultConfig(firstSystemVersion);
    assert !IsBlank(c.host) by { assert !IsWhitespace(c.host[0]); }
    assert !IsBlank(c.region) by { assert !IsWhitespace(c.region[0]); }
    FiringMessagesEmptyIff(Rules(c));
  }

  lemma {:induction false} FiringMessagesAppend(a: seq<Rule>, b: seq<Rule>)
    ensures FiringMessages(a + b) == FiringMessages(a) + FiringMessages(b)
    decreases |b|
  {
    if b == [] {
      assert a + b == a;
    } else {
      assert (a + b)[..|a + b| - 1] == a + b[..|b| - 1];
      FiringMessagesAppend(a, b[..|b| - 1]);
    }
  }

  lemma FiringMessagesStep(rs: seq<Rule>, k: nat)
    requires k < |rs|
    ensures FiringMessages(rs[..k + 1]) == FiringMessages(rs[..k]) + (if rs[k].fires then [rs[k].message] else [])
  {
    assert rs[..k + 1][..k] == rs[..k];
  }

  /** The host, port, region and proxy URL checks. */
  method CheckServer(c: Config) returns (errors: seq<string>)
    ensures errors == FiringMessages(ServerRules(c))
  {
    ghost var rs := ServerRules(c);
    errors := [];
    assert rs[..0] == [];
    FiringMessagesStep(rs, 0);
    if IsBlank(c.host) {
      errors := errors + ["host 不能为空"];
    }
    assert errors == FiringMessages(rs[..1]);
    FiringMessagesStep(rs, 1);
    if c.port == 0 {
      errors := errors + ["port 不能为 0"];
    }
    assert errors == FiringMessages(rs[..2]);
    FiringMessagesStep(rs, 2);
    if IsBlank(c.region) {
      errors := errors + ["region 不能为空"];
    }
    assert errors == FiringMessages(rs[..3]);
    FiringMessagesStep(rs, 3);
    if c.proxyUrl.Some? {
      var url := c.proxyUrl.value;
      if url != "" && !StartsWith(url, "http://") && !StartsWith(url, "https://") && !StartsWith(url, "socks5://") {
        errors := errors + [ProxyUrlMessage(c.proxyUrl)];
      }
    }
    assert rs[..4] == rs;
  }

  /** The cache capacity, cache TTL and health-check interval checks. */
  method CheckCache(c: Config) returns (errors: seq<string>)
    ensures errors == FiringMessages(CacheRules(c))
  {
    ghost var rs := CacheRules(c);
    errors := [];
    assert rs[..0] == [];
    FiringMessagesStep(rs, 0);
    if c.sessionCacheMaxCapacity == 0 {
      errors := errors + ["sessionCacheMaxCapacity 不能为 0"];
    }
    assert errors == FiringMessages(rs[..1]);
    FiringMessagesStep(rs, 1);
    if c.sessionCacheTtlSecs == 0 {
      errors := errors + ["sessionCacheTtlSecs 不能为 0"];
    }
    assert errors == FiringMessages(rs[..2]);
    FiringMessagesStep(rs, 2);
    if c.healthCheckIntervalSecs == 0 {
      errors := errors + ["healthCheckIntervalSecs 不能为 0"];
    }
    assert rs[..3] == rs;
  }

  /** The four rate-limit checks, made only when rate limiting is enabled. */
  method CheckRateLimits(c: Config) returns (errors: seq<string>)
    ensures errors == FiringMessages(RateLimitRules(c))
  {
    ghost var rs := RateLimitRules(c);
    errors := [];
    assert rs[..0] == [];
    FiringMessagesStep(rs, 0);
    FiringMessagesStep(rs, 1);
    FiringMessagesStep(rs, 2);
    FiringMessagesStep(rs, 3);
    if c.rateLimitEnabled {
      if c.rateLimitPerMinute == 0 {
        errors := errors + ["rateLimitPerMinute 不能为 0"];
      }
      assert errors == FiringMessages(rs[..1]);
      if c.rateLimitPerHour == 0 {
        errors := errors + ["rateLimitPerHour 不能为 0"];
      }
      assert errors == FiringMessages(rs[..2]);
      if c.rateLimitPerKeyPerMinute == 0 {
        errors := errors + ["rateLimitPerKeyPerMinute 不能为 0"];
      }
      assert errors == FiringMessages(rs[..3]);
      if c.rateLimitPerKeyPerHour == 0 {
        errors := errors + ["rateLimitPerKeyPerHour 不能为 0"];
      }
    }
    assert rs[..4] == rs;
  }

  /** The count-tokens authentication type check. */
  method CheckAuthType(c: Config) returns (errors: seq<string>)
    ensures errors == FiringMessages(AuthTypeRules(c))
  {
    errors := [];
    var validAuthTypes := ["x-api-key", "bearer"];
    if c.countTokensAuthType !in validAuthTypes {
      errors := errors + [AuthTypeMessage(c.countTokensAuthType)];
    }
    ghost var rs := AuthTypeRules(c);
    FiringMessagesStep(rs, 0);
    assert rs[..0] == [] && rs[..1] == rs;
  }

  /** The two history checks, made only when history management is enabled. */
  method CheckHistory(c: Config) returns (errors: seq<string>)
    ensures errors == FiringMessages(HistoryRules(c))
  {
    ghost var rs := HistoryRules(c);
    errors := [];
    assert rs[..0] == [];
    FiringMessagesStep(rs, 0);
    FiringMessagesStep(rs, 1);
    if c.historyManagementEnabled {
      if c.historyTruncateThreshold == 0 {
        errors := errors + ["historyTruncateThreshold 不能为 0"];
      }
      assert errors == FiringMessages(rs[..1]);
      if c.historyKeepRecentMessages == 0 {
        errors := errors + ["historyKeepRecentMessages 不能为 0"];
      }
    }
    assert rs[..2] == rs;
  }

  /** `Config::validate`: the checks in order, each pushing its message when it fires. */
  method Validate(c: Config) returns (r: Result<(), seq<string>>)
    ensures r.Ok? <==> ConfigErrors(c) == []
    ensures r.Err? ==> r.error == ConfigErrors(c)
  {
    var server := CheckServer(c);
    var cache := CheckCache(c);
    var rate := CheckRateLimits(c);
    var auth := CheckAuthType(c);
    var history := CheckHistory(c);
    var errors := server + cache + rate + auth + history;
    FiringMessagesAppend(ServerRules(c), CacheRules(c));
    FiringMessagesAppend(ServerRules(c) + CacheRules(c), RateLimitRules(c));
    FiringMessagesAppend(ServerRules(c) + CacheRules(c) + RateLimitRules(c), AuthTypeRules(c));
    FiringMessagesAppend(ServerRules(c) + CacheRules(c) + RateLimitRules(c) + AuthTypeRules(c), HistoryRules(c));
    if errors == [] {
      r := Ok(());
    } else {
      r := Err(errors);
    }
  }
}
