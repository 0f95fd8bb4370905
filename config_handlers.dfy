/**
 * The admin configuration endpoints: the masked view of the configuration, and the
 * update whose per-field rules decide what is overwritten, cleared or left alone. The
 * update changes the shared configuration in place before saving it; whether the save
 * succeeds is the `saveFailure` parameter.
 */
module ConfigHandlers {
  import opened Wrappers
  import opened Config

  datatype ConfigResponse = ConfigResponse(
    host: string,
    port: nat,
    region: string,
    kiroVersion: string,
    tlsBackend: TlsBackend,
    sessionCacheMaxCapacity: nat,
    sessionCacheTtlSecs: nat,
    proxyUrl: Option<string>,
    proxyUsername: Option<string>,
    proxyPassword: Option<string>,
    hasApiKey: bool,
    hasAdminApiKey: bool)

  datatype UpdateConfigRequest = UpdateConfigRequest(
    host: Option<string>,
    port: Option<nat>,
    region: Option<string>,
    sessionCacheMaxCapacity: Option<nat>,
    sessionCacheTtlSecs: Option<nat>,
    proxyUrl: Option<string>,
    proxyUsername: Option<string>,
    proxyPassword: Option<string>,
    apiKey: Option<string>)

  const CLEAR_MARKER: string := "__CLEAR__"
  const MASKED_SECRET: string := "***"
  const UPDATED_MESSAGE: string := "配置已更新，部分配置需要重启服务后生效"

  datatype UpdateConfigResponse = Updated(message: string) | InternalError(message: string)

  /** `get_config`: the proxy password is shown only as a mask, the keys only as presence flags. */
  function GetConfig(c: Config): (r: ConfigResponse)
    ensures r.host == c.host && r.port == c.port && r.region == c.region
    ensures r.proxyUrl == c.proxyUrl && r.proxyUsername == c.proxyUsername
    ensures r.proxyPassword == (if c.proxyPassword.Some? then Some(MASKED_SECRET) else None)
    ensures r.hasApiKey <==> c.apiKey.Some?
    ensures r.hasAdminApiKey <==> c.adminApiKey.Some?
  {
    ConfigResponse(c.host, c.port, c.region, c.kiroVersion, c.tlsBackend,
                   c.sessionCacheMaxCapacity, c.sessionCacheTtlSecs, c.proxyUrl, c.proxyUsername,
                   if c.proxyPassword.Some? then Some(MASKED_SECRET) else None,
                   c.apiKey.Some?, c.adminApiKey.Some?)
  }

  /** Two configurations differing only in their secrets give the same view of the password. */
  lemma GetConfigHidesPassword(c: Config, p: string, q: string)
    ensures GetConfig(c.(proxyPassword := Some(p))) == GetConfig(c.(proxyPassword := Some(q)))
  {
  }

  /** `Some(v)` overwrites, `None` keeps. */
  function Overwrite<T>(requested: Option<T>, current: T): (r: T)
    ensures requested.Some? ==> r == requested.value
    ensures requested.None? ==> r == current
  {
    if requested.Some? then requested.value else current
  }

  /** The proxy URL and user name: an empty string clears, any other string sets. */
  function ClearableField(requested: Option<string>, current: Option<string>): (r: Option<string>)
    ensures requested.None? ==> r == current
    ensures requested == Some("") ==> r.None?
    ensures requested.Some? && requested.value != "" ==> r == requested
  {
    match requested
    case None => current
    case Some(v) => if v == "" then None else Some(v)
  }

  /** The proxy password and API key: the clear marker clears, an empty string keeps, any other string sets. */
  function SecretField(requested: Option<string>, current: Option<string>): (r: Option<string>)
    ensures requested.None? || requested == Some("") ==> r == current
    ensures requested == Some(CLEAR_MARKER) ==> r.None?
    ensures requested.Some? && requested.value != "" && requested.value != CLEAR_MARKER ==> r == requested
  {
    match requested
    case None => current
    case Some(v) => if v == CLEAR_MARKER then None else if v != "" then Some(v) else current
  }

  /** The configuration after an update: the nine requested fields per their rules, nothing else. */
  function MergedConfig(c: Config, req: UpdateConfigRequest): (r: Config)
    ensures r == c.(host := r.host, port := r.port, region := r.region,
                    sessionCacheMaxCapacity := r.sessionCacheMaxCapacity,
                    sessionCacheTtlSecs := r.sessionCacheTtlSecs, proxyUrl := r.proxyUrl,
                    proxyUsername := r.proxyUsername, proxyPassword := r.proxyPassword, apiKey := r.apiKey)
    ensures r.host == Overwrite(req.host, c.host) && r.port == Overwrite(req.port, c.port)
    ensures r.region == Overwrite(req.region, c.region)
    ensures r.sessionCacheMaxCapacity == Overwrite(req.sessionCacheMaxCapacity, c.sessionCacheMaxCapacity)
    ensures r.sessionCacheTtlSecs == Overwrite(req.sessionCacheTtlSecs, c.sessionCacheTtlSecs)
    ensures r.proxyUrl == ClearableField(req.proxyUrl, c.proxyUrl)
    ensures r.proxyUsername == ClearableField(req.proxyUsername, c.proxyUsername)
    ensures r.proxyPassword == SecretField(req.proxyPassword, c.proxyPassword)
    ensures r.apiKey == SecretField(req.apiKey, c.apiKey)
  {
    c.(host := Overwrite(req.host, c.host),
       port := Overwrite(req.port, c.port),
       region := Overwrite(req.region, c.region),
       sessionCacheMaxCapacity := Overwrite(req.sessionCacheMaxCapacity, c.sessionCacheMaxCapacity),
       sessionCacheTtlSecs := Overwrite(req.sessionCacheTtlSecs, c.sessionCacheTtlSecs),
       proxyUrl := ClearableField(req.proxyUrl, c.proxyUrl),
       proxyUsername := ClearableField(req.proxyUsername, c.proxyUsername),
       proxyPassword := SecretField(req.proxyPassword, c.proxyPassword),
       apiKey := SecretField(req.apiKey, c.apiKey))
  }

  function EmptyConfigUpdate(): UpdateConfigRequest
  {
    UpdateConfigRequest(None, None, None, None, None, None, None, None, None)
  }

  /** An empty request changes nothing, and applying a request twice is applying it once. */
  lemma MergeLaws(c: Config, req: UpdateConfigRequest)
    ensures MergedConfig(c, EmptyConfigUpdate()) == c
    ensures MergedConfig(MergedConfig(c, req), req) == MergedConfig(c, req)
  {
  }

  /** The update checks nothing: a port of 0 is stored and the result fails validation. */
  lemma UpdateDoesNotValidate(c: Config)
    ensures var req := EmptyConfigUpdate().(port := Some(0));
      MergedConfig(c, req).port == 0 && ConfigErrors(MergedConfig(c, req)) != []
  {
    RejectedSettings(MergedConfig(c, EmptyConfigUpdate().(port := Some(0))));
  }

  /** The shared configuration behind the admin API (`AdminState`'s config lock). */
  class AdminConfigState {
    var config: Config

    constructor (c: Config)
      ensures config == c
    {
      config := c;
    }

    /**
     * `update_config`: the fields are assigned in place, one rule at a time, and then the
     * configuration is saved; a failed save is reported with the change already made.
     */
    method UpdateConfig(req: UpdateConfigRequest, saveFailure: Option<string>) returns (r: UpdateConfigResponse)
      modifies this
      ensures config == MergedConfig(old(config), req)
      ensures saveFailure.None? ==> r == Updated(UPDATED_MESSAGE)
      ensures saveFailure.Some? ==> r == InternalError("保存配置失败: " + saveFailure.value)
    {
      var c := AssignServerFields(config, req);
      c := AssignProxyFields(c, req);
      config := c;
      if saveFailure.Some? {
        return InternalError("保存配置失败: " + saveFailure.value);
      }
      r := Updated(UPDATED_MESSAGE);
    }
  }

  /** The host, port, region and session-cache assignments of `update_config`. */
  method AssignServerFields(c0: Config, req: UpdateConfigRequest) returns (c: Config)
    ensures c == c0.(host := Overwrite(req.host, c0.host), port := Overwrite(req.port, c0.port),
                     region := Overwrite(req.region, c0.region),
                     sessionCacheMaxCapacity := Overwrite(req.sessionCacheMaxCapacity, c0.sessionCacheMaxCapacity),
                     sessionCacheTtlSecs := Overwrite(req.sessionCacheTtlSecs, c0.sessionCacheTtlSecs))
  {
    c := c0;
    if req.host.Some? {
      c := c.(host := req.host.value);
    }
    assert c == c0.(host := Overwrite(req.host, c0.host));
    if req.port.Some? {
      c := c.(port := req.port.value);
    }
    assert c == c0.(host := Overwrite(req.host, c0.host), port := Overwrite(req.port, c0.port));
    if req.region.Some? {
      c := c.(region := req.region.value);
    }
    assert c == c0.(host := Overwrite(req.host, c0.host), port := Overwrite(req.port, c0.port),
                    region := Overwrite(req.region, c0.region));
    if req.sessionCacheMaxCapacity.Some? {
      c := c.(sessionCacheMaxCapacity := req.sessionCacheMaxCapacity.value);
    }
    assert c == c0.(host := Overwrite(req.host, c0.host), port := Overwrite(req.port, c0.port),
                    region := Overwrite(req.region, c0.region),
                    sessionCacheMaxCapacity := Overwrite(req.sessionCacheMaxCapacity, c0.sessionCacheMaxCapacity));
    if req.sessionCacheTtlSecs.Some? {
      c := c.(sessionCacheTtlSecs := req.sessionCacheTtlSecs.value);
    }
  }

  /** The proxy URL, user name, password and API-key assignments of `update_config`. */
  method AssignProxyFields(c0: Config, req: UpdateConfigRequest) returns (c: Config)
    ensures c == c0.(proxyUrl := ClearableField(req.proxyUrl, c0.proxyUrl),
                     proxyUsername := ClearableField(req.proxyUsername, c0.proxyUsername),
                     proxyPassword := SecretField(req.proxyPassword, c0.proxyPassword),
                     apiKey := SecretField(req.apiKey, c0.apiKey))
  {
    c := c0;
    if req.proxyUrl.Some? {
      c := c.(proxyUrl := if req.proxyUrl.value == "" then None else req.proxyUrl);
    }
    assert c == c0.(proxyUrl := ClearableField(req.proxyUrl, c0.proxyUrl));
    if req.proxyUsername.Some? {
      c := c.(proxyUsername := if req.proxyUsername.value == "" then None else req.proxyUsername);
    }
    assert c == c0.(proxyUrl := ClearableField(req.proxyUrl, c0.proxyUrl),
                    proxyUsername := ClearableField(req.proxyUsername, c0.proxyUsername));
    if req.proxyPassword.Some? {
      if req.proxyPassword.value == CLEAR_MARKER {
        c := c.(proxyPassword := None);
      } else if req.proxyPassword.value != "" {
        c := c.(proxyPassword := req.proxyPassword);
      }
    }
    assert c == c0.(proxyUrl := ClearableField(req.proxyUrl, c0.proxyUrl),
                    proxyUsername := ClearableField(req.proxyUsername, c0.proxyUsername),
                    proxyPassword := SecretField(req.proxyPassword, c0.proxyPassword));
    if req.apiKey.Some? {
      if req.apiKey.value == CLEAR_MARKER {
        c := c.(apiKey := None);
      } else if req.apiKey.value != "" {
        c := c.(apiKey := req.apiKey);
      }
    }
  }
}
