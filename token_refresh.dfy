/**
 * The free functions at the top of the token manager: expiry tests, refresh-token
 * validation, the choice between the Social and the IdC refresh flow, and the way a
 * refresh response is merged into the credential record. The network exchange itself is
 * an oracle: a function from the request (credential and flow) to what came back.
 */
module TokenRefresh {
  import opened Wrappers
  import opened Strings
  import opened Credentials

  /** Minutes ahead of `now` at which a token already counts as expired. */
  const EXPIRED_WINDOW_MINUTES: int := 5
  /** Minutes ahead of `now` at which a token counts as expiring soon. */
  const EXPIRING_SOON_WINDOW_MINUTES: int := 10
  /** Shortest refresh token that is not considered truncated. */
  const MIN_REFRESH_TOKEN_LENGTH: nat := 100

  /**
   * `Some(expiry <= now + minutes)` when `expires_at` is present and parses, `None`
   * otherwise. Instants are in seconds.
   */
  function IsTokenExpiringWithin(c: KiroCredentials, now: int, minutes: int): (r: Option<bool>)
    ensures r.Some? <==> c.expiresAt.Some? && c.expiresAt.value.Rfc3339?
    ensures r.Some? ==> (r.value <==> c.expiresAt.value.instant <= now + minutes * 60)
  {
    match c.expiresAt
    case Some(Rfc3339(instant)) => Some(instant <= now + minutes * 60)
    case _ => None
  }

  /** Expired: within five minutes of expiry, or no usable expiry at all. */
  function IsTokenExpired(c: KiroCredentials, now: int): (r: bool)
    ensures (c.expiresAt.None? || c.expiresAt.value.Malformed?) ==> r
    ensures c.expiresAt.Some? && c.expiresAt.value.Rfc3339? ==>
      (r <==> c.expiresAt.value.instant <= now + 300)
  {
    IsTokenExpiringWithin(c, now, EXPIRED_WINDOW_MINUTES).UnwrapOr(true)
  }

  /** Expiring soon: within ten minutes of a usable expiry; never without one. */
  function IsTokenExpiringSoon(c: KiroCredentials, now: int): (r: bool)
    ensures (c.expiresAt.None? || c.expiresAt.value.Malformed?) ==> !r
    ensures c.expiresAt.Some? && c.expiresAt.value.Rfc3339? ==>
      (r <==> c.expiresAt.value.instant <= now + 600)
  {
    IsTokenExpiringWithin(c, now, EXPIRING_SOON_WINDOW_MINUTES).UnwrapOr(false)
  }

  /** For a usable expiry the five-minute window lies inside the ten-minute one. */
  lemma ExpiredImpliesExpiringSoon(c: KiroCredentials, now: int)
    requires c.expiresAt.Some? && c.expiresAt.value.Rfc3339?
    ensures IsTokenExpired(c, now) ==> IsTokenExpiringSoon(c, now)
  {
  }

  /** The first test `try_ensure_token` makes: expired or expiring soon. */
  predicate NeedsRefresh(c: KiroCredentials, now: int)
  {
    IsTokenExpired(c, now) || IsTokenExpiringSoon(c, now)
  }

  datatype RefreshError =
    | MissingRefreshToken
    | EmptyRefreshToken
    | TruncatedRefreshToken(length: nat)
    | MissingClientId
    | MissingClientSecret
      /** Anything the refresh endpoint, the transport or the response decoding reported. */
    | Upstream(message: string)

  /** The refresh token is present, at least 100 characters long and holds no `...`. */
  predicate RefreshTokenUsable(c: KiroCredentials)
  {
    c.refreshToken.Some? && |c.refreshToken.value| >= MIN_REFRESH_TOKEN_LENGTH
    && !Contains(c.refreshToken.value, "...")
  }

  /** `validate_refresh_token`: rejects missing, empty and truncated refresh tokens. */
  function ValidateRefreshToken(c: KiroCredentials): (r: Result<(), RefreshError>)
    ensures r.Ok? <==> RefreshTokenUsable(c)
    ensures r == Err(MissingRefreshToken) <==> c.refreshToken.None?
    ensures r == Err(EmptyRefreshToken) <==> c.refreshToken == Some("")
    ensures r.Err? && r.error.TruncatedRefreshToken? ==>
      c.refreshToken.Some? && c.refreshToken.value != "" && r.error.length == |c.refreshToken.value|
    ensures r.Err? ==> r.error.MissingRefreshToken? || r.error.EmptyRefreshToken? || r.error.TruncatedRefreshToken?
  {
    match c.refreshToken
    case None => Err(MissingRefreshToken)
    case Some(t) =>
      if t == "" then Err(EmptyRefreshToken)
      else if |t| < MIN_REFRESH_TOKEN_LENGTH || EndsWith(t, "...") || Contains(t, "...") then
        assert EndsWith(t, "...") ==> Contains(t, "...") by {
          if EndsWith(t, "...") { EndsWithContains(t, "..."); }
        }
        Err(TruncatedRefreshToken(|t|))
      else Ok(())
  }

  /** The `ends_with("...")` test adds nothing to the `contains("...")` test. */
  lemma EndsWithTestIsSubsumed(t: string)
    requires EndsWith(t, "...")
    ensures Contains(t, "...")
  {
    EndsWithContains(t, "...");
  }

  datatype AuthFlow = Social | Idc

  /**
   * The flow `refresh_token` takes: the stated `auth_method` (defaulting to `idc` when both
   * client id and secret are present and to `social` otherwise); `idc`, `builder-id` and
   * `iam` in any ASCII case select IdC, everything else Social.
   */
  function RefreshFlow(c: KiroCredentials): (r: AuthFlow)
    ensures c.authMethod.None? ==> (r == Idc <==> c.clientId.Some? && c.clientSecret.Some?)
    ensures c.authMethod.Some? ==>
      (r == Idc <==> EqIgnoreAsciiCase(c.authMethod.value, "idc") || IsIdcAlias(c.authMethod.value))
  {
    var authMethod := c.authMethod.UnwrapOr(if c.clientId.Some? && c.clientSecret.Some? then "idc" else "social");
    assert !EqIgnoreAsciiCase("social", "idc");
    assert !IsIdcAlias("social") by {
      assert AsciiLower("social"[0]) != AsciiLower("iam"[0]);
    }
    if EqIgnoreAsciiCase(authMethod, "idc") || IsIdcAlias(authMethod) then Idc else Social
  }

  /** The fields of a successful refresh response that the merge reads. */
  datatype RefreshResponse = RefreshResponse(
    accessToken: string,
    refreshToken: Option<string>,
    profileArn: Option<string>,
    expiresIn: Option<int>)

  datatype RefreshOutcome = Responded(response: RefreshResponse) | Failed(message: string)

  /** What the refresh endpoint answers to a request for this credential over this flow. */
  type RefreshOracle = (KiroCredentials, AuthFlow) -> RefreshOutcome

  /**
   * The record a successful refresh produces: the new access token; the new refresh token
   * and (Social flow only, the IdC response has no such field) profile ARN when the
   * response carries them; an expiry `expires_in` seconds after `now` when it carries one.
   * Every other field is kept.
   */
  function MergeRefreshResponse(c: KiroCredentials, flow: AuthFlow, resp: RefreshResponse, now: int): (r: KiroCredentials)
    ensures r.accessToken == Some(resp.accessToken)
    ensures r.refreshToken == if resp.refreshToken.Some? then resp.refreshToken else c.refreshToken
    ensures r.profileArn == if flow == Social && resp.profileArn.Some? then resp.profileArn else c.profileArn
    ensures r.expiresAt == if resp.expiresIn.Some? then Some(Rfc3339(now + resp.expiresIn.value)) else c.expiresAt
    ensures r == c.(accessToken := r.accessToken, refreshToken := r.refreshToken,
                    profileArn := r.profileArn, expiresAt := r.expiresAt)
  {
    var withAccess := c.(accessToken := Some(resp.accessToken));
    var withRefresh := if resp.refreshToken.Some? then withAccess.(refreshToken := resp.refreshToken) else withAccess;
    var withArn := if flow == Social && resp.profileArn.Some? then withRefresh.(profileArn := resp.profileArn) else withRefresh;
    if resp.expiresIn.Some? then withArn.(expiresAt := Some(Rfc3339(now + resp.expiresIn.value))) else withArn
  }

  /**
   * `refresh_token`: validation first, then the flow; the IdC flow needs a client id and
   * a client secret before it sends anything; the response is merged on success.
   */
  function RefreshToken(c: KiroCredentials, now: int, oracle: RefreshOracle): (r: Result<KiroCredentials, RefreshError>)
    ensures !RefreshTokenUsable(c) ==> r.Err? && r == Err(ValidateRefreshToken(c).error)
    ensures r.Ok? ==>
      (RefreshTokenUsable(c) && oracle(c, RefreshFlow(c)).Responded?
       && r.value == MergeRefreshResponse(c, RefreshFlow(c), oracle(c, RefreshFlow(c)).response, now))
    ensures r.Ok? && RefreshFlow(c) == Idc ==> c.clientId.Some? && c.clientSecret.Some?
    ensures RefreshTokenUsable(c) && oracle(c, RefreshFlow(c)).Failed? ==>
      (r.Err? && (r.error.Upstream? ==> r.error.message == oracle(c, RefreshFlow(c)).message))
  {
    match ValidateRefreshToken(c)
    case Err(e) => Err(e)
    case Ok(_) =>
      var flow := RefreshFlow(c);
      if flow == Idc && c.clientId.None? then Err(MissingClientId)
      else if flow == Idc && c.clientSecret.None? then Err(MissingClientSecret)
      else
        match oracle(c, flow)
        case Failed(msg) => Err(Upstream(msg))
        case Responded(resp) => Ok(MergeRefreshResponse(c, flow, resp, now))
  }

  /** Decimal rendering of a natural number, as `{}` formats it. */
  function NatToDecimal(n: nat): (r: string)
    ensures |r| >= 1
    decreases n
  {
    var digit := ['0' + (n % 10) as char];
    if n < 10 then digit else NatToDecimal(n / 10) + digit
  }

  /** The text each refresh error displays. */
  function RefreshErrorText(e: RefreshError): string
  {
    match e
    case MissingRefreshToken => "缺少 refreshToken"
    case EmptyRefreshToken => "refreshToken 为空"
    case TruncatedRefreshToken(n) =>
      "refreshToken 已被截断（长度: " + NatToDecimal(n) + " 字符）。\n这通常是 Kiro IDE 为了防止凭证被第三方工具使用而故意截断的。"
    case MissingClientId => "IdC 刷新需要 clientId"
    case MissingClientSecret => "IdC 刷新需要 clientSecret"
    case Upstream(msg) => msg
  }

  /** The markers whose presence in an error text marks a refresh token as unusable. */
  const DisableMarkers: seq<string> :=
    ["refreshToken", "截断", "invalid_grant", "expired", "unauthorized", "401", "403"]

  /** A refresh failure whose text holds any marker disables the credential. */
  predicate ShouldDisable(text: string)
  {
    exists m :: m in DisableMarkers && Contains(text, m)
  }

  /** Every validation failure names the refresh token, so it always disables. */
  lemma {:induction false} ValidationErrorsDisable(c: KiroCredentials)
    requires ValidateRefreshToken(c).Err?
    ensures ShouldDisable(RefreshErrorText(ValidateRefreshToken(c).error))
  {
    var text := RefreshErrorText(ValidateRefreshToken(c).error);
    assert "refreshToken" in DisableMarkers;
    match ValidateRefreshToken(c).error
    case MissingRefreshToken =>
      assert OccursAt(text, "refreshToken", 3);
      assert Contains(text, "refreshToken");
    case EmptyRefreshToken =>
      assert OccursAt(text, "refreshToken", 0);
      assert Contains(text, "refreshToken");
    case TruncatedRefreshToken(n) =>
      assert text[..12] == "refreshToken";
      assert OccursAt(text, "refreshToken", 0);
      assert Contains(text, "refreshToken");
  }
}
