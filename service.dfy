/**
 * The request-preparation logic of the Anthropic-compatible endpoint: the session id used
 * for sticky credential selection, the thinking flag, history management applied to a
 * request, and the order of the checks before a request is forwarded. The provider, the
 * web-search test, the request converter, the token estimate and the SHA-256 digest are
 * parameters.
 */
module Service {
  import opened Wrappers
  import opened Strings
  import opened Json
  import opened History
  import Config

  datatype Metadata = Metadata(userId: Option<string>)
  datatype Thinking = Thinking(thinkingType: string, budgetTokens: int)

  datatype MessagesRequest = MessagesRequest(
    model: string,
    maxTokens: int,
    messages: seq<Message>,
    stream: bool,
    system: Option<seq<SystemMessage>>,
    tools: Option<seq<Tool>>,
    toolChoice: Option<Value>,
    thinking: Option<Thinking>,
    outputConfig: Option<Value>,
    metadata: Option<Metadata>)

  /** An `x-session-id` header value; `text` is None when it is not visible ASCII (`to_str` fails). */
  datatype HeaderValue = HeaderValue(text: Option<string>)

  datatype ConversionError = UnsupportedModel(model: string) | EmptyMessages

  datatype RequestContext<P> = RequestContext(
    provider: P,
    requestBody: string,
    model: string,
    inputTokens: int,
    thinkingEnabled: bool,
    sessionId: Option<string>,
    isStream: bool)

  /** `ValidationResult`; its `Ok` variant is `Prepared` here. */
  datatype ValidationResult<P> =
    | Prepared(context: RequestContext<P>)
    | ProviderNotConfigured
    | WebSearchRequest(provider: P, inputTokens: int)
    | ConversionFailed(error: ConversionError)
    | SerializationFailed(message: string)

  const SESSION_MARKER: string := "session_"
  const SESSION_END: string := "__"
  const SYSTEM_SESSION_PREFIX: string := "sys_"

  /** A `u64` value as `{:x}` prints it: lower-case hexadecimal without leading zeros. */
  function LowerHex(n: nat): (r: string)
    ensures |r| >= 1
    decreases n
  {
    var d := "0123456789abcdef"[n % 16];
    if n < 16 then [d] else LowerHex(n / 16) + [d]
  }

  /** A `u64` truncated by `as i32`: the low 32 bits read as two's complement. */
  function AsI32(n: nat): (r: int)
    ensures -0x8000_0000 <= r < 0x8000_0000
    ensures n < 0x8000_0000 ==> r == n
  {
    var low := n % 0x1_0000_0000;
    if low >= 0x8000_0000 then low - 0x1_0000_0000 else low
  }

  // ---------------------------------------------------------------------------------------
  // Session id

  /** The session part of a `metadata.user_id`: from the first `session_` up to the next `__`. */
  function MetadataSession(userId: string): (r: Option<string>)
    ensures r.Some? <==> Contains(userId, SESSION_MARKER)
    ensures r.Some? ==> var p := Find(userId, SESSION_MARKER).value;
      StartsWith(userId[p..], r.value) && !Contains(r.value, SESSION_END)
  {
    match Find(userId, SESSION_MARKER)
    case None => None
    case Some(p) =>
      var part := userId[p..];
      var end := match Find(part, SESSION_END) { case Some(e) => e case None => |part| };
      SessionPartFacts(part, end);
      Some(part[..end])
  }

  lemma SessionPartFacts(part: string, end: nat)
    requires end == match Find(part, SESSION_END) { case Some(e) => e case None => |part| }
    ensures end <= |part| && StartsWith(part, part[..end]) && !Contains(part[..end], SESSION_END)
  {
    var f := Find(part, SESSION_END);
    if Contains(part[..end], SESSION_END) {
      var i :| 0 <= i <= |part[..end]| && OccursAt(part[..end], SESSION_END, i);
      assert part[..end][i..i + 2] == part[i..i + 2];
      assert OccursAt(part, SESSION_END, i);
      assert false;
    }
  }

  /** The system-prompt text the fallback session id hashes. */
  function SystemText(system: Option<seq<SystemMessage>>): string
  {
    match system
    case None => ""
    case Some(sys) => Concat(seq(|sys|, i requires 0 <= i < |sys| => sys[i].text))
  }

  /**
   * `extract_session_id`: the metadata session part first; then a non-empty, readable
   * `x-session-id` header verbatim; then `sys_` and the hexadecimal digest of a non-empty
   * system prompt; otherwise none.
   */
  function ExtractSessionId(req: MessagesRequest, header: Option<HeaderValue>, digest: string -> nat): (r: Option<string>)
    ensures (req.metadata.Some? && req.metadata.value.userId.Some? && Contains(req.metadata.value.userId.value, SESSION_MARKER))
      ==> r == MetadataSession(req.metadata.value.userId.value)
    ensures !(req.metadata.Some? && req.metadata.value.userId.Some? && Contains(req.metadata.value.userId.value, SESSION_MARKER))
      && header.Some? && header.value.text.Some? && header.value.text.value != ""
      ==> r == header.value.text
    ensures r.None? <==>
      !(req.metadata.Some? && req.metadata.value.userId.Some? && Contains(req.metadata.value.userId.value, SESSION_MARKER))
      && !(header.Some? && header.value.text.Some? && header.value.text.value != "")
      && SystemText(req.system) == ""
  {
    var fromMetadata :=
      if req.metadata.Some? && req.metadata.value.userId.Some? then MetadataSession(req.metadata.value.userId.value)
      else None;
    if fromMetadata.Some? then fromMetadata
    else if header.Some? && header.value.text.Some? && header.value.text.value != "" then header.value.text
    else if SystemText(req.system) != "" then Some(SYSTEM_SESSION_PREFIX + LowerHex(digest(SystemText(req.system))))
    else None
  }

  /**
   * When neither the metadata (absent, without a user id, or without `session_`) nor the
   * header (absent, unreadable or empty) gives an id, a non-empty system prompt yields
   * one starting with `sys_`.
   */
  lemma SystemFallback(req: MessagesRequest, header: Option<HeaderValue>, digest: string -> nat)
    requires !(req.metadata.Some? && req.metadata.value.userId.Some?
               && Contains(req.metadata.value.userId.value, SESSION_MARKER))
    requires !(header.Some? && header.value.text.Some? && header.value.text.value != "")
    requires SystemText(req.system) != ""
    ensures var r := ExtractSessionId(req, header, digest);
      r.Some? && StartsWith(r.value, SYSTEM_SESSION_PREFIX)
  {
  }

  /** The metadata id starts with `session_` when the marker is not directly followed by `_`. */
  lemma MetadataSessionPrefix(userId: string)
    requires Contains(userId, SESSION_MARKER)
    requires var p := Find(userId, SESSION_MARKER).value; !(p + 8 < |userId| && userId[p + 8] == '_')
    ensures StartsWith(MetadataSession(userId).value, SESSION_MARKER)
  {
    var p := Find(userId, SESSION_MARKER).value;
    OccursAtChars(userId, SESSION_MARKER, p);
    var part := userId[p..];
    assert forall j :: 0 <= j < |part| ==> part[j] == userId[p + j];
    forall j | 0 <= j < 8 ensures !OccursAt(part, SESSION_END, j) {
      if j + 2 <= |part| {
        assert part[j..j + 2][0] == part[j] && part[j..j + 2][1] == part[j + 1];
        if j < 7 {
          assert part[j] == SESSION_MARKER[j];
        } else {
          assert part[j + 1] == userId[p + 8];
        }
      }
    }
    var end := match Find(part, SESSION_END) { case Some(e) => e case None => |part| };
    assert end >= 8;
    assert part[..end][..8] == part[..8] == SESSION_MARKER;
  }

  /** A `session__` marker ends the id before its underscore: `session__x` yields `session`. */
  lemma MetadataSessionDoubleUnderscore()
    ensures MetadataSession("session__x") == Some("session")
  {
    var u := "session__x";
    assert OccursAt(u, SESSION_MARKER, 0);
    assert u[0..] == u;
    assert OccursAt(u, SESSION_END, 7);
    assert FindFrom(u, SESSION_END, 7) == Some(7);
    forall v | 0 <= v < 7 ensures !OccursAt(u, SESSION_END, v) {
      // every character before index 7 is a letter, so no `__` can start there
      assert u[v] != '_';
      assert u[v..v + 2][0] == u[v];
    }
    assert FindFrom(u, SESSION_END, 0) == Some(7);
    assert u[..7] == "session";
  }

  // ---------------------------------------------------------------------------------------
  // Thinking, history, preparation

  /** `is_thinking_enabled`: off without a thinking block, otherwise on exactly for the type `enabled`. */
  predicate IsThinkingEnabled(req: MessagesRequest): (on: bool)
    ensures req.thinking.None? ==> !on
    ensures req.thinking.Some? ==> (on <==> req.thinking.value.thinkingType == "enabled")
  {
    req.thinking.Some? && req.thinking.value.thinkingType == "enabled"
  }

  /** The history settings `apply_history_management` derives; prompt caching is always off. */
  function HistoryConfigOf(c: Config.Config): (h: HistoryConfig)
    ensures h.enabled == c.historyManagementEnabled && h.truncateThreshold == c.historyTruncateThreshold
    ensures h.enableAiSummary == c.historyEnableAiSummary
    ensures h.enableImagePlaceholder == c.historyEnableImagePlaceholder
    ensures h.keepRecentMessages == c.historyKeepRecentMessages && !h.enablePromptCaching
  {
    HistoryConfig(c.historyManagementEnabled, c.historyTruncateThreshold, c.historyEnableAiSummary,
                  c.historyEnableImagePlaceholder, false, c.historyKeepRecentMessages)
  }

  /** `apply_history_management`: every field but the messages is copied, the system prompt included. */
  method ApplyHistoryManagement(payload: MessagesRequest, c: Config.Config, tc: TokenCounter) returns (r: MessagesRequest)
    ensures r == payload.(messages := ManagedMessages(HistoryConfigOf(c), payload.messages, payload.system, payload.tools, tc))
    ensures !c.historyManagementEnabled ==> r == payload
  {
    var result := ManageHistory(HistoryConfigOf(c), payload.messages, payload.system, payload.tools, tc);
    r := MessagesRequest(payload.model, payload.maxTokens, result.messages, payload.stream, result.system,
                         payload.tools, payload.toolChoice, payload.thinking, payload.outputConfig, payload.metadata);
  }

  /**
   * `validate_and_prepare_request`: no provider is reported first, then a web-search
   * request (with its token estimate), then a conversion failure of the history-managed
   * request; only a prepared request carries the session id.
   */
  method ValidateAndPrepareRequest<P>(
    provider: Option<P>, profileArn: Option<string>, payload: MessagesRequest, header: Option<HeaderValue>,
    c: Config.Config, tc: TokenCounter,
    isWebSearch: MessagesRequest -> bool,
    convert: (MessagesRequest, Option<string>) -> Result<string, ConversionError>,
    estimateInput: MessagesRequest -> nat,
    digest: string -> nat)
    returns (r: ValidationResult<P>)
    ensures provider.None? <==> r.ProviderNotConfigured?
    ensures provider.Some? && isWebSearch(payload) ==> r == WebSearchRequest(provider.value, AsI32(estimateInput(payload)))
    ensures provider.Some? && !isWebSearch(payload) ==>
      var managed := payload.(messages := ManagedMessages(HistoryConfigOf(c), payload.messages, payload.system, payload.tools, tc));
      match convert(managed, profileArn) {
        case Err(e) => r == ConversionFailed(e)
        case Ok(body) => r == Prepared(RequestContext(provider.value, body, payload.model, AsI32(estimateInput(payload)),
                                                     IsThinkingEnabled(payload), ExtractSessionId(payload, header, digest),
                                                     payload.stream))
      }
  {
    if provider.None? {
      return ProviderNotConfigured;
    }
    var p := provider.value;
    if isWebSearch(payload) {
      return WebSearchRequest(p, AsI32(estimateInput(payload)));
    }
    var managed := ApplyHistoryManagement(payload, c, tc);
    var converted := convert(managed, profileArn);
    if converted.Err? {
      return ConversionFailed(converted.error);
    }
    var inputTokens := AsI32(estimateInput(payload));
    var thinkingEnabled := IsThinkingEnabled(payload);
    var sessionId := ExtractSessionId(payload, header, digest);
    r := Prepared(RequestContext(p, converted.value, payload.model, inputTokens, thinkingEnabled, sessionId, payload.stream));
  }
}
