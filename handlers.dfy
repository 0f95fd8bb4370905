/**
 * The Anthropic-facing handler logic that is not transport: assembling the non-streaming
 * response from the decoded upstream events, the `count_tokens` floor, the conversion
 * error responses and the choice of the Kiro provider for an API key's pool binding.
 */
module Handlers {
  import opened Wrappers
  import opened Json
  import Service
  import TM = TokenManager
  import PR = PoolRegistry
  import Pools

  // ---------------------------------------------------------------------------------------
  // Upstream events

  /**
   * One decoded event of the upstream event stream. A `ContextUsage` event carries the
   * input-token figure already derived from the reported percentage. Frames that fail to
   * decode, and frames that are not a known event, are dropped before this list.
   */
  datatype Event =
    | AssistantResponse(content: string)
    | ToolUse(toolUseId: string, name: string, input: string, stop: bool)
    | ContextUsage(inputTokens: int)
    | Exception(exceptionType: string)
    | OtherEvent

  const CONTENT_LENGTH_EXCEEDED := "ContentLengthExceededException"
  const END_TURN := "end_turn"
  const MAX_TOKENS := "max_tokens"
  const TOOL_USE := "tool_use"

  /** All `AssistantResponse` contents, concatenated in arrival order. */
  function ResponseText(es: seq<Event>): string
  {
    if es == [] then ""
    else ResponseText(es[..|es| - 1]) + (match es[|es| - 1] case AssistantResponse(c) => c case _ => "")
  }

  /** Some event is a `ToolUse` fragment. */
  predicate AnyToolUse(es: seq<Event>)
  {
    es != [] && (AnyToolUse(es[..|es| - 1]) || es[|es| - 1].ToolUse?)
  }

  /** Some event is a `ContentLengthExceededException`. */
  predicate LengthExceeded(es: seq<Event>)
  {
    es != [] && (LengthExceeded(es[..|es| - 1]) || es[|es| - 1] == Exception(CONTENT_LENGTH_EXCEEDED))
  }

  /** The input fragments of tool use `id`, concatenated in arrival order. */
  function ToolBuffer(es: seq<Event>, id: string): string
  {
    if es == [] then ""
    else
      ToolBuffer(es[..|es| - 1], id)
      + (match es[|es| - 1] case ToolUse(tid, _, input, _) => if tid == id then input else "" case _ => "")
  }

  /** The input of a finished tool use: the parsed buffer, or `{}` when it does not parse. */
  function ParsedInput(parse: string -> Option<Value>, buffer: string): (r: Value)
    ensures parse(buffer).None? ==> r == JObj([])
    ensures parse(buffer).Some? ==> r == parse(buffer).value
  {
    match parse(buffer)
    case Some(v) => v
    case None => JObj([])
  }

  function ToolUseBlock(id: string, name: string, input: Value): Value
  {
    JObj([("type", JStr("tool_use")), ("id", JStr(id)), ("name", JStr(name)), ("input", input)])
  }

  function TextBlock(text: string): Value
  {
    JObj([("type", JStr("text")), ("text", JStr(text))])
  }

  /** One `tool_use` block for each fragment flagged `stop`, built from the buffer at that point. */
  function ToolBlocks(es: seq<Event>, parse: string -> Option<Value>): seq<Value>
  {
    if es == [] then []
    else
      ToolBlocks(es[..|es| - 1], parse)
      + (match es[|es| - 1]
         case ToolUse(id, name, _, stop) => if stop then [ToolUseBlock(id, name, ParsedInput(parse, ToolBuffer(es, id)))] else []
         case _ => [])
  }

  /** The figure carried by the last `ContextUsage` event, if any. */
  function LastContextTokens(es: seq<Event>): Option<int>
  {
    if es == [] then None
    else match es[|es| - 1]
      case ContextUsage(t) => Some(t)
      case _ => LastContextTokens(es[..|es| - 1])
  }

  /** The stop reason the response reports. */
  function StopReason(es: seq<Event>): string
  {
    if LengthExceeded(es) then MAX_TOKENS else if AnyToolUse(es) then TOOL_USE else END_TURN
  }

  /** The positions of the fragments flagged `stop`, in order. */
  function StopPositions(es: seq<Event>): (ps: seq<nat>)
    ensures forall k :: 0 <= k < |ps| ==> ps[k] < |es| && es[ps[k]].ToolUse? && es[ps[k]].stop
    ensures forall k, l :: 0 <= k < l < |ps| ==> ps[k] < ps[l]
    ensures forall i :: 0 <= i < |es| && es[i].ToolUse? && es[i].stop ==> i in ps
  {
    if es == [] then []
    else
      var init := StopPositions(es[..|es| - 1]);
      var last := es[|es| - 1];
      assert forall k :: 0 <= k < |init| ==> es[init[k]] == es[..|es| - 1][init[k]];
      init + (if last.ToolUse? && last.stop then [|es| - 1] else [])
  }

  // ---------------------------------------------------------------------------------------
  // Facts about the event fold

  /** The text is the concatenation of the text of the two halves. */
  lemma {:induction false} ResponseTextAppend(a: seq<Event>, b: seq<Event>)
    ensures ResponseText(a + b) == ResponseText(a) + ResponseText(b)
    decreases |b|
  {
    if b == [] {
      assert a + b == a;
    } else {
      assert (a + b)[..|a + b| - 1] == a + b[..|b| - 1];
      ResponseTextAppend(a, b[..|b| - 1]);
    }
  }

  /** A tool's buffer is the concatenation of its fragments in the two halves. */
  lemma {:induction false} ToolBufferAppend(a: seq<Event>, b: seq<Event>, id: string)
    ensures ToolBuffer(a + b, id) == ToolBuffer(a, id) + ToolBuffer(b, id)
    decreases |b|
  {
    if b == [] {
      assert a + b == a;
    } else {
      ConcatInit(a, b);
      ToolBufferAppend(a, b[..|b| - 1], id);
    }
  }

  /** Dropping the last event of `a + b`, for a non-empty `b`, drops it from `b`. */
  lemma ConcatInit(a: seq<Event>, b: seq<Event>)
    requires b != []
    ensures (a + b)[..|a + b| - 1] == a + b[..|b| - 1] && (a + b)[|a + b| - 1] == b[|b| - 1]
  {
  }

  lemma {:induction false} AnyToolUseIff(es: seq<Event>)
    ensures AnyToolUse(es) <==> exists i :: 0 <= i < |es| && es[i].ToolUse?
    decreases |es|
  {
    if es != [] {
      var init := es[..|es| - 1];
      AnyToolUseIff(init);
      if AnyToolUse(init) {
        var i :| 0 <= i < |init| && init[i].ToolUse?;
        assert es[i] == init[i];
      }
      if exists i :: 0 <= i < |es| && es[i].ToolUse? {
        var i :| 0 <= i < |es| && es[i].ToolUse?;
        if i < |init| {
          assert init[i] == es[i];
        }
      }
    }
  }

  lemma {:induction false} LengthExceededIff(es: seq<Event>)
    ensures LengthExceeded(es) <==> exists i :: 0 <= i < |es| && es[i] == Exception(CONTENT_LENGTH_EXCEEDED)
    decreases |es|
  {
    if es != [] {
      var init := es[..|es| - 1];
      LengthExceededIff(init);
      if LengthExceeded(init) {
        var i :| 0 <= i < |init| && init[i] == Exception(CONTENT_LENGTH_EXCEEDED);
        assert es[i] == init[i];
      }
      if exists i :: 0 <= i < |es| && es[i] == Exception(CONTENT_LENGTH_EXCEEDED) {
        var i :| 0 <= i < |es| && es[i] == Exception(CONTENT_LENGTH_EXCEEDED);
        if i < |init| {
          assert init[i] == es[i];
        }
      }
    }
  }

  /**
   * `max_tokens` exactly when a content-length exception arrived; otherwise `tool_use`
   * exactly when some tool-use fragment arrived; otherwise `end_turn`.
   */
  lemma StopReasonCases(es: seq<Event>)
    ensures StopReason(es) == MAX_TOKENS <==> exists i :: 0 <= i < |es| && es[i] == Exception(CONTENT_LENGTH_EXCEEDED)
    ensures StopReason(es) == TOOL_USE <==>
      (forall i :: 0 <= i < |es| ==> es[i] != Exception(CONTENT_LENGTH_EXCEEDED))
      && (exists i :: 0 <= i < |es| && es[i].ToolUse?)
    ensures StopReason(es) == END_TURN <==> forall i :: 0 <= i < |es| ==> !es[i].ToolUse? && es[i] != Exception(CONTENT_LENGTH_EXCEEDED)
  {
    AnyToolUseIff(es);
    LengthExceededIff(es);
  }

  /** The reported figure is that of a `ContextUsage` event after which no other arrived. */
  lemma {:induction false} LastContextTokensIsLast(es: seq<Event>)
    ensures LastContextTokens(es).None? <==> forall i :: 0 <= i < |es| ==> !es[i].ContextUsage?
    ensures LastContextTokens(es).Some? ==>
      (exists i :: 0 <= i < |es| && es[i] == ContextUsage(LastContextTokens(es).value)
        && forall j :: i < j < |es| ==> !es[j].ContextUsage?)
    decreases |es|
  {
    if es != [] {
      var init := es[..|es| - 1];
      LastContextTokensIsLast(init);
      if !es[|es| - 1].ContextUsage? {
        assert forall i :: 0 <= i < |init| ==> init[i] == es[i];
        if LastContextTokens(init).Some? {
          var i :| 0 <= i < |init| && init[i] == ContextUsage(LastContextTokens(init).value)
            && forall j :: i < j < |init| ==> !init[j].ContextUsage?;
          assert forall j :: i < j < |es| ==> !es[j].ContextUsage? by {
            forall j | i < j < |es| ensures !es[j].ContextUsage? {
              if j < |init| {
                assert init[j] == es[j];
              }
            }
          }
        }
      }
    }
  }

  /** The block a `stop` fragment at position `p` produces. */
  function StopBlock(es: seq<Event>, p: nat, parse: string -> Option<Value>): Value
    requires p < |es| && es[p].ToolUse?
  {
    ToolUseBlock(es[p].toolUseId, es[p].name, ParsedInput(parse, ToolBuffer(es[..p + 1], es[p].toolUseId)))
  }

  /**
   * The `tool_use` blocks correspond one to one, in order, to the fragments flagged `stop`;
   * each carries that fragment's id and name and the parse of the tool's buffer up to and
   * including that fragment.
   */
  lemma ToolBlocksPerStop(es: seq<Event>, parse: string -> Option<Value>)
    ensures |ToolBlocks(es, parse)| == |StopPositions(es)|
    ensures forall k :: 0 <= k < |StopPositions(es)| ==> ToolBlocks(es, parse)[k] == StopBlock(es, StopPositions(es)[k], parse)
  {
    ToolBlocksCount(es, parse);
    forall k | 0 <= k < |StopPositions(es)|
      ensures ToolBlocks(es, parse)[k] == StopBlock(es, StopPositions(es)[k], parse)
    {
      ToolBlockAt(es, parse, k);
    }
  }

  /** There are as many blocks as `stop` fragments. */
  lemma {:induction false} ToolBlocksCount(es: seq<Event>, parse: string -> Option<Value>)
    ensures |ToolBlocks(es, parse)| == |StopPositions(es)|
    decreases |es|
  {
    if es != [] {
      ToolBlocksCount(es[..|es| - 1], parse);
    }
  }

  /** The k-th block is the one the k-th `stop` fragment produces. */
  lemma {:induction false} ToolBlockAt(es: seq<Event>, parse: string -> Option<Value>, k: nat)
    requires k < |StopPositions(es)|
    ensures |ToolBlocks(es, parse)| == |StopPositions(es)|
    ensures ToolBlocks(es, parse)[k] == StopBlock(es, StopPositions(es)[k], parse)
    decreases |es|
  {
    ToolBlocksCount(es, parse);
    var init := es[..|es| - 1];
    ToolBlocksCount(init, parse);
    if k < |StopPositions(init)| {
      ToolBlockAt(init, parse, k);
      ToolBlockOfPrefix(es, parse, k);
    } else {
      ToolBlockOfLast(es, parse, k);
    }
  }

  /** A block the stream without its last event already has keeps its place and its content. */
  lemma ToolBlockOfPrefix(es: seq<Event>, parse: string -> Option<Value>, k: nat)
    requires es != [] && k < |StopPositions(es[..|es| - 1])|
    requires |ToolBlocks(es[..|es| - 1], parse)| == |StopPositions(es[..|es| - 1])|
    requires ToolBlocks(es[..|es| - 1], parse)[k] == StopBlock(es[..|es| - 1], StopPositions(es[..|es| - 1])[k], parse)
    ensures k < |StopPositions(es)| && k < |ToolBlocks(es, parse)|
    ensures ToolBlocks(es, parse)[k] == StopBlock(es, StopPositions(es)[k], parse)
  {
    var init := es[..|es| - 1];
    StopBlockOfPrefix(es, StopPositions(init)[k], parse);
    assert ToolBlocks(es, parse)[k] == ToolBlocks(init, parse)[k];
    assert StopPositions(es)[k] == StopPositions(init)[k];
  }

  /** The block past those of the shorter stream is the one the last event, a `stop` fragment, produces. */
  lemma ToolBlockOfLast(es: seq<Event>, parse: string -> Option<Value>, k: nat)
    requires es != [] && k == |StopPositions(es[..|es| - 1])| && k < |StopPositions(es)|
    requires |ToolBlocks(es[..|es| - 1], parse)| == |StopPositions(es[..|es| - 1])|
    ensures k < |ToolBlocks(es, parse)|
    ensures ToolBlocks(es, parse)[k] == StopBlock(es, StopPositions(es)[k], parse)
  {
    assert es[..|es| - 1 + 1] == es;
  }

  /** A `stop` fragment before the last event produces the same block in the shorter stream. */
  lemma StopBlockOfPrefix(es: seq<Event>, p: nat, parse: string -> Option<Value>)
    requires p < |es| - 1 && es[..|es| - 1][p].ToolUse?
    ensures es[p].ToolUse? && StopBlock(es, p, parse) == StopBlock(es[..|es| - 1], p, parse)
  {
    assert es[..|es| - 1][..p + 1] == es[..p + 1];
  }

  /** How each fold over the events advances by one more event. */
  lemma FoldStep(pre: seq<Event>, e: Event, parse: string -> Option<Value>)
    ensures var es := pre + [e];
      && ResponseText(es) == ResponseText(pre) + (if e.AssistantResponse? then e.content else "")
      && (forall id :: ToolBuffer(es, id) == ToolBuffer(pre, id) + (if e.ToolUse? && e.toolUseId == id then e.input else ""))
      && ToolBlocks(es, parse) == ToolBlocks(pre, parse)
           + (if e.ToolUse? && e.stop then [ToolUseBlock(e.toolUseId, e.name, ParsedInput(parse, ToolBuffer(es, e.toolUseId)))] else [])
      && (AnyToolUse(es) <==> AnyToolUse(pre) || e.ToolUse?)
      && (LengthExceeded(es) <==> LengthExceeded(pre) || e == Exception(CONTENT_LENGTH_EXCEEDED))
      && LastContextTokens(es) == (if e.ContextUsage? then Some(e.inputTokens) else LastContextTokens(pre))
  {
    assert (pre + [e])[..|pre + [e]| - 1] == pre;
  }

  // ---------------------------------------------------------------------------------------
  // build_non_stream_response

  datatype NonStreamResponse = NonStreamResponse(
    id: string,
    content: seq<Value>,
    model: string,
    stopReason: string,
    inputTokens: int,
    outputTokens: nat)

  /** The variables `build_non_stream_response` updates while it walks the events. */
  datatype Collected = Collected(
    text: string,
    toolUses: seq<Value>,
    hasToolUse: bool,
    stopReason: string,
    contextInputTokens: Option<int>,
    buffers: map<string, string>)

  /** The collected variables agree with the folds over the events seen so far. */
  ghost predicate Tracks(st: Collected, seen: seq<Event>, parse: string -> Option<Value>)
  {
    && st.text == ResponseText(seen)
    && st.toolUses == ToolBlocks(seen, parse)
    && st.hasToolUse == AnyToolUse(seen)
    && st.stopReason == (if LengthExceeded(seen) then MAX_TOKENS else END_TURN)
    && st.contextInputTokens == LastContextTokens(seen)
    && BuffersTrack(st.buffers, seen)
  }

  /** What the response is built from once every event has been collected. */
  lemma TracksFolds(st: Collected, collected: seq<Event>, seen: seq<Event>, parse: string -> Option<Value>)
    requires Tracks(st, collected, parse) == true && collected == seen
    ensures st.text == ResponseText(seen) && st.toolUses == ToolBlocks(seen, parse)
    ensures st.hasToolUse == AnyToolUse(seen) && st.contextInputTokens == LastContextTokens(seen)
    ensures st.stopReason == (if LengthExceeded(seen) then MAX_TOKENS else END_TURN)
  {
  }

  /** Each tool-use id's buffer holds its input fragments so far; an id without a buffer has none. */
  ghost predicate BuffersTrack(buffers: map<string, string>, seen: seq<Event>)
  {
    && (forall id :: id in buffers ==> buffers[id] == ToolBuffer(seen, id))
    && (forall id :: id !in buffers ==> ToolBuffer(seen, id) == "")
  }

  /** A tool-use fragment is appended to its id's buffer, which is created empty when missing. */
  lemma BuffersStep(buffers: map<string, string>, seen: seq<Event>, e: Event, parse: string -> Option<Value>)
    requires BuffersTrack(buffers, seen) && e.ToolUse?
    ensures var id := e.toolUseId;
      var buffer := (if id in buffers then buffers[id] else "") + e.input;
      buffer == ToolBuffer(seen + [e], id) && BuffersTrack(buffers[id := buffer], seen + [e])
  {
    FoldStep(seen, e, parse);
  }

  /** Any other event leaves every buffer as it is. */
  lemma BuffersKeep(buffers: map<string, string>, seen: seq<Event>, e: Event, parse: string -> Option<Value>)
    requires BuffersTrack(buffers, seen) && !e.ToolUse?
    ensures BuffersTrack(buffers, seen + [e])
  {
    FoldStep(seen, e, parse);
  }

  /** The body of the event loop: the effect of one decoded event. */
  method CollectEvent(st: Collected, e: Event, ghost seen: seq<Event>, parse: string -> Option<Value>)
    returns (next: Collected)
    requires Tracks(st, seen, parse) == true
    ensures Tracks(next, seen + [e], parse) == true
  {
    FoldStep(seen, e, parse);
    if e.ToolUse? {
      BuffersStep(st.buffers, seen, e, parse);
    } else {
      BuffersKeep(st.buffers, seen, e, parse);
    }
    next := st;
    match e {
      case AssistantResponse(c) =>
        next := st.(text := st.text + c);
      case ToolUse(id, name, input, stop) =>
        var buffer := if id in st.buffers then st.buffers[id] else "";
        buffer := buffer + input;
        next := st.(hasToolUse := true, buffers := st.buffers[id := buffer]);
        if stop {
          next := next.(toolUses := st.toolUses + [ToolUseBlock(id, name, ParsedInput(parse, buffer))]);
        }
      case ContextUsage(t) =>
        next := st.(contextInputTokens := Some(t));
      case Exception(t) =>
        if t == CONTENT_LENGTH_EXCEEDED {
          next := st.(stopReason := MAX_TOKENS);
        }
      case OtherEvent =>
    }
  }

  /** The event loop of `build_non_stream_response`: the collected variables after every event. */
  method CollectEvents(events: seq<Event>, parse: string -> Option<Value>) returns (st: Collected)
    ensures st.text == ResponseText(events) && st.toolUses == ToolBlocks(events, parse)
    ensures st.hasToolUse == AnyToolUse(events) && st.contextInputTokens == LastContextTokens(events)
    ensures st.stopReason == (if LengthExceeded(events) then MAX_TOKENS else END_TURN)
  {
    st := Collected("", [], false, END_TURN, None, map[]);
    var i := 0;
    while i < |events|
      invariant 0 <= i <= |events|
      // `== true` keeps `Tracks` whole: the loop hands it from one turn to the next as it is
      invariant Tracks(st, events[..i], parse) == true
    {
      PrefixSnoc(events, i);
      st := CollectEvent(st, events[i], events[..i], parse);
      i := i + 1;
    }
    TracksFolds(st, events[..i], events, parse);
  }

  /** The events up to and including the i-th are those before it followed by it. */
  lemma PrefixSnoc(events: seq<Event>, i: nat)
    requires i < |events|
    ensures events[..i + 1] == events[..i] + [events[i]]
  {
  }

  /**
   * `build_non_stream_response`: one pass over the events collecting the text, the tool
   * input buffers (per tool-use id, never cleared), the finished tool-use blocks, the stop
   * reason and the last context figure. Parsing a tool's JSON, estimating the output
   * tokens and the message id are parameters.
   */
  method BuildNonStreamResponse(events: seq<Event>, model: string, inputTokens: int,
                                parse: string -> Option<Value>, estimateOutput: seq<Value> -> nat,
                                messageId: string)
    returns (r: NonStreamResponse)
    ensures r.content == (if ResponseText(events) != "" then [TextBlock(ResponseText(events))] else [])
                         + ToolBlocks(events, parse)
    ensures r.stopReason == StopReason(events)
    ensures r.inputTokens == LastContextTokens(events).UnwrapOr(inputTokens)
    ensures r.outputTokens == estimateOutput(r.content)
    ensures r.id == messageId && r.model == model
  {
    var st := CollectEvents(events, parse);
    var stopReason := st.stopReason;
    if st.hasToolUse && stopReason == END_TURN {
      stopReason := TOOL_USE;
    }
    var content: seq<Value> := [];
    if st.text != "" {
      content := content + [TextBlock(st.text)];
    }
    content := content + st.toolUses;
    var outputTokens := estimateOutput(content);
    var finalInputTokens := st.contextInputTokens.UnwrapOr(inputTokens);
    r := NonStreamResponse(messageId, content, model, stopReason, finalInputTokens, outputTokens);
  }

  // ---------------------------------------------------------------------------------------
  // count_tokens

  /**
   * `count_tokens`: the estimate truncated to `i32`, then raised to at least 1. The
   * estimate itself is a parameter.
   */
  function CountTokensResult(totalTokens: nat): (r: int)
    ensures 1 <= r < 0x8000_0000
    ensures 1 <= totalTokens < 0x8000_0000 ==> r == totalTokens
    ensures totalTokens == 0 ==> r == 1
  {
    var truncated := Service.AsI32(totalTokens);
    if truncated >= 1 then truncated else 1
  }

  // ---------------------------------------------------------------------------------------
  // Conversion errors

  const HTTP_BAD_REQUEST := 400
  const INVALID_REQUEST_ERROR := "invalid_request_error"
  const UNSUPPORTED_MODEL_PREFIX := "模型不支持: "
  const EMPTY_MESSAGES_TEXT := "消息列表为空"

  datatype ErrorResponse = ErrorResponse(status: nat, errorType: string, message: string)

  /** `create_conversion_error_response`: a 400 `invalid_request_error` naming the cause. */
  function ConversionErrorResponse(e: Service.ConversionError): (r: ErrorResponse)
    ensures r.status == HTTP_BAD_REQUEST && r.errorType == INVALID_REQUEST_ERROR
    ensures e.UnsupportedModel? ==> r.message == UNSUPPORTED_MODEL_PREFIX + e.model
    ensures e.EmptyMessages? ==> r.message == EMPTY_MESSAGES_TEXT
  {
    match e
    case UnsupportedModel(model) => ErrorResponse(HTTP_BAD_REQUEST, INVALID_REQUEST_ERROR, UNSUPPORTED_MODEL_PREFIX + model)
    case EmptyMessages => ErrorResponse(HTTP_BAD_REQUEST, INVALID_REQUEST_ERROR, EMPTY_MESSAGES_TEXT)
  }

  /** Distinct conversion errors produce distinct messages. */
  lemma ConversionErrorMessagesDistinct(e1: Service.ConversionError, e2: Service.ConversionError)
    requires e1 != e2
    ensures ConversionErrorResponse(e1).message != ConversionErrorResponse(e2).message
  {
    var m1 := ConversionErrorResponse(e1).message;
    var m2 := ConversionErrorResponse(e2).message;
    var n := |UNSUPPORTED_MODEL_PREFIX|;
    if e1.UnsupportedModel? && e2.UnsupportedModel? {
      assert m1[n..] == e1.model && m2[n..] == e2.model;
    } else if e1.UnsupportedModel? {
      assert m1[0] == UNSUPPORTED_MODEL_PREFIX[0] != EMPTY_MESSAGES_TEXT[0];
    } else {
      assert m2[0] == UNSUPPORTED_MODEL_PREFIX[0] != EMPTY_MESSAGES_TEXT[0];
    }
  }

  // ---------------------------------------------------------------------------------------
  // resolve_kiro_provider

  /** A Kiro provider, identified by the token manager it draws credentials from. */
  datatype KiroProvider = KiroProvider(tokenManager: TM.MultiTokenManager)

  /**
   * `resolve_kiro_provider`: with a pool manager that resolves the key's binding, a provider
   * over that pool's token manager; otherwise the default provider, which may be absent.
   * `order` is the pool map's iteration order.
   */
  function ResolveKiroProvider(poolManager: Option<PR.PoolManager>, binding: Option<string>, order: seq<string>,
                               defaultProvider: Option<KiroProvider>): (r: Option<KiroProvider>)
    reads if poolManager.Some? then {poolManager.value} + poolManager.value.Repr() else {}
    requires poolManager.Some? ==> poolManager.value.IsKeyOrder(order)
    ensures poolManager.Some? && poolManager.value.GetPoolForApiKey(binding, order).Some? ==>
      r == Some(KiroProvider(poolManager.value.GetPoolForApiKey(binding, order).value.tokenManager))
    ensures (poolManager.None? || poolManager.value.GetPoolForApiKey(binding, order).None?) ==> r == defaultProvider
  {
    if poolManager.Some? then
      match poolManager.value.GetPoolForApiKey(binding, order)
      case Some(runtime) => Some(KiroProvider(runtime.tokenManager))
      case None => defaultProvider
    else defaultProvider
  }

  /**
   * A provider that is not the default one draws on the token manager of an enabled pool
   * of the pool manager.
   */
  lemma ResolvedProviderIsEnabledPool(pm: PR.PoolManager, binding: Option<string>, order: seq<string>,
                                      defaultProvider: Option<KiroProvider>)
    requires pm.IsKeyOrder(order)
    ensures var r := ResolveKiroProvider(Some(pm), binding, order, defaultProvider);
      r != defaultProvider ==>
        r.Some? && exists id :: id in pm.pools && pm.pools[id].config.enabled && pm.pools[id].tokenManager == r.value.tokenManager
  {
    var routed := pm.GetPoolForApiKey(binding, order);
    pm.RoutedPoolIsEnabled(binding, order);
    if routed.Some? {
      var id: string;
      if binding == Some(PR.AUTO_ROUTE_POOL_ID) {
        var rs := pm.Runtimes(order);
        PR.AutoRouteIsBest(rs);
        assert routed == PR.AutoRoute(rs);
        var i :| 0 <= i < |rs| && rs[i] == routed.value;
        id := order[i];
      } else if binding.None? {
        id := Pools.DEFAULT_POOL_ID;
      } else {
        id := binding.value;
      }
      assert pm.pools[id] == routed.value;
    }
  }
}
