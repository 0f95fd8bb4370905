/**
 * Conversation-history management before a request is forwarded: image placeholders,
 * token estimation, and truncation (the summary strategy falls back to truncation).
 * The tokenizer is a parameter: `TokenCounter` counts a text and a serialised JSON value.
 */
module History {
  import opened Wrappers
  import opened Json

  datatype Message = Message(role: string, content: Value)
  datatype SystemMessage = SystemMessage(text: string)
  datatype Tool = Tool(name: string, description: string, inputSchema: Value)

  /** `token::count_tokens` on a text, and on the text `serde_json::to_string` gives for a value. */
  datatype TokenCounter = TokenCounter(text: string -> nat, json: Value -> nat)

  datatype HistoryConfig = HistoryConfig(
    enabled: bool,
    truncateThreshold: nat,
    enableAiSummary: bool,
    enableImagePlaceholder: bool,
    enablePromptCaching: bool,
    keepRecentMessages: nat)

  datatype HistoryManagementResult = HistoryManagementResult(
    messages: seq<Message>,
    system: Option<seq<SystemMessage>>,
    truncated: bool,
    summarized: bool,
    imagePlaceholderApplied: bool,
    originalTokens: nat,
    processedTokens: nat)

  const IMAGE_TOKENS: nat := 1000
  const TOOL_BLOCK_TOKENS: nat := 50
  const SUMMARY_KEEP_RECENT: nat := 20
  const TRUNCATION_NOTICE: string := "[Earlier messages truncated to manage context length]"
  const IMAGE_PLACEHOLDER: Value := JObj([("type", JStr("text")), ("text", JStr("[Image]"))])

  function DefaultHistoryConfig(): (c: HistoryConfig)
    ensures c.enabled && c.truncateThreshold == 100000 && !c.enableAiSummary
    ensures c.enableImagePlaceholder && c.enablePromptCaching && c.keepRecentMessages == 20
  {
    HistoryConfig(true, 100000, false, true, true, 20)
  }

  function NoticeMessage(): Message
  {
    Message("user", JStr(TRUNCATION_NOTICE))
  }

  // ---------------------------------------------------------------------------------------
  // Image placeholders

  /** A content item is an image block when its `type` is `"image"`. */
  predicate IsImageBlock(item: Value)
  {
    GetStr(item, "type") == Some("image")
  }

  /** `replace_images_in_content`: only the image items of an array change; nothing else does. */
  function ReplaceImagesInContent(content: Value): (r: Value)
    ensures !content.JArr? ==> r == content
    ensures content.JArr? ==> r.JArr? && |r.items| == |content.items|
    ensures content.JArr? ==> forall i :: 0 <= i < |content.items| ==>
      r.items[i] == (if IsImageBlock(content.items[i]) then IMAGE_PLACEHOLDER else content.items[i])
  {
    match content
    case JArr(items) =>
      JArr(seq(|items|, i requires 0 <= i < |items| =>
        if IsImageBlock(items[i]) then IMAGE_PLACEHOLDER else items[i]))
    case _ => content
  }

  /** `apply_image_placeholder`: same messages, same roles, contents with images replaced. */
  function ApplyImagePlaceholder(messages: seq<Message>): (r: seq<Message>)
    ensures |r| == |messages|
    ensures forall i :: 0 <= i < |messages| ==>
      r[i].role == messages[i].role && r[i].content == ReplaceImagesInContent(messages[i].content)
  {
    seq(|messages|, i requires 0 <= i < |messages| =>
      Message(messages[i].role, ReplaceImagesInContent(messages[i].content)))
  }

  /** The number of image items among a message's content array. */
  function ImageCount(items: seq<Value>): nat
  {
    if items == [] then 0
    else ImageCount(items[..|items| - 1]) + (if IsImageBlock(items[|items| - 1]) then 1 else 0)
  }

  lemma {:induction false} NoImageNoCount(items: seq<Value>)
    requires forall i :: 0 <= i < |items| ==> !IsImageBlock(items[i])
    ensures ImageCount(items) == 0
  {
    if items != [] {
      NoImageNoCount(items[..|items| - 1]);
    }
  }

  /** After placeholding no image item is left, and placeholding again changes nothing. */
  lemma PlaceholderRemovesImages(messages: seq<Message>)
    ensures forall i :: 0 <= i < |messages| && ApplyImagePlaceholder(messages)[i].content.JArr? ==>
      ImageCount(ApplyImagePlaceholder(messages)[i].content.items) == 0
    ensures ApplyImagePlaceholder(ApplyImagePlaceholder(messages)) == ApplyImagePlaceholder(messages)
  {
    var once := ApplyImagePlaceholder(messages);
    assert !IsImageBlock(IMAGE_PLACEHOLDER);
    forall i | 0 <= i < |messages| && once[i].content.JArr?
      ensures ImageCount(once[i].content.items) == 0
    {
      NoImageNoCount(once[i].content.items);
    }
    var twice := ApplyImagePlaceholder(once);
    assert forall i :: 0 <= i < |messages| ==> twice[i] == once[i];
  }

  // ---------------------------------------------------------------------------------------
  // Token estimation

  /** The estimate for one item of a content array. */
  function ItemTokens(item: Value, tc: TokenCounter): nat
  {
    var ty := GetStr(item, "type");
    (match GetStr(item, "text") { case Some(t) => tc.text(t) case None => 0 })
    + (if ty == Some("image") then IMAGE_TOKENS else 0)
    + (if ty == Some("tool_use") then
         (match Get(item, "input") { case Some(input) => tc.json(input) case None => 0 }) + TOOL_BLOCK_TOKENS
       else 0)
    + (if ty == Some("tool_result") then
         (match Get(item, "content") {
            case Some(JStr(t)) => tc.text(t)
            case Some(c) => tc.json(c)
            case None => 0 }) + TOOL_BLOCK_TOKENS
       else 0)
  }

  function ItemsTokens(items: seq<Value>, tc: TokenCounter): nat
  {
    if items == [] then 0 else ItemsTokens(items[..|items| - 1], tc) + ItemTokens(items[|items| - 1], tc)
  }

  /** `estimate_message_tokens` as a value: a string content counts as text, other non-arrays 0. */
  function MessageTokens(m: Message, tc: TokenCounter): nat
  {
    match m.content
    case JStr(s) => tc.text(s)
    case JArr(items) => ItemsTokens(items, tc)
    case _ => 0
  }

  /** A tool-use or tool-result item. */
  predicate IsToolBlock(item: Value)
  {
    GetStr(item, "type") == Some("tool_use") || GetStr(item, "type") == Some("tool_result")
  }

  function ToolBlockCount(items: seq<Value>): nat
  {
    if items == [] then 0
    else ToolBlockCount(items[..|items| - 1]) + (if IsToolBlock(items[|items| - 1]) then 1 else 0)
  }

  /** Every image item adds 1000 and every tool item 50 to the estimate, whatever the tokenizer. */
  lemma {:induction false} ItemsTokensLowerBound(items: seq<Value>, tc: TokenCounter)
    ensures ItemsTokens(items, tc) >= IMAGE_TOKENS * ImageCount(items) + TOOL_BLOCK_TOKENS * ToolBlockCount(items)
  {
    if items != [] {
      ItemsTokensLowerBound(items[..|items| - 1], tc);
    }
  }

  /** With a tokenizer that counts nothing, the estimate is exactly the fixed per-block charges. */
  lemma {:induction false} ItemsTokensFixedCharges(items: seq<Value>, tc: TokenCounter)
    requires forall t :: tc.text(t) == 0
    requires forall v :: tc.json(v) == 0
    ensures ItemsTokens(items, tc) == IMAGE_TOKENS * ImageCount(items) + TOOL_BLOCK_TOKENS * ToolBlockCount(items)
  {
    if items != [] {
      ItemsTokensFixedCharges(items[..|items| - 1], tc);
    }
  }

  lemma MessageTokensOfOtherContent(m: Message, tc: TokenCounter)
    requires !m.content.JStr? && !m.content.JArr?
    ensures MessageTokens(m, tc) == 0
  {
  }

  function SystemTokens(sys: seq<SystemMessage>, tc: TokenCounter): nat
  {
    if sys == [] then 0 else SystemTokens(sys[..|sys| - 1], tc) + tc.text(sys[|sys| - 1].text)
  }

  function MessagesTokens(ms: seq<Message>, tc: TokenCounter): nat
  {
    if ms == [] then 0 else MessagesTokens(ms[..|ms| - 1], tc) + MessageTokens(ms[|ms| - 1], tc)
  }

  function ToolsTokens(tools: seq<Tool>, tc: TokenCounter): nat
  {
    if tools == [] then 0
    else
      var t := tools[|tools| - 1];
      ToolsTokens(tools[..|tools| - 1], tc) + tc.text(t.name) + tc.text(t.description) + tc.json(t.inputSchema)
  }

  /** `estimate_total_tokens` as a value: system, then messages, then tool definitions. */
  function TotalTokens(ms: seq<Message>, system: Option<seq<SystemMessage>>, tools: Option<seq<Tool>>, tc: TokenCounter): nat
  {
    (if system.Some? then SystemTokens(system.value, tc) else 0)
    + MessagesTokens(ms, tc)
    + (if tools.Some? then ToolsTokens(tools.value, tc) else 0)
  }

  /** Adding a message never lowers the estimate, and the estimate splits over concatenation. */
  lemma {:induction false} MessagesTokensAppend(a: seq<Message>, b: seq<Message>, tc: TokenCounter)
    ensures MessagesTokens(a + b, tc) == MessagesTokens(a, tc) + MessagesTokens(b, tc)
    decreases |b|
  {
    if b != [] {
      assert (a + b)[..|a + b| - 1] == a + b[..|b| - 1];
      MessagesTokensAppend(a, b[..|b| - 1], tc);
    } else {
      assert a + b == a;
    }
  }

  /** `estimate_message_tokens`: the loop over a content array. */
  method EstimateMessageTokens(m: Message, tc: TokenCounter) returns (total: nat)
    ensures total == MessageTokens(m, tc)
  {
    match m.content {
      case JStr(s) => total := tc.text(s);
      case JArr(items) =>
        total := 0;
        var i := 0;
        while i < |items|
          invariant 0 <= i <= |items|
          invariant total == ItemsTokens(items[..i], tc)
        {
          var item := items[i];
          var text := GetStr(item, "text");
          if text.Some? {
            total := total + tc.text(text.value);
          }
          var ty := GetStr(item, "type");
          if ty == Some("image") {
            total := total + IMAGE_TOKENS;
          }
          if ty == Some("tool_use") {
            var input := Get(item, "input");
            if input.Some? {
              total := total + tc.json(input.value);
            }
            total := total + TOOL_BLOCK_TOKENS;
          }
          if ty == Some("tool_result") {
            var content := Get(item, "content");
            if content.Some? {
              if content.value.JStr? {
                total := total + tc.text(content.value.s);
              } else {
                total := total + tc.json(content.value);
              }
            }
            total := total + TOOL_BLOCK_TOKENS;
          }
          assert items[..i + 1][..i] == items[..i];
          i := i + 1;
        }
        assert items[..|items|] == items;
      case _ => total := 0;
    }
  }

  /** `estimate_total_tokens`: three accumulating loops. */
  method EstimateTotalTokens(ms: seq<Message>, system: Option<seq<SystemMessage>>, tools: Option<seq<Tool>>, tc: TokenCounter)
    returns (total: nat)
    ensures total == TotalTokens(ms, system, tools, tc)
  {
    total := 0;
    if system.Some? {
      var sys := system.value;
      var i := 0;
      while i < |sys|
        invariant 0 <= i <= |sys|
        invariant total == SystemTokens(sys[..i], tc)
      {
        total := total + tc.text(sys[i].text);
        assert sys[..i + 1][..i] == sys[..i];
        i := i + 1;
      }
      assert sys[..|sys|] == sys;
    }
    var base := total;
    var j := 0;
    while j < |ms|
      invariant 0 <= j <= |ms|
      invariant total == base + MessagesTokens(ms[..j], tc)
    {
      var t := EstimateMessageTokens(ms[j], tc);
      total := total + t;
      assert ms[..j + 1][..j] == ms[..j];
      j := j + 1;
    }
    assert ms[..|ms|] == ms;
    if tools.Some? {
      var ts := tools.value;
      base := total;
      var k := 0;
      while k < |ts|
        invariant 0 <= k <= |ts|
        invariant total == base + ToolsTokens(ts[..k], tc)
      {
        total := total + tc.text(ts[k].name) + tc.text(ts[k].description) + tc.json(ts[k].inputSchema);
        assert ts[..k + 1][..k] == ts[..k];
        k := k + 1;
      }
      assert ts[..|ts|] == ts;
    }
  }

  // ---------------------------------------------------------------------------------------
  // Truncation

  /** The truncated history: a notice from the user, then exactly the last `keep` messages. */
  function Truncation(ms: seq<Message>, keep: nat): (r: seq<Message>)
    ensures |ms| <= keep ==> r == ms
    ensures |ms| > keep ==> |r| == keep + 1 && r[0] == NoticeMessage() && r[1..] == ms[|ms| - keep..]
  {
    if |ms| <= keep then ms else [NoticeMessage()] + ms[|ms| - keep..]
  }

  /** Truncating a truncated history again with the same bound changes nothing. */
  lemma TruncationIdempotent(ms: seq<Message>, keep: nat)
    ensures Truncation(Truncation(ms, keep), keep) == Truncation(ms, keep)
  {
    var once := Truncation(ms, keep);
    if |ms| > keep {
      assert once[|once| - keep..] == once[1..];
    }
  }

  /** The most recent `min(len, keep)` messages survive truncation, at the end and in order. */
  lemma TruncationKeepsRecent(ms: seq<Message>, keep: nat)
    ensures var r := Truncation(ms, keep);
      var n := if |ms| < keep then |ms| else keep;
      |r| >= n && r[|r| - n..] == ms[|ms| - n..]
    ensures |Truncation(ms, keep)| <= keep + 1
  {
    var r := Truncation(ms, keep);
    if |ms| > keep {
      assert r[|r| - keep..] == r[1..];
    }
  }

  /** `apply_truncation`: builds the result by pushing the notice and extending with the tail. */
  method ApplyTruncation(ms: seq<Message>, system: Option<seq<SystemMessage>>, keepRecent: nat)
    returns (r: seq<Message>, sys: Option<seq<SystemMessage>>)
    ensures r == Truncation(ms, keepRecent) && sys == system
  {
    if |ms| <= keepRecent {
      return ms, system;
    }
    var start := |ms| - keepRecent;
    var kept := ms[start..];
    r := [];
    r := r + [NoticeMessage()];
    r := r + kept;
    sys := system;
  }

  /** `apply_ai_summary`: not implemented upstream; it truncates to the last 20 messages. */
  method ApplyAiSummary(ms: seq<Message>, system: Option<seq<SystemMessage>>)
    returns (r: seq<Message>, sys: Option<seq<SystemMessage>>)
    ensures r == Truncation(ms, SUMMARY_KEEP_RECENT) && sys == system
  {
    r, sys := ApplyTruncation(ms, system, SUMMARY_KEEP_RECENT);
  }

  // ---------------------------------------------------------------------------------------
  // The strategy

  /** The messages after the placeholder step of an enabled configuration. */
  function Placeheld(cfg: HistoryConfig, ms: seq<Message>): seq<Message>
  {
    if cfg.enableImagePlaceholder then ApplyImagePlaceholder(ms) else ms
  }

  /** The history `manage_history` forwards, written as one expression over the strategy's decisions. */
  function ManagedMessages(cfg: HistoryConfig, ms: seq<Message>, system: Option<seq<SystemMessage>>,
                           tools: Option<seq<Tool>>, tc: TokenCounter): seq<Message>
  {
    if !cfg.enabled then ms
    else if TotalTokens(Placeheld(cfg, ms), system, tools, tc) <= cfg.truncateThreshold then Placeheld(cfg, ms)
    else Truncation(Placeheld(cfg, ms), if cfg.enableAiSummary then SUMMARY_KEEP_RECENT else cfg.keepRecentMessages)
  }

  /**
   * `manage_history`. Disabled: everything passes through and nothing is flagged. Enabled:
   * the placeholder flag follows the configuration; at or under the threshold the
   * placeheld history passes; above it exactly one of truncated or summarized is set, and
   * the history is truncated to `keep_recent_messages` or, for the summary, to 20.
   * The system prompt is never changed.
   */
  method ManageHistory(cfg: HistoryConfig, ms: seq<Message>, system: Option<seq<SystemMessage>>,
                       tools: Option<seq<Tool>>, tc: TokenCounter)
    returns (r: HistoryManagementResult)
    ensures r.system == system && r.messages == ManagedMessages(cfg, ms, system, tools, tc)
    ensures !cfg.enabled ==> (r.messages == ms && !r.truncated && !r.summarized && !r.imagePlaceholderApplied
      && r.originalTokens == r.processedTokens == TotalTokens(ms, system, tools, tc))
    ensures cfg.enabled ==> (r.imagePlaceholderApplied == cfg.enableImagePlaceholder
      && r.originalTokens == TotalTokens(Placeheld(cfg, ms), system, tools, tc))
    ensures cfg.enabled && r.originalTokens <= cfg.truncateThreshold ==>
      (r.messages == Placeheld(cfg, ms) && !r.truncated && !r.summarized && r.processedTokens == r.originalTokens)
    ensures cfg.enabled && r.originalTokens > cfg.truncateThreshold ==>
      (r.truncated != r.summarized && r.summarized == cfg.enableAiSummary
      && r.messages == Truncation(Placeheld(cfg, ms), if cfg.enableAiSummary then SUMMARY_KEEP_RECENT else cfg.keepRecentMessages)
      && r.processedTokens == TotalTokens(r.messages, system, tools, tc))
  {
    if !cfg.enabled {
      var original := EstimateTotalTokens(ms, system, tools, tc);
      return HistoryManagementResult(ms, system, false, false, false, original, original);
    }
    var processed := if cfg.enableImagePlaceholder then ApplyImagePlaceholder(ms) else ms;
    var applied := cfg.enableImagePlaceholder;
    var original := EstimateTotalTokens(processed, system, tools, tc);
    if original <= cfg.truncateThreshold {
      return HistoryManagementResult(processed, system, false, false, applied, original, original);
    }
    var finalMessages, finalSystem, truncated, summarized;
    if cfg.enableAiSummary {
      finalMessages, finalSystem := ApplyAiSummary(processed, system);
      truncated, summarized := false, true;
    } else {
      finalMessages, finalSystem := ApplyTruncation(processed, system, cfg.keepRecentMessages);
      truncated, summarized := true, false;
    }
    var processedTokens := EstimateTotalTokens(finalMessages, finalSystem, tools, tc);
    r := HistoryManagementResult(finalMessages, finalSystem, truncated, summarized, applied, original, processedTokens);
  }
}
