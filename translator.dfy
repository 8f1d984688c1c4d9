/** Translation between the OpenAI chat-completions schema spoken by the
    proxy's callers and the Anthropic messages schema spoken upstream
    (translator.py). Requests and responses are small typed records: every
    field a dictionary may lack is an `Option`, and every `d.get(k, default)`
    of the source is a `GetOr(default)` here. A key holding JSON null is
    read as an absent key, so the default applies where the source would
    carry None or raise. */
module Translator {
  import opened Wrappers
  import opened Json
  import opened Strings
  import opened Seqs

  // ---------------------------------------------------------------------
  // Model registry
  // ---------------------------------------------------------------------

  /** MODEL_MAP: caller-facing model names to upstream model identifiers, in
      the table's own order. */
  const ModelMap: seq<(string, string)> := [
    ("claude-3-5-sonnet-20241022", "claude-3-5-sonnet-20241022"),
    ("claude-3-5-haiku-20241022", "claude-3-5-haiku-20241022"),
    ("claude-3-opus-20240229", "claude-3-opus-20240229"),
    ("claude-3-sonnet-20240229", "claude-3-sonnet-20240229"),
    ("claude-3-haiku-20240307", "claude-3-haiku-20240307"),
    ("claude-sonnet-4", "claude-sonnet-4-20250514"),
    ("claude-3.5-sonnet", "claude-3-5-sonnet-20241022"),
    ("claude-3.5-haiku", "claude-3-5-haiku-20241022"),
    ("claude-opus-4", "claude-opus-4-20250514"),
    ("claude-sonnet", "claude-sonnet-4-20250514"),
    ("claude-opus", "claude-opus-4-20250514")
  ]

  /** The table is a dictionary: no name is listed twice. */
  lemma ModelMapIsDictionary()
    ensures DistinctKeys(ModelMap)
  {
    forall i, j | 0 <= i < j < |ModelMap| ensures ModelMap[i].0 != ModelMap[j].0 {
      assert i == 0 || i == 1 || i == 2 || i == 3 || i == 4 || i == 5 || i == 6 || i == 7 || i == 8 || i == 9;
      if i == 8 && j == 9 {
        assert ModelMap[i].0[7] != ModelMap[j].0[7];
      } else {
        assert |ModelMap[i].0| != |ModelMap[j].0|;
      }
    }
  }

  /** translate_model: a listed name becomes its upstream identifier, any other
      name is passed through unchanged. */
  function TranslateModel(name: string): (r: string)
    ensures forall i :: 0 <= i < |ModelMap| && ModelMap[i].0 == name ==> r == ModelMap[i].1
    ensures (forall i :: 0 <= i < |ModelMap| ==> ModelMap[i].0 != name) ==> r == name
  {
    ModelMapIsDictionary();
    assert forall i :: 0 <= i < |ModelMap| ==> Lookup(ModelMap, ModelMap[i].0) == Some(ModelMap[i].1) by {
      forall i | 0 <= i < |ModelMap| ensures Lookup(ModelMap, ModelMap[i].0) == Some(ModelMap[i].1) {
        LookupEntry(ModelMap, i);
      }
    }
    Lookup(ModelMap, name).GetOr(name)
  }

  /** Every upstream identifier in the table translates to itself: it is
      either listed as mapping to itself or not listed at all. */
  lemma ModelMapValuesAreFixed()
    ensures forall i :: 0 <= i < |ModelMap| ==> TranslateModel(ModelMap[i].1) == ModelMap[i].1
  {
    forall i | 0 <= i < |ModelMap| ensures TranslateModel(ModelMap[i].1) == ModelMap[i].1 {
      var v := ModelMap[i].1;
      assert i == 0 || i == 1 || i == 2 || i == 3 || i == 4 || i == 5 || i == 6 || i == 7 || i == 8 || i == 9 || i == 10;
      if i == 5 || i == 8 || i == 9 || i == 10 {
        // the two newest identifiers are not listed as names
        forall k | 0 <= k < |ModelMap| ensures ModelMap[k].0 != v {
          assert k == 0 || k == 1 || k == 2 || k == 3 || k == 4 || k == 5 || k == 6 || k == 7 || k == 8 || k == 9 || k == 10;
          assert |ModelMap[k].0| != |v| || ModelMap[k].0[7] != v[7];
        }
      } else {
        // every other identifier is listed as mapping to itself
        var k := if i == 6 then 0 else if i == 7 then 1 else i;
        assert ModelMap[k] == (v, v);
      }
    }
  }

  /** Translating a model name twice is the same as translating it once. */
  lemma TranslateModelIdempotent(name: string)
    ensures TranslateModel(TranslateModel(name)) == TranslateModel(name)
  {
    ModelMapValuesAreFixed();
    if i :| 0 <= i < |ModelMap| && ModelMap[i].0 == name {
      assert TranslateModel(name) == ModelMap[i].1;
    }
  }

  // ---------------------------------------------------------------------
  // Messages: openai_to_anthropic_messages
  // ---------------------------------------------------------------------

  /** One caller message: role, text content and, for a tool result, the id
      of the tool call it answers. */
  datatype ChatMessage = ChatMessage(role: Option<string>, content: Option<string>, toolCallId: Option<string>)

  /** One `tool_result` content block. */
  datatype ToolResultBlock = ToolResultBlock(toolUseId: string, content: string)

  /** Upstream message content: plain text or a list of tool-result blocks. */
  datatype MessageContent = PlainText(text: string) | ToolResults(blocks: seq<ToolResultBlock>)

  datatype AnthropicMessage = AnthropicMessage(role: string, content: MessageContent)

  function RoleOf(m: ChatMessage): string { m.role.GetOr("") }

  function ContentOf(m: ChatMessage): string { m.content.GetOr("") }

  /** The roles that carry over into the upstream message list. */
  predicate IsConversational(m: ChatMessage) {
    RoleOf(m) == "user" || RoleOf(m) == "assistant" || RoleOf(m) == "tool"
  }

  /** The upstream form of one caller message, or None for a message that
      does not go into the upstream list (system and unknown roles). */
  function ConvertMessage(m: ChatMessage): (r: Option<AnthropicMessage>)
    ensures r.Some? <==> IsConversational(m)
    ensures r.Some? ==> r.value.role == "user" || r.value.role == "assistant"
    ensures RoleOf(m) == "tool" ==>
      r.value.role == "user" && r.value.content.ToolResults? && |r.value.content.blocks| == 1 &&
      r.value.content.blocks[0] == ToolResultBlock(m.toolCallId.GetOr(""), ContentOf(m))
    ensures RoleOf(m) != "tool" && r.Some? ==> r.value == AnthropicMessage(RoleOf(m), PlainText(ContentOf(m)))
  {
    var role := RoleOf(m);
    if role == "user" || role == "assistant" then Some(AnthropicMessage(role, PlainText(ContentOf(m))))
    else if role == "tool" then
      Some(AnthropicMessage("user", ToolResults([ToolResultBlock(m.toolCallId.GetOr(""), ContentOf(m))])))
    else None
  }

  /** The upstream message list of openai_to_anthropic_messages. */
  function AnthropicMessages(msgs: seq<ChatMessage>): seq<AnthropicMessage> {
    FilterMap(ConvertMessage, msgs)
  }

  /** The upstream list has one message per user, assistant or tool message,
      in input order; it holds no system message, only user and assistant
      roles, and every other role is dropped. */
  lemma AnthropicMessagesShape(msgs: seq<ChatMessage>)
    ensures var out := AnthropicMessages(msgs);
      && |out| == |KeptIndices(ConvertMessage, msgs)|
      && (forall j :: 0 <= j < |out| ==> out[j].role == "user" || out[j].role == "assistant")
      && (forall i :: 0 <= i < |msgs| && IsConversational(msgs[i]) <==> i in KeptIndices(ConvertMessage, msgs))
      && (forall j :: 0 <= j < |out| ==> out[j] == ConvertMessage(msgs[KeptIndices(ConvertMessage, msgs)[j]]).value)
  {
    FilterMapKept(ConvertMessage, msgs);
    var out, idx := AnthropicMessages(msgs), KeptIndices(ConvertMessage, msgs);
    forall j | 0 <= j < |out| ensures out[j].role == "user" || out[j].role == "assistant" {
      assert out[j] == ConvertMessage(msgs[idx[j]]).value;
    }
    forall i ensures 0 <= i < |msgs| && IsConversational(msgs[i]) <==> i in idx {
      if i in idx {
        var j :| 0 <= j < |idx| && idx[j] == i;
      }
    }
  }

  /** Translating a conversation in two pieces gives the two translations one
      after the other. */
  lemma AnthropicMessagesAppend(a: seq<ChatMessage>, b: seq<ChatMessage>)
    ensures AnthropicMessages(a + b) == AnthropicMessages(a) + AnthropicMessages(b)
  {
    FilterMapAppend(ConvertMessage, a, b);
  }

  /** One step of the system-prompt accumulation: a non-empty prompt gets
      "\n\n" and the new content appended, an absent or empty one is replaced. */
  function AppendSystem(acc: Option<string>, content: string): Option<string> {
    if acc.Some? && acc.value != "" then Some(acc.value + "\n\n" + content) else Some(content)
  }

  /** The system prompt of openai_to_anthropic_messages, accumulated over the
      messages in order. */
  function SystemPrompt(msgs: seq<ChatMessage>): Option<string>
    decreases |msgs|
  {
    if |msgs| == 0 then None
    else
      var acc := SystemPrompt(msgs[..|msgs| - 1]);
      var m := msgs[|msgs| - 1];
      if RoleOf(m) == "system" then AppendSystem(acc, ContentOf(m)) else acc
  }

  /** The content of a system message, None for any other message. */
  function SystemContent(m: ChatMessage): Option<string> {
    if RoleOf(m) == "system" then Some(ContentOf(m)) else None
  }

  /** The contents of the system messages, in order. */
  function SystemContents(msgs: seq<ChatMessage>): seq<string> {
    FilterMap(SystemContent, msgs)
  }

  /** The system contents are those of the system messages, one per system
      message (empty ones included), in message order. */
  lemma SystemContentsShape(msgs: seq<ChatMessage>)
    ensures var cs, idx := SystemContents(msgs), KeptIndices(SystemContent, msgs);
      && |cs| == |idx|
      && (forall i :: 0 <= i < |msgs| && RoleOf(msgs[i]) == "system" <==> i in idx)
      && (forall j :: 0 <= j < |cs| ==> cs[j] == ContentOf(msgs[idx[j]]))
    ensures |SystemContents(msgs)| == 0 <==> forall i :: 0 <= i < |msgs| ==> RoleOf(msgs[i]) != "system"
  {
    FilterMapKept(SystemContent, msgs);
    var idx := KeptIndices(SystemContent, msgs);
    forall i ensures 0 <= i < |msgs| && RoleOf(msgs[i]) == "system" <==> i in idx {
      if i in idx {
        var j :| 0 <= j < |idx| && idx[j] == i;
      }
    }
  }

  /** `cs` without its leading empty strings. */
  function DropLeadingEmpty(cs: seq<string>): (r: seq<string>)
    ensures |r| == 0 || r[0] != ""
  {
    if |cs| == 0 then [] else if cs[0] == "" then DropLeadingEmpty(cs[1..]) else cs
  }

  /** The system prompt stated directly: none without system messages,
      otherwise the contents joined by "\n\n" from the first non-empty one on
      (empty contents before it are discarded by the replacement rule). */
  function JoinedSystem(cs: seq<string>): Option<string> {
    if |cs| == 0 then None else Some(Join("\n\n", DropLeadingEmpty(cs)))
  }

  lemma {:induction false} DropLeadingEmptyAppend(cs: seq<string>, c: string)
    ensures DropLeadingEmpty(cs) == [] ==> DropLeadingEmpty(cs + [c]) == DropLeadingEmpty([c])
    ensures DropLeadingEmpty(cs) != [] ==> DropLeadingEmpty(cs + [c]) == DropLeadingEmpty(cs) + [c]
  {
    if |cs| > 0 {
      assert (cs + [c])[1..] == cs[1..] + [c];
      DropLeadingEmptyAppend(cs[1..], c);
    }
  }

  /** Whether all of `cs` is empty text decides whether anything is left. */
  lemma {:induction false} DropLeadingEmptyIsEmpty(cs: seq<string>)
    ensures DropLeadingEmpty(cs) == [] <==> forall c :: c in cs ==> c == ""
  {
    if |cs| > 0 {
      DropLeadingEmptyIsEmpty(cs[1..]);
      assert cs == [cs[0]] + cs[1..];
      assert cs[0] in cs;
      assert forall c :: c in cs <==> c == cs[0] || c in cs[1..];
    }
  }

  /** One accumulation step agrees with the direct statement. */
  lemma AppendSystemJoined(cs: seq<string>, c: string)
    ensures AppendSystem(JoinedSystem(cs), c) == JoinedSystem(cs + [c])
  {
    DropLeadingEmptyAppend(cs, c);
    var d := DropLeadingEmpty(cs);
    if |cs| > 0 && d != [] {
      assert |Join("\n\n", d)| >= |d[0]| > 0;
      JoinSnoc("\n\n", d, c);
    }
  }

  /** The accumulated system prompt is the "\n\n"-join of the system contents
      from the first non-empty one on, and None when there is no system message. */
  lemma {:induction false} SystemPromptIsJoin(msgs: seq<ChatMessage>)
    ensures SystemPrompt(msgs) == JoinedSystem(SystemContents(msgs))
    decreases |msgs|
  {
    if |msgs| > 0 {
      var init := msgs[..|msgs| - 1];
      SystemPromptIsJoin(init);
      if RoleOf(msgs[|msgs| - 1]) == "system" {
        AppendSystemJoined(SystemContents(init), ContentOf(msgs[|msgs| - 1]));
      }
    }
  }

  /** Some system message has non-empty content. */
  predicate HasNonEmptySystem(msgs: seq<ChatMessage>) {
    exists i :: 0 <= i < |msgs| && RoleOf(msgs[i]) == "system" && ContentOf(msgs[i]) != ""
  }

  /** The prompt is present and non-empty exactly when some system message
      has non-empty content. */
  lemma SystemPromptNonEmpty(msgs: seq<ChatMessage>)
    ensures (SystemPrompt(msgs).Some? && SystemPrompt(msgs).value != "") <==> HasNonEmptySystem(msgs)
  {
    SystemPromptIsJoin(msgs);
    SystemContentsShape(msgs);
    var cs, idx := SystemContents(msgs), KeptIndices(SystemContent, msgs);
    DropLeadingEmptyIsEmpty(cs);
    var d := DropLeadingEmpty(cs);
    if d != [] {
      assert |Join("\n\n", d)| >= |d[0]| > 0;
      var c :| c in cs && c != "";
      var j :| 0 <= j < |cs| && cs[j] == c;
      assert RoleOf(msgs[idx[j]]) == "system";
    }
    if HasNonEmptySystem(msgs) {
      var i :| 0 <= i < |msgs| && RoleOf(msgs[i]) == "system" && ContentOf(msgs[i]) != "";
      var j :| 0 <= j < |idx| && idx[j] == i;
      assert cs[j] in cs;
    }
  }

  /** openai_to_anthropic_messages: the system prompt and the upstream message
      list, built by one pass over the caller's messages. */
  method ConvertMessages(msgs: seq<ChatMessage>) returns (system: Option<string>, out: seq<AnthropicMessage>)
    ensures system == SystemPrompt(msgs)
    ensures out == AnthropicMessages(msgs)
  {
    system := None;
    out := [];
    var i := 0;
    while i < |msgs|
      invariant 0 <= i <= |msgs|
      invariant system == SystemPrompt(msgs[..i])
      invariant out == AnthropicMessages(msgs[..i])
    {
      var msg := msgs[i];
      var role := msg.role.GetOr("");
      var content := msg.content.GetOr("");
      if role == "system" {
        if system.Some? && system.value != "" {
          system := Some(system.value + "\n\n" + content);
        } else {
          system := Some(content);
        }
      } else if role == "user" {
        out := out + [AnthropicMessage("user", PlainText(content))];
      } else if role == "assistant" {
        out := out + [AnthropicMessage("assistant", PlainText(content))];
      } else if role == "tool" {
        out := out + [AnthropicMessage("user", ToolResults([ToolResultBlock(msg.toolCallId.GetOr(""), content)]))];
      }
      assert msgs[..i + 1][..i] == msgs[..i];
      i := i + 1;
    }
    assert msgs[..i] == msgs;
  }

  // ---------------------------------------------------------------------
  // Tools: openai_to_anthropic_tools
  // ---------------------------------------------------------------------

  /** The `function` member of a caller tool definition. */
  datatype FunctionSpec = FunctionSpec(name: Option<string>, description: Option<string>, parameters: Option<Json>)

  /** A caller tool definition: its `type` and its `function`. */
  datatype ChatTool = ChatTool(kind: Option<string>, fn: Option<FunctionSpec>)

  datatype AnthropicTool = AnthropicTool(name: string, description: string, inputSchema: Json)

  predicate IsFunctionTool(t: ChatTool) { t.kind == Some("function") }

  /** The upstream definition of one caller tool, or None for a tool whose
      type is not "function". Missing fields default to "", "" and {}. */
  function ConvertTool(t: ChatTool): (r: Option<AnthropicTool>)
    ensures r.Some? <==> IsFunctionTool(t)
    ensures r.Some? && t.fn.None? ==> r.value == AnthropicTool("", "", EmptyObject)
    ensures r.Some? && t.fn.Some? ==>
      r.value == AnthropicTool(t.fn.value.name.GetOr(""), t.fn.value.description.GetOr(""),
                               t.fn.value.parameters.GetOr(EmptyObject))
  {
    if !IsFunctionTool(t) then None
    else
      var f := t.fn.GetOr(FunctionSpec(None, None, None));
      Some(AnthropicTool(f.name.GetOr(""), f.description.GetOr(""), f.parameters.GetOr(EmptyObject)))
  }

  /** The result of openai_to_anthropic_tools. */
  function AnthropicTools(tools: Option<seq<ChatTool>>): Option<seq<AnthropicTool>> {
    if tools.None? || |tools.value| == 0 then None
    else
      var converted := FilterMap(ConvertTool, tools.value);
      if |converted| == 0 then None else Some(converted)
  }

  /** No tool list comes out for an absent or empty list or one without a
      function tool; otherwise one definition per function tool, in order. */
  lemma AnthropicToolsShape(tools: Option<seq<ChatTool>>)
    ensures AnthropicTools(tools).None? <==>
      tools.None? || forall i :: 0 <= i < |tools.value| ==> !IsFunctionTool(tools.value[i])
    ensures AnthropicTools(tools).Some? ==>
      var out, idx := AnthropicTools(tools).value, KeptIndices(ConvertTool, tools.value);
      && |out| == |idx|
      && (forall i :: 0 <= i < |tools.value| && IsFunctionTool(tools.value[i]) <==> i in idx)
      && (forall j :: 0 <= j < |out| ==> out[j] == ConvertTool(tools.value[idx[j]]).value)
  {
    if tools.Some? {
      FilterMapKept(ConvertTool, tools.value);
      var idx := KeptIndices(ConvertTool, tools.value);
      forall i ensures 0 <= i < |tools.value| && IsFunctionTool(tools.value[i]) <==> i in idx {
        if i in idx {
          var j :| 0 <= j < |idx| && idx[j] == i;
        }
      }
    }
  }

  /** openai_to_anthropic_tools, as the source's loop. */
  method ConvertTools(tools: Option<seq<ChatTool>>) returns (r: Option<seq<AnthropicTool>>)
    ensures r == AnthropicTools(tools)
  {
    if tools.None? || |tools.value| == 0 {
      return None;
    }
    var ts := tools.value;
    var converted: seq<AnthropicTool> := [];
    var i := 0;
    while i < |ts|
      invariant 0 <= i <= |ts|
      invariant converted == FilterMap(ConvertTool, ts[..i])
    {
      var tool := ts[i];
      assert ts[..i + 1][..i] == ts[..i];
      i := i + 1;
      if tool.kind != Some("function") {
        continue;
      }
      var f := tool.fn.GetOr(FunctionSpec(None, None, None));
      converted := converted + [AnthropicTool(f.name.GetOr(""), f.description.GetOr(""), f.parameters.GetOr(EmptyObject))];
    }
    assert ts[..i] == ts;
    r := if |converted| > 0 then Some(converted) else None;
  }

  // ---------------------------------------------------------------------
  // Requests: openai_to_anthropic_request
  // ---------------------------------------------------------------------

  /** The caller's chat-completion request; None marks an absent key. */
  datatype ChatRequest = ChatRequest(
    model: Option<string>,
    messages: Option<seq<ChatMessage>>,
    maxTokens: Option<Json>,
    temperature: Option<Json>,
    topP: Option<Json>,
    stop: Option<Json>,
    tools: Option<seq<ChatTool>>,
    stream: Option<Json>)

  /** The upstream request; None marks a key the request does not carry, and
      `stream` is true exactly when the key is present (it is only ever True). */
  datatype AnthropicRequest = AnthropicRequest(
    model: string,
    messages: seq<AnthropicMessage>,
    maxTokens: Json,
    system: Option<string>,
    temperature: Option<Json>,
    topP: Option<Json>,
    stopSequences: Option<seq<Json>>,
    tools: Option<seq<AnthropicTool>>,
    stream: bool)

  const DefaultMaxTokens: int := 4096

  /** Whether the caller asked for a streamed response (`request.get("stream")` is truthy). */
  predicate WantsStream(req: ChatRequest) {
    req.stream.Some? && Truthy(req.stream.value)
  }

  /** The upstream request built from a caller request. */
  function AnthropicRequestOf(req: ChatRequest): (r: AnthropicRequest)
    ensures r.model == TranslateModel(req.model.GetOr(""))
    ensures r.maxTokens == (if req.maxTokens.Some? then req.maxTokens.value else JNum(DefaultMaxTokens))
    ensures r.messages == AnthropicMessages(req.messages.GetOr([]))
    ensures r.system.Some? <==> HasNonEmptySystem(req.messages.GetOr([]))
    ensures r.system.Some? ==> r.system == SystemPrompt(req.messages.GetOr([]))
    ensures r.temperature == req.temperature && r.topP == req.topP
    ensures req.stop.Some? && req.stop.value.JStr? ==> r.stopSequences == Some([req.stop.value])
    ensures req.stop.Some? && req.stop.value.JArr? ==> r.stopSequences == Some(req.stop.value.items)
    ensures r.stopSequences.Some? ==> req.stop.Some? && (req.stop.value.JStr? || req.stop.value.JArr?)
    ensures r.tools == AnthropicTools(req.tools)
    ensures r.stream <==> WantsStream(req)
  {
    var msgs := req.messages.GetOr([]);
    SystemPromptNonEmpty(msgs);
    var system := SystemPrompt(msgs);
    AnthropicRequest(
      TranslateModel(req.model.GetOr("")),
      AnthropicMessages(msgs),
      req.maxTokens.GetOr(JNum(DefaultMaxTokens)),
      if system.Some? && system.value != "" then system else None,
      req.temperature,
      req.topP,
      match req.stop
      case Some(JStr(s)) => Some([JStr(s)])
      case Some(JArr(items)) => Some(items)
      case _ => None,
      AnthropicTools(req.tools),
      WantsStream(req))
  }

  /** openai_to_anthropic_request: the upstream request, assembled by
      conditional key insertion. */
  method ConvertRequest(req: ChatRequest) returns (r: AnthropicRequest)
    ensures r == AnthropicRequestOf(req)
  {
    var system, messages := ConvertMessages(req.messages.GetOr([]));
    r := AnthropicRequest(TranslateModel(req.model.GetOr("")), messages,
                          req.maxTokens.GetOr(JNum(DefaultMaxTokens)), None, None, None, None, None, false);
    if system.Some? && system.value != "" {
      r := r.(system := system);
    }
    if req.temperature.Some? {
      r := r.(temperature := req.temperature);
    }
    if req.topP.Some? {
      r := r.(topP := req.topP);
    }
    if req.stop.Some? {
      var stop := req.stop.value;
      if stop.JStr? {
        r := r.(stopSequences := Some([stop]));
      } else if stop.JArr? {
        r := r.(stopSequences := Some(stop.items));
      }
    }
    var tools := ConvertTools(req.tools);
    if tools.Some? {
      r := r.(tools := tools);
    }
    if req.stream.Some? && Truthy(req.stream.value) {
      r := r.(stream := true);
    }
  }

  // ---------------------------------------------------------------------
  // Complete responses: anthropic_to_openai_response
  // ---------------------------------------------------------------------

  /** One upstream content block; blocks of other types (thinking, ...) are
      kept so that positions are counted as the source counts them. */
  datatype ContentBlock =
    | TextBlock(text: Option<string>)
    | ToolUseBlock(id: Option<string>, name: Option<string>, input: Option<Json>)
    | OtherBlock(kind: Option<string>)

  datatype Usage = Usage(inputTokens: Option<int>, outputTokens: Option<int>)

  /** A complete upstream response. */
  datatype AnthropicResponse = AnthropicResponse(
    id: Option<string>,
    content: Option<seq<ContentBlock>>,
    stopReason: Option<string>,
    usage: Option<Usage>)

  /** One caller-facing tool call of type "function"; `arguments` is the value
      whose JSON text the source sends. */
  datatype ToolCall = ToolCall(id: string, name: string, arguments: Json)

  /** The assistant message: None content is JSON null, None tool calls an
      absent key. */
  datatype AssistantMessage = AssistantMessage(content: Option<string>, toolCalls: Option<seq<ToolCall>>)

  datatype CompletionUsage = CompletionUsage(promptTokens: int, completionTokens: int, totalTokens: int)

  /** A `chat.completion` object with its single choice (index 0). */
  datatype ChatCompletion = ChatCompletion(
    id: string,
    model: string,
    message: AssistantMessage,
    finishReason: string,
    usage: CompletionUsage)

  /** The stop-reason table shared by both response paths; unknown reasons map to "stop". */
  function FinishReason(stopReason: string): (r: string)
    ensures r == "stop" || r == "length" || r == "tool_calls"
    ensures r == "length" <==> stopReason == "max_tokens"
    ensures r == "tool_calls" <==> stopReason == "tool_use"
  {
    if stopReason == "end_turn" then "stop"
    else if stopReason == "max_tokens" then "length"
    else if stopReason == "stop_sequence" then "stop"
    else if stopReason == "tool_use" then "tool_calls"
    else "stop"
  }

  /** The text of a text block, None for other blocks. */
  function BlockText(b: ContentBlock): Option<string> {
    if b.TextBlock? then Some(b.text.GetOr("")) else None
  }

  /** Concatenation of a list of strings, left to right. */
  function Concat(parts: seq<string>): string
    decreases |parts|
  {
    if |parts| == 0 then "" else Concat(parts[..|parts| - 1]) + parts[|parts| - 1]
  }

  /** The assistant text: the texts of the text blocks, concatenated in order. */
  function TextOf(blocks: seq<ContentBlock>): string {
    Concat(FilterMap(BlockText, blocks))
  }

  /** The blocks paired with their positions, as `enumerate` yields them. */
  function Enumerate(blocks: seq<ContentBlock>): seq<(int, ContentBlock)> {
    seq(|blocks|, i requires 0 <= i < |blocks| => (i, blocks[i]))
  }

  /** The tool call for the block at position `i`, or None if it is not a
      tool_use block; a missing id defaults to "call_" followed by `i`. */
  function ConvertToolUse(entry: (int, ContentBlock)): (r: Option<ToolCall>)
    ensures r.Some? <==> entry.1.ToolUseBlock?
    ensures r.Some? && entry.1.id.Some? ==> r.value.id == entry.1.id.value
    ensures r.Some? && entry.1.id.None? && entry.0 >= 0 ==> r.value.id == "call_" + NatToString(entry.0)
    ensures r.Some? ==> r.value.name == entry.1.name.GetOr("") && r.value.arguments == entry.1.input.GetOr(EmptyObject)
  {
    var (i, b) := entry;
    if b.ToolUseBlock? then
      Some(ToolCall(b.id.GetOr("call_" + NatToString(if i < 0 then 0 else i)), b.name.GetOr(""), b.input.GetOr(EmptyObject)))
    else None
  }

  /** The tool calls, one per tool_use block, in order. */
  function ToolCallsOf(blocks: seq<ContentBlock>): seq<ToolCall> {
    FilterMap(ConvertToolUse, Enumerate(blocks))
  }

  /** There is one tool call per tool_use block, in block order, each carrying
      the block's id or "call_<position>" when the block has none. */
  lemma ToolCallsShape(blocks: seq<ContentBlock>)
    ensures var calls, idx := ToolCallsOf(blocks), KeptIndices(ConvertToolUse, Enumerate(blocks));
      && |calls| == |idx|
      && (forall i :: 0 <= i < |blocks| && blocks[i].ToolUseBlock? <==> i in idx)
      && (forall j :: 0 <= j < |calls| ==>
            calls[j].id == blocks[idx[j]].id.GetOr("call_" + NatToString(idx[j])) &&
            calls[j].name == blocks[idx[j]].name.GetOr("") &&
            calls[j].arguments == blocks[idx[j]].input.GetOr(EmptyObject))
  {
    var entries := Enumerate(blocks);
    FilterMapKept(ConvertToolUse, entries);
    var idx := KeptIndices(ConvertToolUse, entries);
    forall i ensures 0 <= i < |blocks| && blocks[i].ToolUseBlock? <==> i in idx {
      if i in idx {
        var j :| 0 <= j < |idx| && idx[j] == i;
      }
    }
  }

  function UsageOf(usage: Option<Usage>): (r: CompletionUsage)
    ensures r.totalTokens == r.promptTokens + r.completionTokens
    ensures r.promptTokens == (if usage.Some? then usage.value.inputTokens.GetOr(0) else 0)
    ensures r.completionTokens == (if usage.Some? then usage.value.outputTokens.GetOr(0) else 0)
  {
    var u := usage.GetOr(Usage(None, None));
    var input, output := u.inputTokens.GetOr(0), u.outputTokens.GetOr(0);
    CompletionUsage(input, output, input + output)
  }

  /** The `chat.completion` built from a complete upstream response. */
  function ChatCompletionOf(resp: AnthropicResponse, model: string): (r: ChatCompletion)
    ensures r.message.content.None? <==> TextOf(resp.content.GetOr([])) == ""
    ensures r.message.content.Some? ==> r.message.content.value == TextOf(resp.content.GetOr([]))
    ensures r.message.toolCalls.None? <==> forall i :: 0 <= i < |resp.content.GetOr([])| ==> !resp.content.GetOr([])[i].ToolUseBlock?
    ensures r.message.toolCalls.Some? ==> r.message.toolCalls.value == ToolCallsOf(resp.content.GetOr([]))
    ensures r.finishReason == FinishReason(resp.stopReason.GetOr("end_turn"))
    ensures r.usage == UsageOf(resp.usage)
    ensures r.id == resp.id.GetOr("chatcmpl-anthropic") && r.model == model
  {
    var blocks := resp.content.GetOr([]);
    var text, calls := TextOf(blocks), ToolCallsOf(blocks);
    assert forall i :: 0 <= i < |blocks| ==> Enumerate(blocks)[i] == (i, blocks[i]);
    ChatCompletion(
      resp.id.GetOr("chatcmpl-anthropic"),
      model,
      AssistantMessage(if text != "" then Some(text) else None, if |calls| > 0 then Some(calls) else None),
      FinishReason(resp.stopReason.GetOr("end_turn")),
      UsageOf(resp.usage))
  }

  /** anthropic_to_openai_response: one pass over the content blocks that
      accumulates the text and the tool calls. */
  method ConvertResponse(resp: AnthropicResponse, model: string) returns (r: ChatCompletion)
    ensures r == ChatCompletionOf(resp, model)
  {
    var blocks := resp.content.GetOr([]);
    var text := "";
    var calls: seq<ToolCall> := [];
    var i := 0;
    while i < |blocks|
      invariant 0 <= i <= |blocks|
      invariant text == Concat(FilterMap(BlockText, blocks[..i]))
      invariant calls == FilterMap(ConvertToolUse, Enumerate(blocks)[..i])
    {
      var block := blocks[i];
      FilterMapStep(BlockText, blocks, i);
      FilterMapStep(ConvertToolUse, Enumerate(blocks), i);
      if block.TextBlock? {
        text := text + block.text.GetOr("");
      } else if block.ToolUseBlock? {
        calls := calls + [ToolCall(block.id.GetOr("call_" + NatToString(i)), block.name.GetOr(""), block.input.GetOr(EmptyObject))];
      }
      i := i + 1;
    }
    assert blocks[..i] == blocks;
    assert Enumerate(blocks)[..i] == Enumerate(blocks);
    var message := AssistantMessage(if text != "" then Some(text) else None, None);
    if |calls| > 0 {
      message := message.(toolCalls := Some(calls));
    }
    var u := resp.usage.GetOr(Usage(None, None));
    r := ChatCompletion(
      resp.id.GetOr("chatcmpl-anthropic"),
      model,
      message,
      FinishReason(resp.stopReason.GetOr("end_turn")),
      CompletionUsage(u.inputTokens.GetOr(0), u.outputTokens.GetOr(0), u.inputTokens.GetOr(0) + u.outputTokens.GetOr(0)));
  }

  // ---------------------------------------------------------------------
  // Streamed responses: anthropic_stream_to_openai_stream
  // ---------------------------------------------------------------------

  datatype StartedMessage = StartedMessage(id: Option<string>)

  /** The `delta` of a content_block_delta or message_delta event. */
  datatype EventDelta = EventDelta(kind: Option<string>, text: Option<string>, partialJson: Option<string>, stopReason: Option<string>)

  /** The `content_block` of a content_block_start event. */
  datatype StartedBlock = StartedBlock(kind: Option<string>, id: Option<string>, name: Option<string>)

  /** The decoded payload of one upstream `data:` line. */
  datatype EventData = EventData(
    message: Option<StartedMessage>,
    delta: Option<EventDelta>,
    index: Option<int>,
    contentBlock: Option<StartedBlock>)

  /** The `delta` of a caller-facing chunk. */
  datatype ChunkDelta =
    | RoleDelta                                         // {"role": "assistant", "content": ""}
    | ContentDelta(text: string)                        // {"content": text}
    | ToolCallStart(index: int, id: string, name: string) // a new function tool call, arguments ""
    | ToolArgumentsDelta(index: int, arguments: string) // more argument text for tool call `index`
    | EmptyDelta                                        // {}

  /** A `chat.completion.chunk` with its single choice (index 0). */
  datatype Chunk = Chunk(id: string, model: string, delta: ChunkDelta, finishReason: Option<string>)

  const DefaultChunkId: string := "chatcmpl-anthropic"

  /** The one caller chunk for an upstream event, or None when the event has none. */
  function StreamChunk(eventType: string, data: EventData, model: string): (r: Option<Chunk>)
    ensures r.Some? ==> r.value.model == model
    ensures eventType == "message_start" ==>
      r.Some? && r.value.delta == RoleDelta && r.value.finishReason.None? &&
      r.value.id == (if data.message.Some? then data.message.value.id.GetOr(DefaultChunkId) else DefaultChunkId)
    ensures eventType == "content_block_delta" ==>
      (r.Some? <==> data.delta.Some? && data.delta.value.kind in {Some("text_delta"), Some("input_json_delta")})
    ensures eventType == "content_block_start" ==>
      (r.Some? <==> data.contentBlock.Some? && data.contentBlock.value.kind == Some("tool_use"))
    ensures eventType == "message_delta" ==>
      (r.Some? <==> data.delta.Some? && data.delta.value.stopReason.Some? && data.delta.value.stopReason.value != "")
    ensures eventType == "message_delta" && r.Some? ==>
      r.value == Chunk(DefaultChunkId, model, EmptyDelta, Some(FinishReason(data.delta.value.stopReason.value)))
    ensures eventType == "message_stop" ==> r == Some(Chunk(DefaultChunkId, model, EmptyDelta, Some("stop")))
    ensures eventType !in {"message_start", "content_block_delta", "content_block_start", "message_delta", "message_stop"} ==>
      r.None?
    ensures r.Some? && r.value.finishReason.Some? ==> eventType == "message_delta" || eventType == "message_stop"
    ensures eventType == "content_block_delta" && data.delta.Some? && data.delta.value.kind == Some("text_delta") ==>
      r == Some(Chunk(DefaultChunkId, model, ContentDelta(data.delta.value.text.GetOr("")), None))
    ensures eventType == "content_block_delta" && data.delta.Some? && data.delta.value.kind == Some("input_json_delta") ==>
      r == Some(Chunk(DefaultChunkId, model,
                      ToolArgumentsDelta(data.index.GetOr(0), data.delta.value.partialJson.GetOr("")), None))
    ensures eventType == "content_block_start" && data.contentBlock.Some? && data.contentBlock.value.kind == Some("tool_use") ==>
      r == Some(Chunk(DefaultChunkId, model,
                      ToolCallStart(data.index.GetOr(0), data.contentBlock.value.id.GetOr(""),
                                    data.contentBlock.value.name.GetOr("")), None))
    ensures eventType != "message_start" && r.Some? ==> r.value.id == DefaultChunkId
  {
    var delta := data.delta.GetOr(EventDelta(None, None, None, None));
    if eventType == "message_start" then
      var id := if data.message.Some? then data.message.value.id.GetOr(DefaultChunkId) else DefaultChunkId;
      Some(Chunk(id, model, RoleDelta, None))
    else if eventType == "content_block_delta" then
      if delta.kind == Some("text_delta") then
        Some(Chunk(DefaultChunkId, model, ContentDelta(delta.text.GetOr("")), None))
      else if delta.kind == Some("input_json_delta") then
        Some(Chunk(DefaultChunkId, model, ToolArgumentsDelta(data.index.GetOr(0), delta.partialJson.GetOr("")), None))
      else None
    else if eventType == "content_block_start" then
      var block := data.contentBlock.GetOr(StartedBlock(None, None, None));
      if block.kind == Some("tool_use") then
        Some(Chunk(DefaultChunkId, model, ToolCallStart(data.index.GetOr(0), block.id.GetOr(""), block.name.GetOr("")), None))
      else None
    else if eventType == "message_delta" then
      if delta.stopReason.Some? && delta.stopReason.value != "" then
        Some(Chunk(DefaultChunkId, model, EmptyDelta, Some(FinishReason(delta.stopReason.value))))
      else None
    else if eventType == "message_stop" then
      Some(Chunk(DefaultChunkId, model, EmptyDelta, Some("stop")))
    else None
  }
}
