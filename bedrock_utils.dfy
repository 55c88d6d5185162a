/** The adapters between the OpenAI chat format the benchmark speaks and the Bedrock Converse
    format: chat messages to Bedrock messages (the system prompt folded into the first user
    turn, tool answers turned into `toolResult` user turns), OpenAI tool definitions to a
    Bedrock tool configuration (with the schema defaults Bedrock insists on), and a Bedrock
    reply back to an OpenAI assistant message. Each converter is a method whose loop appends
    to its result as the Python code does, proved equal to a specification function, about
    which the properties are then proved. */
module BedrockConversion {
  import opened Wrappers
  import opened Strings
  import opened JsonValues

  // ---------------------------------------------------------------------------
  // The Bedrock Converse shapes

  /** A Bedrock message: a role and a list of content blocks. */
  function Turn(role: string, blocks: seq<Json>): Json {
    Obj(map["role" := Str(role), "content" := Arr(blocks)])
  }

  function TextBlock(text: Json): Json {
    Obj(map["text" := text])
  }

  function ToolUseBlock(id: Json, name: Json, input: Json): Json {
    Obj(map["toolUse" := Obj(map["toolUseId" := id, "name" := name, "input" := input])])
  }

  function ToolResultBlock(id: Json, result: Json): Json {
    Obj(map["toolResult" := Obj(map["toolUseId" := id, "content" := Arr([Obj(map["json" := result])])])])
  }

  /** The f-string that folds the system prompt into the first user message. */
  function SystemPrompt(system: Json, content: Json, codec: Codec): string {
    "<system>\n" + Show(system, codec) + "\n</system>\n\n" + Show(content, codec)
  }

  /** `json.loads(x)`: a string that does not parse raises a decoding error, anything that is
      not a string a type error. */
  function Loads(x: Json, loads: string -> Option<Json>): Result<Json, PyError> {
    match x
    case Str(s) => (match loads(s) case Some(v) => Success(v) case None => Failure(DecodeError(s)))
    case _ => Failure(TypeError)
  }

  function OptionToSeq<T>(o: Option<T>): seq<T> {
    if o.Some? then [o.value] else []
  }

  // ---------------------------------------------------------------------------
  // convert_openai_to_bedrock_messages

  /** `msg.get('role') == role` on a dict. */
  predicate IsRole(msg: Json, role: string) {
    msg.Obj? && Get(msg.fields, "role", Null) == Str(role)
  }

  /** The messages the converter emits something for. */
  predicate Emits(msg: Json) {
    IsRole(msg, "user") || IsRole(msg, "assistant") || IsRole(msg, "tool")
  }

  /** The messages that are emitted, in input order. */
  function Kept(messages: seq<Json>): (r: seq<Json>)
    ensures |r| <= |messages|
    decreases |messages|
  {
    if messages == [] then []
    else
      var last := messages[|messages| - 1];
      Kept(messages[..|messages| - 1]) + (if Emits(last) then [last] else [])
  }

  /** The first loop: the content of the first system message, or None when there is none.
      Every message before it is asked for its role, so one that is not a dict raises. */
  function SystemContent(messages: seq<Json>): Result<Json, PyError>
    decreases |messages|
  {
    if messages == [] then Success(Null)
    else
      var msg :- AsDict(messages[0]);
      if Get(msg, "role", Null) == Str("system") then Success(Get(msg, "content", Null))
      else SystemContent(messages[1..])
  }

  /** What iterating `tool_calls` yields, given that `.get` is called on every element: an
      empty string or dict yields nothing, a non-empty one yields strings, on which `.get`
      raises, and anything else cannot be iterated. */
  function ToolCallItems(x: Json): Result<seq<Json>, PyError> {
    match x
    case Arr(items) => Success(items)
    case Str(s) => if s == "" then Success([]) else Failure(AttributeError)
    case Obj(fields) => if |fields| == 0 then Success([]) else Failure(AttributeError)
    case _ => Failure(TypeError)
  }

  /** A tool call of type 'function'. */
  predicate IsFunctionCall(call: Json) {
    call.Obj? && Get(call.fields, "type", Null) == Str("function")
  }

  /** The `toolUse` block for one OpenAI tool call, or nothing when it is not a function call. */
  function ToolUse(call: Json, loads: string -> Option<Json>): (r: Result<Option<Json>, PyError>)
    ensures r.Success? ==> call.Obj? && (r.value.Some? <==> IsFunctionCall(call))
  {
    var c :- AsDict(call);
    if Get(c, "type", Null) != Str("function") then Success(None)
    else
      var fn :- AsDict(Get(c, "function", Obj(map[])));
      var input :- Loads(Get(fn, "arguments", Str("{}")), loads);
      Success(Some(ToolUseBlock(Get(c, "id", Str("")), Get(fn, "name", Str("")), input)))
  }

  /** The inner loop over an assistant message's tool calls. */
  function ToolUses(calls: seq<Json>, loads: string -> Option<Json>): Result<seq<Json>, PyError>
    decreases |calls|
  {
    if calls == [] then Success([])
    else
      var prior :- ToolUses(calls[..|calls| - 1], loads);
      var next :- ToolUse(calls[|calls| - 1], loads);
      Success(prior + OptionToSeq(next))
  }

  /** The function calls among the tool calls, in order. */
  function FunctionCalls(calls: seq<Json>): (r: seq<Json>)
    ensures |r| <= |calls|
    decreases |calls|
  {
    if calls == [] then []
    else
      var last := calls[|calls| - 1];
      FunctionCalls(calls[..|calls| - 1]) + (if IsFunctionCall(last) then [last] else [])
  }

  /** The content blocks of an assistant turn: a truthy text first, then the tool uses. */
  function AssistantBlocks(content: Json, uses: seq<Json>): seq<Json> {
    (if Truthy(content) then [TextBlock(content)] else []) + uses
  }

  /** One pass of the second loop: what the message adds to the output, if anything.
      `first` says whether nothing has been emitted yet. */
  function ConvertMessage(msg: Json, system: Json, first: bool, codec: Codec): (r: Result<Option<Json>, PyError>)
    ensures r.Success? ==> msg.Obj? && (r.value.Some? <==> Emits(msg))
    ensures r.Success? && r.value.Some? ==>
              r.value.value.Obj? && "role" in r.value.value.fields
              && r.value.value.fields["role"] == Str(if IsRole(msg, "assistant") then "assistant" else "user")
  {
    var d :- AsDict(msg);
    var role := Get(d, "role", Null);
    var content := Get(d, "content", Null);
    if role == Str("system") then Success(None)
    else if role == Str("user") then
      var text := if Truthy(system) && first then Str(SystemPrompt(system, content, codec)) else content;
      Success(Some(Turn("user", [TextBlock(text)])))
    else if role == Str("assistant") then
      if "tool_calls" in d then
        var calls :- ToolCallItems(d["tool_calls"]);
        var uses :- ToolUses(calls, codec.loads);
        Success(Some(Turn("assistant", AssistantBlocks(content, uses))))
      else
        Success(Some(Turn("assistant", [TextBlock(content)])))
    else if role == Str("tool") then
      var result :- Loads(content, codec.loads);
      Success(Some(Turn("user", [ToolResultBlock(Get(d, "tool_call_id", Str("")), result)])))
    else Success(None)
  }

  /** The second loop over the first `|messages|` messages. */
  function ConvertMessages(messages: seq<Json>, system: Json, codec: Codec): Result<seq<Json>, PyError>
    decreases |messages|
  {
    if messages == [] then Success([])
    else
      var prior :- ConvertMessages(messages[..|messages| - 1], system, codec);
      var next :- ConvertMessage(messages[|messages| - 1], system, prior == [], codec);
      Success(prior + OptionToSeq(next))
  }

  /** `convert_openai_to_bedrock_messages`. */
  function BedrockMessages(messages: seq<Json>, codec: Codec): Result<seq<Json>, PyError> {
    var system :- SystemContent(messages);
    ConvertMessages(messages, system, codec)
  }

  /** `convert_openai_to_bedrock_messages`, loop for loop. */
  method ConvertOpenAIToBedrockMessages(messages: seq<Json>, codec: Codec) returns (r: Result<seq<Json>, PyError>)
    ensures r == BedrockMessages(messages, codec)
  {
    var system := Null;
    var i := 0;
    while i < |messages|
      invariant i <= |messages|
      invariant SystemContent(messages[i..]) == SystemContent(messages)
      invariant system == Null
    {
      var msg :- AsDict(messages[i]);
      if Get(msg, "role", Null) == Str("system") {
        system := Get(msg, "content", Null);
        break;
      }
      assert messages[i..][1..] == messages[i + 1..];
      i := i + 1;
    }
    assert SystemContent(messages) == Success(system);

    var converted: seq<Json> := [];
    for j := 0 to |messages|
      invariant ConvertMessages(messages[..j], system, codec) == Success(converted)
    {
      ConvertMessagesStopsAtFailure(messages, system, codec, j + 1);
      assert messages[..j + 1][..j] == messages[..j];
      var next :- ConvertOne(messages[j], system, |converted| == 0, codec);
      assert messages[..j + 1][j] == messages[j];
      assert ConvertMessages(messages[..j + 1], system, codec) == Success(converted + OptionToSeq(next));
      if next.Some? {
        converted := converted + [next.value];
      } else {
        assert converted + OptionToSeq(next) == converted;
      }
    }
    assert messages[..|messages|] == messages;
    r := Success(converted);
  }

  /** The body of the second loop of `ConvertOpenAIToBedrockMessages`, written as the
      source's branches on the message's role and proved equal to `ConvertMessage`. */
  method ConvertOne(msg: Json, system: Json, first: bool, codec: Codec) returns (r: Result<Option<Json>, PyError>)
    ensures r == ConvertMessage(msg, system, first, codec)
  {
    var d :- AsDict(msg);
    var role := Get(d, "role", Null);
    var content := Get(d, "content", Null);
    if role == Str("system") {
      // folded into the first user message instead
      return Success(None);
    } else if role == Str("user") {
      var text := content;
      if Truthy(system) && first {
        text := Str(SystemPrompt(system, content, codec));
      }
      return Success(Some(Turn("user", [TextBlock(text)])));
    } else if role == Str("assistant") {
      if "tool_calls" in d {
        var calls :- ToolCallItems(d["tool_calls"]);
        var uses :- CollectToolUses(calls, codec.loads);
        var blocks := uses;
        if Truthy(content) {
          blocks := [TextBlock(content)] + blocks;
        }
        assert blocks == AssistantBlocks(content, uses);
        return Success(Some(Turn("assistant", blocks)));
      } else {
        return Success(Some(Turn("assistant", [TextBlock(content)])));
      }
    } else if role == Str("tool") {
      var id := Get(d, "tool_call_id", Str(""));
      var result :- Loads(content, codec.loads);
      return Success(Some(Turn("user", [ToolResultBlock(id, result)])));
    }
    return Success(None);
  }

  /** The loop over an assistant message's tool calls. */
  method CollectToolUses(calls: seq<Json>, loads: string -> Option<Json>) returns (r: Result<seq<Json>, PyError>)
    ensures r == ToolUses(calls, loads)
  {
    var blocks: seq<Json> := [];
    for k := 0 to |calls|
      invariant ToolUses(calls[..k], loads) == Success(blocks)
    {
      ToolUsesStopAtFailure(calls, loads, k + 1);
      assert calls[..k + 1][..k] == calls[..k];
      var call :- AsDict(calls[k]);
      if Get(call, "type", Null) == Str("function") {
        var fn :- AsDict(Get(call, "function", Obj(map[])));
        var input :- Loads(Get(fn, "arguments", Str("{}")), loads);
        var block := ToolUseBlock(Get(call, "id", Str("")), Get(fn, "name", Str("")), input);
        assert ToolUse(calls[k], loads) == Success(Some(block));
        assert ToolUses(calls[..k + 1], loads) == Success(blocks + [block]) by {
          assert calls[..k + 1][k] == calls[k];
        }
        blocks := blocks + [block];
      } else {
        assert ToolUse(calls[k], loads) == Success(None);
        assert ToolUses(calls[..k + 1], loads) == Success(blocks + []) by {
          assert calls[..k + 1][k] == calls[k];
        }
        assert blocks + [] == blocks;
      }
    }
    assert calls[..|calls|] == calls;
    r := Success(blocks);
  }

  /** A message that raises ends the conversion with its error. */
  lemma {:induction false} ConvertMessagesStopsAtFailure(messages: seq<Json>, system: Json, codec: Codec, n: nat)
    requires n <= |messages|
    ensures ConvertMessages(messages[..n], system, codec).Failure? ==>
              ConvertMessages(messages, system, codec) == ConvertMessages(messages[..n], system, codec)
    decreases |messages|
  {
    if n < |messages| && ConvertMessages(messages[..n], system, codec).Failure? {
      var prefix := messages[..|messages| - 1];
      assert prefix[..n] == messages[..n];
      ConvertMessagesStopsAtFailure(prefix, system, codec, n);
    } else if n == |messages| {
      assert messages[..n] == messages;
    }
  }

  /** A tool call that raises ends the inner loop with its error. */
  lemma {:induction false} ToolUsesStopAtFailure(calls: seq<Json>, loads: string -> Option<Json>, n: nat)
    requires n <= |calls|
    ensures ToolUses(calls[..n], loads).Failure? ==> ToolUses(calls, loads) == ToolUses(calls[..n], loads)
    decreases |calls|
  {
    if n < |calls| && ToolUses(calls[..n], loads).Failure? {
      var prefix := calls[..|calls| - 1];
      assert prefix[..n] == calls[..n];
      ToolUsesStopAtFailure(prefix, loads, n);
    } else if n == |calls| {
      assert calls[..n] == calls;
    }
  }

  /** The system prompt is the content of the first system message, and that content is
      the system prompt; the messages before it are dicts with another role. Without a
      system message it is None. */
  lemma {:induction false} SystemContentIsFirstSystem(messages: seq<Json>, system: Json)
    requires SystemContent(messages) == Success(system)
    ensures (forall k :: 0 <= k < |messages| ==> !IsRole(messages[k], "system")) ==> system == Null
    ensures system != Null ==>
              exists k :: 0 <= k < |messages| && IsRole(messages[k], "system")
                          && system == Get(messages[k].fields, "content", Null)
                          && forall i :: 0 <= i < k ==> messages[i].Obj? && !IsRole(messages[i], "system")
    ensures forall k :: 0 <= k < |messages| && IsRole(messages[k], "system")
                        && (forall i :: 0 <= i < k ==> !IsRole(messages[i], "system"))
                        ==> system == Get(messages[k].fields, "content", Null)
    decreases |messages|
  {
    if messages != [] && !IsRole(messages[0], "system") {
      var rest := messages[1..];
      SystemContentIsFirstSystem(rest, system);
      if system != Null {
        var k :| 0 <= k < |rest| && IsRole(rest[k], "system")
                 && system == Get(rest[k].fields, "content", Null)
                 && forall i :: 0 <= i < k ==> rest[i].Obj? && !IsRole(rest[i], "system");
        assert messages[k + 1] == rest[k];
        assert forall i :: 1 <= i < k + 1 ==> messages[i] == rest[i - 1];
      }
    }
    forall k | 0 <= k < |messages| && IsRole(messages[k], "system")
               && (forall i :: 0 <= i < k ==> !IsRole(messages[i], "system"))
      ensures system == Get(messages[k].fields, "content", Null)
    {
      FirstSystemContent(messages, system, k);
    }
  }

  /** The content of the first system message is the system prompt. */
  lemma {:induction false} FirstSystemContent(messages: seq<Json>, system: Json, k: nat)
    requires SystemContent(messages) == Success(system)
    requires k < |messages| && IsRole(messages[k], "system")
    requires forall i :: 0 <= i < k ==> !IsRole(messages[i], "system")
    ensures system == Get(messages[k].fields, "content", Null)
    decreases k
  {
    if k > 0 {
      var rest := messages[1..];
      assert !IsRole(messages[0], "system");
      assert rest[k - 1] == messages[k];
      assert forall i :: 0 <= i < k - 1 ==> rest[i] == messages[i + 1];
      FirstSystemContent(rest, system, k - 1);
    }
  }

  /** One output message per user, assistant or tool message, in input order: the `j`-th is
      the conversion of the `j`-th such message, made with `first` set only for `j == 0`. */
  lemma {:induction false} ConvertMessagesInOrder(messages: seq<Json>, system: Json, codec: Codec, out: seq<Json>)
    requires ConvertMessages(messages, system, codec) == Success(out)
    ensures |out| == |Kept(messages)|
    ensures forall j :: 0 <= j < |out| ==> ConvertMessage(Kept(messages)[j], system, j == 0, codec) == Success(Some(out[j]))
    decreases |messages|
  {
    if messages != [] {
      var prefix := messages[..|messages| - 1];
      var last := messages[|messages| - 1];
      var prior := ConvertMessages(prefix, system, codec).value;
      var next := ConvertMessage(last, system, prior == [], codec).value;
      ConvertMessagesInOrder(prefix, system, codec, prior);
      assert out == prior + OptionToSeq(next);
      assert Kept(messages) == Kept(prefix) + (if Emits(last) then [last] else []);
    }
  }

  /** The system prompt and the `first` flag only matter to a user message that is emitted
      first: any other message converts as if there were no system prompt. */
  lemma {:induction false} SystemOnlyInFirstUserTurn(msg: Json, system: Json, first: bool, codec: Codec)
    requires !first || !IsRole(msg, "user")
    ensures ConvertMessage(msg, system, first, codec) == ConvertMessage(msg, Null, false, codec)
  {
  }

  /** Every output message is a user or assistant message; a system prompt reaches the output
      only through the first one, and only when that comes from a user message. */
  lemma {:induction false} SystemFoldedIntoFirstTurn(messages: seq<Json>, codec: Codec, out: seq<Json>)
    requires BedrockMessages(messages, codec) == Success(out)
    ensures |out| == |Kept(messages)|
    ensures forall j :: 0 <= j < |out| ==> out[j].Obj? && "role" in out[j].fields
                                           && out[j].fields["role"] in {Str("user"), Str("assistant")}
    ensures forall j :: 0 < j < |out| ==> ConvertMessage(Kept(messages)[j], Null, false, codec) == Success(Some(out[j]))
    ensures |out| > 0 && !IsRole(Kept(messages)[0], "user") ==>
              ConvertMessage(Kept(messages)[0], Null, false, codec) == Success(Some(out[0]))
    ensures |out| > 0 && IsRole(Kept(messages)[0], "user") ==>
              var system := SystemContent(messages).value;
              var content := Get(Kept(messages)[0].fields, "content", Null);
              out[0] == Turn("user", [TextBlock(if Truthy(system) then Str(SystemPrompt(system, content, codec)) else content)])
  {
    var system := SystemContent(messages).value;
    ConvertMessagesInOrder(messages, system, codec, out);
    forall j | 0 <= j < |out|
      ensures out[j].Obj? && "role" in out[j].fields && out[j].fields["role"] in {Str("user"), Str("assistant")}
      ensures j > 0 || !IsRole(Kept(messages)[j], "user") ==>
                ConvertMessage(Kept(messages)[j], Null, false, codec) == Success(Some(out[j]))
    {
      if j > 0 || !IsRole(Kept(messages)[j], "user") {
        SystemOnlyInFirstUserTurn(Kept(messages)[j], system, j == 0, codec);
      }
    }
  }

  /** A tool message becomes a user message holding a single toolResult, under the message's
      tool_call_id, whose json is the parsed content; content that is not a string or does not
      parse raises. */
  lemma {:induction false} ToolMessageBecomesToolResult(msg: Json, system: Json, first: bool, codec: Codec)
    requires IsRole(msg, "tool")
    ensures var r := ConvertMessage(msg, system, first, codec);
            var content := Get(msg.fields, "content", Null);
            (r.Success? <==> content.Str? && codec.loads(content.s).Some?)
            && (r.Success? ==> r.value == Some(Turn("user", [ToolResultBlock(Get(msg.fields, "tool_call_id", Str("")), codec.loads(content.s).value)])))
  {
  }

  /** The `toolUse` blocks are the function calls, in order: one per call whose type is
      'function', with the call's id and name and its arguments parsed. */
  lemma {:induction false} ToolUsesKeepFunctionCalls(calls: seq<Json>, loads: string -> Option<Json>, uses: seq<Json>)
    requires ToolUses(calls, loads) == Success(uses)
    ensures |uses| == |FunctionCalls(calls)|
    ensures forall j :: 0 <= j < |uses| ==> ToolUse(FunctionCalls(calls)[j], loads) == Success(Some(uses[j]))
    decreases |calls|
  {
    if calls != [] {
      var prefix := calls[..|calls| - 1];
      var last := calls[|calls| - 1];
      var prior := ToolUses(prefix, loads).value;
      var next := ToolUse(last, loads).value;
      ToolUsesKeepFunctionCalls(prefix, loads, prior);
      assert uses == prior + OptionToSeq(next);
    }
  }

  /** An assistant message with tool_calls becomes an assistant turn whose blocks are its
      truthy text, first, and then the function calls in order. */
  lemma {:induction false} AssistantTurnTextFirst(msg: Json, system: Json, first: bool, codec: Codec, calls: seq<Json>, uses: seq<Json>)
    requires IsRole(msg, "assistant") && "tool_calls" in msg.fields
    requires ToolCallItems(msg.fields["tool_calls"]) == Success(calls)
    requires ToolUses(calls, codec.loads) == Success(uses)
    ensures var content := Get(msg.fields, "content", Null);
            ConvertMessage(msg, system, first, codec)
            == Success(Some(Turn("assistant", (if Truthy(content) then [TextBlock(content)] else []) + uses)))
    ensures |uses| == |FunctionCalls(calls)|
    ensures forall j :: 0 <= j < |uses| ==> ToolUse(FunctionCalls(calls)[j], codec.loads) == Success(Some(uses[j]))
  {
    ToolUsesKeepFunctionCalls(calls, codec.loads, uses);
  }

  // ---------------------------------------------------------------------------
  // convert_openai_to_bedrock_tools

  /** What Bedrock accepts as an input schema: a dict with a 'type' and with 'properties'
      that are truthy or an empty dict. */
  predicate SchemaReady(schema: Json) {
    schema.Obj? && "type" in schema.fields && "properties" in schema.fields
    && (Truthy(schema.fields["properties"]) || schema.fields["properties"] == Obj(map[]))
  }

  /** The in-place edits of a tool's `parameters`: 'type' set to "object" when absent, then
      'properties' set to an empty dict when missing or falsy. A list or string without
      "type" refuses the assignment; one with it has no `.get`. */
  function NormalisedParameters(params: Json): (r: Result<Json, PyError>)
    ensures r.Success? <==> params.Obj?
  {
    var hasType :- PyIn("type", params);
    var typed :- if hasType then Success(params)
                 else if params.Obj? then Success(Obj(params.fields["type" := Str("object")]))
                 else Failure(TypeError);
    var d :- AsDict(typed);
    if Truthy(Get(d, "properties", Null)) then Success(typed)
    else Success(Obj(d["properties" := Obj(map[])]))
  }

  /** The edited schema is ready for Bedrock. It has the keys it had plus 'type' and
      'properties'. A missing 'type' becomes "object". Truthy 'properties' are kept. Every
      other key is left as it was. */
  lemma {:induction false} ParametersNormalised(params: Json)
    requires params.Obj?
    ensures var r := NormalisedParameters(params).value;
            SchemaReady(r)
            && r.fields.Keys == params.fields.Keys + {"type", "properties"}
            && r.fields["type"] == Get(params.fields, "type", Str("object"))
            && (Truthy(Get(params.fields, "properties", Null)) ==> r.fields["properties"] == params.fields["properties"])
            && forall k :: k in params.fields && k != "type" && k != "properties" ==> r.fields[k] == params.fields[k]
  {
    NormalisedSchemaReady(params);
  }

  /** The edited schema is ready for Bedrock. */
  lemma {:induction false} NormalisedSchemaReady(params: Json)
    requires params.Obj?
    ensures var d := params.fields;
            var typed := if "type" in d then d else d["type" := Str("object")];
            NormalisedParameters(params).value
            == Obj(if Truthy(Get(typed, "properties", Null)) then typed else typed["properties" := Obj(map[])])
    ensures SchemaReady(NormalisedParameters(params).value)
  {
  }

  /** A tool 'function' with type 'function'. */
  predicate IsFunctionTool(tool: Json) {
    tool.Obj? && Get(tool.fields, "type", Null) == Str("function")
  }

  /** What one pass of the loop does to a tool: the tool as the caller sees it afterwards
      (its `parameters` dict, when it has one, edited in place) and the toolSpec it adds, if
      any. */
  datatype ToolStep = ToolStep(updated: Json, spec: Option<Json>)

  function ToolSpec(fn: map<string, Json>, schema: Json): Json {
    Obj(map["toolSpec" := Obj(map[
      "name" := Get(fn, "name", Str("")),
      "description" := Get(fn, "description", Str("")),
      "inputSchema" := Obj(map["json" := schema])])])
  }

  /** The input schema of a toolSpec, or None when it has none. */
  function InputSchema(spec: Json): Json {
    if spec.Obj? && "toolSpec" in spec.fields && spec.fields["toolSpec"].Obj?
       && "inputSchema" in spec.fields["toolSpec"].fields
       && spec.fields["toolSpec"].fields["inputSchema"].Obj?
       && "json" in spec.fields["toolSpec"].fields["inputSchema"].fields
    then spec.fields["toolSpec"].fields["inputSchema"].fields["json"]
    else Null
  }

  /** One pass of the loop over the tools. A default `{}` for a missing 'function' or
      'parameters' is a fresh dict: editing it changes nothing the caller holds. */
  function NormalisedTool(tool: Json): (r: Result<ToolStep, PyError>)
    ensures r.Success? ==> tool.Obj? && (r.value.spec.Some? <==> IsFunctionTool(tool))
    ensures r.Success? && !IsFunctionTool(tool) ==> r.value.updated == tool
  {
    var t :- AsDict(tool);
    if Get(t, "type", Null) != Str("function") then Success(ToolStep(tool, None))
    else
      var fn :- AsDict(Get(t, "function", Obj(map[])));
      var schema :- NormalisedParameters(Get(fn, "parameters", Obj(map[])));
      var updated := if "function" in t && "parameters" in fn
                     then Obj(t["function" := Obj(fn["parameters" := schema])])
                     else tool;
      Success(ToolStep(updated, Some(ToolSpec(fn, schema))))
  }

  /** The toolSpec of a function tool carries a schema ready for Bedrock. */
  lemma {:induction false} ToolSchemaReady(tool: Json)
    requires NormalisedTool(tool).Success? && NormalisedTool(tool).value.spec.Some?
    ensures SchemaReady(InputSchema(NormalisedTool(tool).value.spec.value))
  {
    var fn := Get(tool.fields, "function", Obj(map[])).fields;
    ParametersNormalised(Get(fn, "parameters", Obj(map[])));
  }

  /** The loop over the first `|tools|` tools: the specs collected, or the error that ended
      the loop, and the tools as the caller sees them afterwards. */
  datatype ToolsOutcome = ToolsOutcome(specs: Result<seq<Json>, PyError>, after: seq<Json>)

  function ToolsPass(tools: seq<Json>): (r: ToolsOutcome)
    ensures |r.after| == |tools|
    decreases |tools|
  {
    if tools == [] then ToolsOutcome(Success([]), [])
    else
      var prior := ToolsPass(tools[..|tools| - 1]);
      var last := tools[|tools| - 1];
      if prior.specs.Failure? then ToolsOutcome(prior.specs, prior.after + [last])
      else
        match NormalisedTool(last)
        case Failure(e) => ToolsOutcome(Failure(e), prior.after + [last])
        case Success(step) => ToolsOutcome(Success(prior.specs.value + OptionToSeq(step.spec)), prior.after + [step.updated])
  }

  /** The dict `convert_openai_to_bedrock_tools` returns. */
  function ToolConfig(specs: Result<seq<Json>, PyError>): Result<Json, PyError> {
    var s :- specs;
    Success(Obj(map["tools" := Arr(s)]))
  }

  /** The function tools, in order. */
  function FunctionTools(tools: seq<Json>): (r: seq<Json>)
    ensures |r| <= |tools|
    decreases |tools|
  {
    if tools == [] then []
    else
      var last := tools[|tools| - 1];
      FunctionTools(tools[..|tools| - 1]) + (if IsFunctionTool(last) then [last] else [])
  }

  /** `convert_openai_to_bedrock_tools`. The caller's tools are an array because the loop
      edits the `parameters` dicts they hold. */
  method ConvertOpenAIToBedrockTools(tools: array<Json>) returns (r: Result<Json, PyError>)
    modifies tools
    ensures tools[..] == ToolsPass(old(tools[..])).after
    ensures r == ToolConfig(ToolsPass(old(tools[..])).specs)
  {
    ghost var original := tools[..];
    var specs: seq<Json> := [];
    for i := 0 to tools.Length
      invariant tools[..i] == ToolsPass(original[..i]).after
      invariant tools[i..] == original[i..]
      invariant ToolsPass(original[..i]).specs == Success(specs)
    {
      assert tools[i] == original[i] by { assert tools[i..][0] == original[i..][0]; }
      var outcome := NormalisedTool(tools[i]);
      if outcome.Failure? {
        ToolsPassStopsAtFailure(original, i);
        assert tools[..] == tools[..i] + tools[i..];
        return Failure(outcome.error);
      }
      ToolsPassNext(original, i);
      EditTool(tools, i, outcome.value.updated, original);
      specs := specs + OptionToSeq(outcome.value.spec);
    }
    assert original[..tools.Length] == original;
    assert tools[..tools.Length] == tools[..];
    r := Success(Obj(map["tools" := Arr(specs)]));
  }

  /** The edit of the `i`-th tool's `parameters`, seen by the caller through its tools. */
  method EditTool(tools: array<Json>, i: nat, updated: Json, ghost original: seq<Json>)
    requires i < tools.Length == |original| && tools[i..] == original[i..]
    modifies tools
    ensures tools[..i + 1] == old(tools[..i]) + [updated]
    ensures tools[i + 1..] == original[i + 1..]
  {
    assert tools[i + 1..] == tools[i..][1..];
    tools[i] := updated;
    assert original[i + 1..] == original[i..][1..];
  }

  /** A tool that goes through adds its toolSpec and its edited self. */
  lemma {:induction false} ToolsPassNext(tools: seq<Json>, i: nat)
    requires i < |tools| && ToolsPass(tools[..i]).specs.Success? && NormalisedTool(tools[i]).Success?
    ensures var prior := ToolsPass(tools[..i]);
            var step := NormalisedTool(tools[i]).value;
            ToolsPass(tools[..i + 1]) == ToolsOutcome(Success(prior.specs.value + OptionToSeq(step.spec)), prior.after + [step.updated])
  {
    assert tools[..i + 1][..i] == tools[..i];
  }

  /** A tool that raises ends the loop: the specs are its error, and it and the tools after
      it are left as they were. */
  lemma {:induction false} ToolsPassStopsAtFailure(tools: seq<Json>, i: nat)
    requires i < |tools| && ToolsPass(tools[..i]).specs.Success? && NormalisedTool(tools[i]).Failure?
    ensures ToolsPass(tools) == ToolsOutcome(Failure(NormalisedTool(tools[i]).error), ToolsPass(tools[..i]).after + tools[i..])
    decreases |tools|
  {
    var prefix := tools[..|tools| - 1];
    var last := tools[|tools| - 1];
    if i + 1 == |tools| {
      assert prefix == tools[..i] && last == tools[i] && tools[i..] == [last];
    } else {
      assert prefix[..i] == tools[..i] && prefix[i] == tools[i];
      ToolsPassStopsAtFailure(prefix, i);
      FailedPassCarriesOn(tools);
      assert prefix[i..] + [last] == tools[i..];
    }
  }

  /** Once the loop has raised, a further tool is passed over unchanged. */
  lemma {:induction false} FailedPassCarriesOn(tools: seq<Json>)
    requires tools != [] && ToolsPass(tools[..|tools| - 1]).specs.Failure?
    ensures var prior := ToolsPass(tools[..|tools| - 1]);
            ToolsPass(tools) == ToolsOutcome(prior.specs, prior.after + [tools[|tools| - 1]])
  {
  }

  /** Each function tool, in order, gives one toolSpec; the other tools give none. */
  lemma {:induction false} ToolsKeptInOrder(tools: seq<Json>, specs: seq<Json>)
    requires ToolsPass(tools).specs == Success(specs)
    ensures |specs| == |FunctionTools(tools)|
    ensures forall j :: 0 <= j < |specs| ==>
              NormalisedTool(FunctionTools(tools)[j]).Success?
              && NormalisedTool(FunctionTools(tools)[j]).value.spec == Some(specs[j])
    decreases |tools|
  {
    if tools != [] {
      var prefix := tools[..|tools| - 1];
      var last := tools[|tools| - 1];
      var prior := ToolsPass(prefix).specs.value;
      ToolsKeptInOrder(prefix, prior);
      var step := NormalisedTool(last).value;
      assert specs == prior + OptionToSeq(step.spec);
      assert FunctionTools(tools) == FunctionTools(prefix) + (if IsFunctionTool(last) then [last] else []);
    }
  }

  /** Every toolSpec's input schema is ready for Bedrock: a dict with a 'type' and with
      'properties'. */
  lemma {:induction false} SpecsReady(tools: seq<Json>, specs: seq<Json>)
    requires ToolsPass(tools).specs == Success(specs)
    ensures forall j :: 0 <= j < |specs| ==> SchemaReady(InputSchema(specs[j]))
  {
    ToolsKeptInOrder(tools, specs);
    forall j | 0 <= j < |specs| ensures SchemaReady(InputSchema(specs[j])) {
      ToolSchemaReady(FunctionTools(tools)[j]);
    }
  }

  /** The loop leaves the tools that are not function tools as they were. */
  lemma {:induction false} OtherToolsUntouched(tools: seq<Json>)
    ensures forall k :: 0 <= k < |tools| && !IsFunctionTool(tools[k]) ==> ToolsPass(tools).after[k] == tools[k]
    decreases |tools|
  {
    if tools != [] {
      var prefix := tools[..|tools| - 1];
      OtherToolsUntouched(prefix);
      var last := tools[|tools| - 1];
      var prior := ToolsPass(prefix);
      var after := ToolsPass(tools).after;
      var tail := if prior.specs.Failure? || NormalisedTool(last).Failure? then last
                  else NormalisedTool(last).value.updated;
      assert after == prior.after + [tail];
      forall k | 0 <= k < |tools| && !IsFunctionTool(tools[k]) ensures after[k] == tools[k] {
        if k < |prefix| {
          assert tools[k] == prefix[k] && after[k] == prior.after[k];
        }
      }
    }
  }

  /** Normalising a ready schema changes nothing. */
  lemma {:induction false} NormaliseReadySchema(schema: Json)
    requires SchemaReady(schema)
    ensures NormalisedParameters(schema) == Success(schema)
  {
    var d := schema.fields;
    if !Truthy(d["properties"]) {
      assert d["properties" := Obj(map[])] == d;
    }
  }

  /** A tool that has been through the loop goes through it again unchanged and gives the
      same toolSpec. */
  lemma {:induction false} NormalisedToolIdempotent(tool: Json, step: ToolStep)
    requires NormalisedTool(tool) == Success(step)
    ensures NormalisedTool(step.updated) == Success(step)
  {
    if IsFunctionTool(tool) {
      var t := tool.fields;
      var fn := Get(t, "function", Obj(map[])).fields;
      var schema := NormalisedParameters(Get(fn, "parameters", Obj(map[]))).value;
      if "function" in t && "parameters" in fn {
        var fn' := fn["parameters" := schema];
        var t' := t["function" := Obj(fn')];
        NormalisedSchemaReady(fn["parameters"]);
        NormaliseReadySchema(schema);
        assert Get(t', "type", Null) == Get(t, "type", Null);
        assert Get(t', "function", Obj(map[])) == Obj(fn');
        assert Get(fn', "parameters", Obj(map[])) == schema;
        assert fn'["parameters" := schema] == fn';
        assert t'["function" := Obj(fn')] == t';
        assert ToolSpec(fn', schema) == ToolSpec(fn, schema);
        assert NormalisedTool(Obj(t')) == Success(ToolStep(Obj(t'), Some(ToolSpec(fn', schema))));
      }
    }
  }

  /** Converting the tools a second time changes nothing and gives the same configuration.
      So a `parameters` dict shared by several tools, which the program edits once for all
      of them, gives the same result as this model's separate copies. */
  lemma {:induction false} ToolsPassIdempotent(tools: seq<Json>)
    requires ToolsPass(tools).specs.Success?
    ensures ToolsPass(ToolsPass(tools).after) == ToolsPass(tools)
    decreases |tools|
  {
    if tools != [] {
      var prefix := tools[..|tools| - 1];
      var last := tools[|tools| - 1];
      var prior := ToolsPass(prefix);
      ToolsPassIdempotent(prefix);
      var step := NormalisedTool(last).value;
      NormalisedToolIdempotent(last, step);
      var after := ToolsPass(tools).after;
      assert after == prior.after + [step.updated];
      assert after[..|after| - 1] == prior.after;
    }
  }

  // ---------------------------------------------------------------------------
  // convert_bedrock_to_openai_response

  /** What iterating the reply's content yields: a list its items; a string its characters,
      none of which holds 'text' or 'toolUse'; a dict its keys, where a key holding either
      word is then indexed by a string and raises; anything else cannot be iterated. */
  function ContentItems(x: Json): Result<seq<Json>, PyError> {
    match x
    case Arr(items) => Success(items)
    case Str(_) => Success([])
    case Obj(fields) =>
      if exists k :: k in fields && (Contains(k, "text") || Contains(k, "toolUse")) then Failure(TypeError)
      else Success([])
    case _ => Failure(TypeError)
  }

  /** `'text' in item`, then `'toolUse' in item`. */
  predicate IsTextItem(item: Json) {
    PyIn("text", item) == Success(true)
  }

  predicate IsToolUseItem(item: Json) {
    PyIn("text", item) == Success(false) && PyIn("toolUse", item) == Success(true)
  }

  /** The OpenAI tool call for a `toolUse`, the `n`-th collected: a missing toolUseId
      becomes `call_<n>`. */
  function ToolCall(use: map<string, Json>, n: nat, codec: Codec): Json {
    Obj(map[
      "id" := Get(use, "toolUseId", Str("call_" + NatToDecimal(n))),
      "type" := Str("function"),
      "function" := Obj(map[
        "name" := Get(use, "name", Str("")),
        "arguments" := Str(codec.dumpsAscii(Get(use, "input", Obj(map[]))))])])
  }

  /** The texts and the tool calls collected so far. */
  datatype Collected = Collected(texts: seq<Json>, calls: seq<Json>)

  /** One pass of the loop over the content items. */
  function CollectItem(c: Collected, item: Json, codec: Codec): Result<Collected, PyError> {
    var isText :- PyIn("text", item);
    if isText then
      var text :- Subscript(item, "text");
      Success(Collected(c.texts + [text], c.calls))
    else
      var isUse :- PyIn("toolUse", item);
      if isUse then
        var u :- Subscript(item, "toolUse");
        var use :- AsDict(u);
        Success(Collected(c.texts, c.calls + [ToolCall(use, |c.calls|, codec)]))
      else Success(c)
  }

  /** The loop over the first `|items|` content items. */
  function CollectItems(items: seq<Json>, codec: Codec): Result<Collected, PyError>
    decreases |items|
  {
    if items == [] then Success(Collected([], []))
    else
      var prior :- CollectItems(items[..|items| - 1], codec);
      CollectItem(prior, items[|items| - 1], codec)
  }

  /** The strings `' '.join` is given: anything else raises. */
  function TextStrings(texts: seq<Json>): (r: Result<seq<string>, PyError>)
    ensures r.Success? ==> |r.value| == |texts| && forall k :: 0 <= k < |texts| ==> texts[k] == Str(r.value[k])
    ensures r.Failure? ==> exists k :: 0 <= k < |texts| && !texts[k].Str?
    decreases |texts|
  {
    if texts == [] then Success([])
    else
      var rest :- TextStrings(texts[1..]);
      if texts[0].Str? then Success([texts[0].s] + rest) else Failure(TypeError)
  }

  /** The content items of the reply's output message. */
  function ReplyItems(response: map<string, Json>): Result<seq<Json>, PyError> {
    var output :- AsDict(Get(response, "output", Obj(map[])));
    var message :- AsDict(Get(output, "message", Obj(map[])));
    ContentItems(Get(message, "content", Arr([])))
  }

  /** The assistant message built from what the loop collected. */
  function AssistantMessage(c: Collected): Result<Json, PyError> {
    var content :- if c.texts == [] then Success(Null)
                   else var strings :- TextStrings(c.texts); Success(Str(Join(strings, " ")));
    Success(Obj(map[
      "role" := Str("assistant"),
      "content" := content,
      "tool_calls" := if c.calls == [] then Null else Arr(c.calls)]))
  }

  /** `convert_bedrock_to_openai_response`. */
  function OpenAIResponse(response: map<string, Json>, codec: Codec): Result<Json, PyError> {
    var items :- ReplyItems(response);
    var collected :- CollectItems(items, codec);
    AssistantMessage(collected)
  }

  /** `convert_bedrock_to_openai_response`, loop for loop. */
  method ConvertBedrockToOpenAIResponse(response: map<string, Json>, codec: Codec) returns (r: Result<Json, PyError>)
    ensures r == OpenAIResponse(response, codec)
  {
    var items :- ReplyItems(response);
    var texts: seq<Json> := [];
    var calls: seq<Json> := [];
    for i := 0 to |items|
      invariant CollectItems(items[..i], codec) == Success(Collected(texts, calls))
    {
      CollectItemsStopAtFailure(items, codec, i + 1);
      assert items[..i + 1][..i] == items[..i];
      assert items[..i + 1][i] == items[i];
      var item := items[i];
      var isText :- PyIn("text", item);
      if isText {
        var text :- Subscript(item, "text");
        texts := texts + [text];
      } else {
        var isUse :- PyIn("toolUse", item);
        if isUse {
          var u :- Subscript(item, "toolUse");
          var use :- AsDict(u);
          calls := calls + [ToolCall(use, |calls|, codec)];
        }
      }
    }
    assert items[..|items|] == items;
    var content := Null;
    if texts != [] {
      var strings :- TextStrings(texts);
      content := Str(Join(strings, " "));
    }
    var toolCalls := Null;
    if calls != [] {
      toolCalls := Arr(calls);
    }
    r := Success(Obj(map["role" := Str("assistant"), "content" := content, "tool_calls" := toolCalls]));
  }

  /** An item that raises ends the loop with its error. */
  lemma {:induction false} CollectItemsStopAtFailure(items: seq<Json>, codec: Codec, n: nat)
    requires n <= |items|
    ensures CollectItems(items[..n], codec).Failure? ==> CollectItems(items, codec) == CollectItems(items[..n], codec)
    decreases |items|
  {
    if n < |items| && CollectItems(items[..n], codec).Failure? {
      var prefix := items[..|items| - 1];
      assert prefix[..n] == items[..n];
      CollectItemsStopAtFailure(prefix, codec, n);
    } else if n == |items| {
      assert items[..n] == items;
    }
  }

  /** The texts of the text items, in order. */
  function TextValues(items: seq<Json>): seq<Json>
    decreases |items|
  {
    if items == [] then []
    else
      var last := items[|items| - 1];
      TextValues(items[..|items| - 1])
      + (if IsTextItem(last) && last.Obj? && "text" in last.fields then [last.fields["text"]] else [])
  }

  /** The `toolUse` dicts of the tool-use items, in order. */
  function ToolUseDicts(items: seq<Json>): seq<map<string, Json>>
    decreases |items|
  {
    if items == [] then []
    else
      var last := items[|items| - 1];
      ToolUseDicts(items[..|items| - 1])
      + (if IsToolUseItem(last) && last.Obj? && "toolUse" in last.fields && last.fields["toolUse"].Obj?
         then [last.fields["toolUse"].fields] else [])
  }

  /** What one content item adds: a text item its text, a tool-use item one tool call
      numbered by the calls before it, any other item nothing. */
  lemma {:induction false} CollectItemAdds(prior: Collected, item: Json, codec: Codec, c: Collected)
    requires CollectItem(prior, item, codec) == Success(c)
    ensures IsTextItem(item) ==> item.Obj? && "text" in item.fields
                                 && c == Collected(prior.texts + [item.fields["text"]], prior.calls)
    ensures IsToolUseItem(item) ==> item.Obj? && "toolUse" in item.fields && item.fields["toolUse"].Obj?
                                    && c == Collected(prior.texts, prior.calls + [ToolCall(item.fields["toolUse"].fields, |prior.calls|, codec)])
    ensures !IsTextItem(item) && !IsToolUseItem(item) ==> c == prior
  {
  }

  /** The loop collects the texts of the text items, in order. */
  lemma {:induction false} CollectTextsInOrder(items: seq<Json>, codec: Codec, c: Collected)
    requires CollectItems(items, codec) == Success(c)
    ensures c.texts == TextValues(items)
    decreases |items|
  {
    if items != [] {
      var prefix := items[..|items| - 1];
      var last := items[|items| - 1];
      var prior := CollectItems(prefix, codec).value;
      CollectTextsInOrder(prefix, codec, prior);
      CollectItemAdds(prior, last, codec, c);
    }
  }

  /** The loop collects one tool call per tool-use item, in order; the `j`-th is numbered `j`,
      so a missing toolUseId becomes `call_<j>`. */
  lemma {:induction false} CollectCallsInOrder(items: seq<Json>, codec: Codec, c: Collected)
    requires CollectItems(items, codec) == Success(c)
    ensures |c.calls| == |ToolUseDicts(items)|
    ensures forall j :: 0 <= j < |c.calls| ==> c.calls[j] == ToolCall(ToolUseDicts(items)[j], j, codec)
    decreases |items|
  {
    if items != [] {
      var prefix := items[..|items| - 1];
      var last := items[|items| - 1];
      var prior := CollectItems(prefix, codec).value;
      CollectCallsInOrder(prefix, codec, prior);
      CollectItemAdds(prior, last, codec, c);
      if IsToolUseItem(last) {
        var d := last.fields["toolUse"].fields;
        assert ToolUseDicts(items) == ToolUseDicts(prefix) + [d];
        forall j | 0 <= j < |c.calls| ensures c.calls[j] == ToolCall(ToolUseDicts(items)[j], j, codec) {
          if j < |prior.calls| {
            assert c.calls[j] == prior.calls[j];
            assert ToolUseDicts(items)[j] == ToolUseDicts(prefix)[j];
          }
        }
      } else {
        assert ToolUseDicts(items) == ToolUseDicts(prefix);
        assert c.calls == prior.calls;
      }
    }
  }

  /** The reply is always an assistant message with exactly the keys role, content and
      tool_calls; content is None exactly when there is no text item, and tool_calls None
      exactly when there is no tool-use item. */
  lemma {:induction false} ResponseShape(response: map<string, Json>, codec: Codec, items: seq<Json>, reply: Json)
    requires ReplyItems(response) == Success(items)
    requires OpenAIResponse(response, codec) == Success(reply)
    ensures reply.Obj? && reply.fields.Keys == {"role", "content", "tool_calls"}
    ensures reply.fields["role"] == Str("assistant")
    ensures reply.fields["content"] == Null <==> TextValues(items) == []
    ensures reply.fields["tool_calls"] == Null <==> ToolUseDicts(items) == []
  {
    var c := CollectItems(items, codec).value;
    CollectTextsInOrder(items, codec, c);
    CollectCallsInOrder(items, codec, c);
    assert AssistantMessage(c) == Success(reply);
  }

  /** The tool calls are those of the tool-use items, in order, and the `j`-th one without a
      toolUseId gets the id `call_<j>`. */
  lemma {:induction false} CallIdFallback(response: map<string, Json>, codec: Codec, items: seq<Json>, reply: Json)
    requires ReplyItems(response) == Success(items)
    requires OpenAIResponse(response, codec) == Success(reply)
    requires ToolUseDicts(items) != []
    ensures reply.Obj? && "tool_calls" in reply.fields && reply.fields["tool_calls"].Arr?
    ensures var calls := reply.fields["tool_calls"].items;
            |calls| == |ToolUseDicts(items)|
            && forall j :: 0 <= j < |calls| ==> calls[j] == ToolCall(ToolUseDicts(items)[j], j, codec)
    ensures forall j :: 0 <= j < |ToolUseDicts(items)| && "toolUseId" !in ToolUseDicts(items)[j] ==>
              ToolCall(ToolUseDicts(items)[j], j, codec).fields["id"] == Str("call_" + NatToDecimal(j))
  {
    var c := CollectItems(items, codec).value;
    CollectCallsInOrder(items, codec, c);
    assert AssistantMessage(c) == Success(reply);
  }

  /** With at least one text, the content is the texts joined by single spaces. */
  lemma {:induction false} ContentIsJoinedTexts(response: map<string, Json>, codec: Codec, items: seq<Json>, reply: Json)
    requires ReplyItems(response) == Success(items)
    requires OpenAIResponse(response, codec) == Success(reply)
    requires TextValues(items) != []
    ensures TextStrings(TextValues(items)).Success?
    ensures reply.Obj? && "content" in reply.fields
            && reply.fields["content"] == Str(Join(TextStrings(TextValues(items)).value, " "))
  {
    var c := CollectItems(items, codec).value;
    CollectTextsInOrder(items, codec, c);
    assert AssistantMessage(c) == Success(reply);
  }

  /** The content is the texts joined by single spaces: when no text holds a space, splitting
      the content on spaces gives the texts back. */
  lemma {:induction false} ContentSplitsIntoTexts(response: map<string, Json>, codec: Codec, items: seq<Json>, reply: Json, texts: seq<string>)
    requires ReplyItems(response) == Success(items)
    requires OpenAIResponse(response, codec) == Success(reply)
    requires TextValues(items) == seq(|texts|, k requires 0 <= k < |texts| => Str(texts[k]))
    requires texts != [] && forall k :: 0 <= k < |texts| ==> ' ' !in texts[k]
    ensures reply.Obj? && "content" in reply.fields && reply.fields["content"].Str?
    ensures Split(reply.fields["content"].s, ' ') == texts
  {
    var c := CollectItems(items, codec).value;
    CollectTextsInOrder(items, codec, c);
    var strings := TextStrings(c.texts).value;
    assert strings == texts;
    SplitJoin(texts, ' ');
  }
}
