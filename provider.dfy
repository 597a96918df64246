/**
 * The provider layer shared by all adapters: choosing an adapter by name with its default
 * model, and the tool-call continuation that extends a conversation with one `tool` message
 * per function call before the request is sent again.
 */
module Provider {
  import opened Wrappers
  import opened Json
  import opened Messages
  import Tools

  datatype Vendor = Ollama | OpenAI | Gemini | Groq | Mistral

  /** The adapter registered under each provider name. */
  const Factories: map<string, Vendor> := map[
    "ollama" := Ollama,
    "openai" := OpenAI,
    "gemini" := Gemini,
    "groq" := Groq,
    "mistral" := Mistral
  ]

  /** The model each adapter uses when the user has not chosen one. */
  const DefaultModels: map<string, string> := map[
    "ollama" := "qwen2.5:1.5b-instruct",
    "openai" := "gpt-4o",
    "gemini" := "models/gemini-1.5-flash",
    "groq" := "llama-3.2-1b-preview",
    "mistral" := "ministral-3b-latest"
  ]

  /** A constructed adapter: which vendor, and the default model it was given. */
  datatype Created = Created(vendor: Vendor, defaultModel: string)

  /** Builds the adapter registered under `providerName`, handing it that name's default model. */
  function CreateLLMProvider(providerName: string): (r: Result<Created, string>)
    ensures r.Err? <==> providerName !in {"ollama", "openai", "gemini", "groq", "mistral"}
    ensures r.Err? ==> r.error == "unknown llm provider"
    ensures r.Ok? ==> r.value.vendor == Factories[providerName]
    ensures r.Ok? ==> r.value.defaultModel == DefaultModels[providerName] && r.value.defaultModel != ""
  {
    if providerName in Factories then Ok(Created(Factories[providerName], DefaultModels[providerName]))
    else Err("unknown llm provider")
  }

  /** Each name is bound to its own vendor, so the five adapters are all reachable. */
  lemma FactoryNamesAreDistinct()
    ensures forall a, b :: a in Factories && b in Factories && a != b ==> Factories[a] != Factories[b]
    ensures Factories.Keys == DefaultModels.Keys
  {
  }

  /** `DefaultModel(modelName)` of the adapters: the user's choice, or the configured default when empty. */
  function DefaultModel(configured: string, modelName: string): (r: string)
    ensures modelName != "" ==> r == modelName
    ensures modelName == "" ==> r == configured
  {
    if modelName == "" then configured else modelName
  }

  /** An adapter made by CreateLLMProvider never asks the vendor for an unnamed model. */
  lemma CreatedModelIsNeverEmpty(providerName: string, modelName: string)
    requires CreateLLMProvider(providerName).Ok?
    ensures DefaultModel(CreateLLMProvider(providerName).value.defaultModel, modelName) != ""
    ensures modelName == "" ==> DefaultModel(CreateLLMProvider(providerName).value.defaultModel, modelName)
                                == DefaultModels[providerName]
  {
  }

  /** What the continuation needs from outside: the registered tools, the JSON encoder and `%v`. */
  datatype ToolEnv = ToolEnv(
    call: (Tools.ToolKind, string) -> string,
    marshal: Json -> Option<string>,
    show: Json -> string)

  /** The text handed to a tool: a string argument as it is, anything else JSON-encoded, else `%v`. */
  function ArgsToString(args: Json, env: ToolEnv): (r: string)
    ensures args.JStr? ==> r == args.s
    ensures !args.JStr? && env.marshal(args).Some? ==> r == env.marshal(args).value
    ensures !args.JStr? && env.marshal(args).None? ==> r == env.show(args)
  {
    if args.JStr? then args.s
    else match env.marshal(args)
      case Some(text) => text
      case None => env.show(args)
  }

  /** The message that answers one tool call. */
  function ToolMessage(call: ToolCall, env: ToolEnv): Message {
    var name := call.call.name;
    Message("tool", name, Text(Tools.NewTools(name, ArgsToString(call.call.arguments, env), env.call)),
            None, None, call.id)
  }

  /** The answers to `calls`, in call order. */
  function ToolMessages(calls: seq<ToolCall>, env: ToolEnv): seq<Message> {
    if calls == [] then [] else ToolMessages(calls[..|calls| - 1], env) + [ToolMessage(calls[|calls| - 1], env)]
  }

  /** The history sent back to the vendor after `response` asked for tool calls. */
  function ContinuedHistory(messages: seq<Message>, response: Message, env: ToolEnv): seq<Message> {
    messages + [response] + ToolMessages(CallsOf(response), env)
  }

  /** `toolCalls`: appends the response, then runs every requested tool and appends its answer. */
  method ToolCalls(messages: seq<Message>, response: Message, env: ToolEnv) returns (out: seq<Message>)
    ensures out == ContinuedHistory(messages, response, env)
  {
    out := messages + [response];
    var calls := CallsOf(response);
    var i := 0;
    while i < |calls|
      invariant 0 <= i <= |calls|
      invariant out == messages + [response] + ToolMessages(calls[..i], env)
    {
      assert calls[..i + 1][..i] == calls[..i];
      out := out + [ToolMessage(calls[i], env)];
      i := i + 1;
    }
    assert calls[..i] == calls;
  }

  /** The k-th answer belongs to the k-th call. */
  lemma {:induction false} ToolMessagesAt(calls: seq<ToolCall>, env: ToolEnv)
    ensures |ToolMessages(calls, env)| == |calls|
    ensures forall k :: 0 <= k < |calls| ==> ToolMessages(calls, env)[k] == ToolMessage(calls[k], env)
  {
    if calls != [] {
      ToolMessagesAt(calls[..|calls| - 1], env);
    }
  }

  /**
   * The continued history is the old history unchanged, then the response, then exactly one
   * `tool` message per call in call order, carrying the call's id and function name and the
   * registry's answer to the call's arguments.
   */
  lemma ContinuedHistoryShape(messages: seq<Message>, response: Message, env: ToolEnv)
    ensures var h := ContinuedHistory(messages, response, env);
      |h| == |messages| + 1 + |CallsOf(response)| && h[..|messages|] == messages && h[|messages|] == response
    ensures var h := ContinuedHistory(messages, response, env);
      forall k :: 0 <= k < |CallsOf(response)| ==>
        var call := CallsOf(response)[k];
        var m := h[|messages| + 1 + k];
        m.role == "tool" && m.toolCallId == call.id && m.name == call.call.name
        && m.content == Text(Tools.NewTools(call.call.name, ArgsToString(call.call.arguments, env), env.call))
  {
    ToolMessagesAt(CallsOf(response), env);
    var h := ContinuedHistory(messages, response, env);
    forall k | 0 <= k < |CallsOf(response)|
      ensures h[|messages| + 1 + k] == ToolMessage(CallsOf(response)[k], env)
    {
      assert h[|messages| + 1 + k] == ToolMessages(CallsOf(response), env)[k];
    }
  }

  /** A response without tool calls (nil or empty) only appends itself. */
  lemma NoCallsOnlyAppendsResponse(messages: seq<Message>, response: Message, env: ToolEnv)
    requires response.toolCalls == None || response.toolCalls == Some([])
    ensures ContinuedHistory(messages, response, env) == messages + [response]
  {
  }

  /** How a non-streaming chat ends. */
  datatype ChatOutcome =
    | Answer(message: Message)
    | Failed(error: string)
    | Panicked
    | ChatOutOfFuel
}
