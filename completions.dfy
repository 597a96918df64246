/**
 * The chat-completions call shared, line for line, by the Groq and Mistral adapters: the request
 * with the tool list, and a non-streaming chat that resends the history while the vendor finishes
 * with `tool_calls`.
 */
module Completions {
  import opened Messages
  import opened Provider

  /** What is posted to `/v1/chat/completions`: with the tool list and `tool_choice: auto`. */
  datatype Request = Request(model: string, messages: seq<Message>, stream: bool, withTools: bool, toolChoice: string)

  datatype ChatReply = ChatReply(status: int, raw: string, completion: Completion)

  datatype ModelEntry = ModelEntry(id: string, ownedBy: string)

  /** What a non-streaming chat needs from outside: the server and the tools. */
  datatype ChatEnv = ChatEnv(chat: Request -> ChatReply, tools: ToolEnv)

  function MakeRequest(configured: string, modelName: string, messages: seq<Message>, stream: bool): (q: Request)
    ensures q.withTools && q.toolChoice == "auto" && q.stream == stream && q.messages == messages
    ensures q.model == DefaultModel(configured, modelName)
  {
    Request(DefaultModel(configured, modelName), messages, stream, true, "auto")
  }

  /**
   * `Chat`: a non-200 reply is an error carrying the body; finish reason `tool_calls` asks again
   * with the continued history; otherwise the first choice's message is the answer.
   */
  function Chat(fuel: nat, configured: string, modelName: string, messages: seq<Message>, env: ChatEnv): ChatOutcome
    decreases fuel
  {
    if fuel == 0 then ChatOutOfFuel
    else
      var reply := env.chat(MakeRequest(configured, modelName, messages, false));
      if reply.status != 200 then Failed("error fetching response: " + reply.raw)
      else if |reply.completion.choices| == 0 then Panicked
      else if reply.completion.choices[0].finishReason == "tool_calls" then
        Chat(fuel - 1, configured, modelName, ContinuedHistory(messages, reply.completion.choices[0].message, env.tools), env)
      else Answer(reply.completion.choices[0].message)
  }

  /** The history the answering request was sent with: the given one, extended once per tool round. */
  function AnsweringHistory(fuel: nat, configured: string, modelName: string, messages: seq<Message>, env: ChatEnv): (h: seq<Message>)
    ensures messages <= h
    decreases fuel
  {
    if fuel == 0 then messages
    else
      var reply := env.chat(MakeRequest(configured, modelName, messages, false));
      if reply.status == 200 && |reply.completion.choices| > 0 && reply.completion.choices[0].finishReason == "tool_calls" then
        var next := ContinuedHistory(messages, reply.completion.choices[0].message, env.tools);
        assert next[..|messages|] == messages;
        AnsweringHistory(fuel - 1, configured, modelName, next, env)
      else messages
  }

  /**
   * Whatever Chat answers is the first-choice message of a reply, to a history extending the given
   * one, whose finish reason was not `tool_calls`.
   */
  lemma {:induction false} ChatAnswerFinishedWithoutTools(fuel: nat, configured: string, modelName: string,
                                                         messages: seq<Message>, env: ChatEnv)
    requires Chat(fuel, configured, modelName, messages, env).Answer?
    ensures var c := env.chat(MakeRequest(configured, modelName, AnsweringHistory(fuel, configured, modelName, messages, env), false)).completion;
      |c.choices| > 0 && c.choices[0].finishReason != "tool_calls"
      && Chat(fuel, configured, modelName, messages, env).message == c.choices[0].message
    decreases fuel
  {
    var reply := env.chat(MakeRequest(configured, modelName, messages, false));
    if reply.completion.choices[0].finishReason == "tool_calls" {
      var next := ContinuedHistory(messages, reply.completion.choices[0].message, env.tools);
      ChatAnswerFinishedWithoutTools(fuel - 1, configured, modelName, next, env);
    }
  }

  /** A non-200 reply ends the chat with an error embedding the body, whatever the body decoded to. */
  lemma ChatStatusError(fuel: nat, configured: string, modelName: string, messages: seq<Message>, env: ChatEnv)
    requires fuel > 0
    requires env.chat(MakeRequest(configured, modelName, messages, false)).status != 200
    ensures Chat(fuel, configured, modelName, messages, env)
         == Failed("error fetching response: " + env.chat(MakeRequest(configured, modelName, messages, false)).raw)
  {
  }
}
