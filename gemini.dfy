/**
 * The Gemini adapter: the translation between chat messages and Gemini contents, a chat call that
 * resends the conversation while the model answers with function calls, a stream that buffers
 * the lines of a JSON array until they decode, and the model catalogue.
 */
module Gemini {
  import opened Wrappers
  import opened Json
  import opened Text
  import opened Messages
  import opened Streams
  import opened Provider
  import Tools

  /** A Gemini content: its parts and its role (`user` or `model`). */
  datatype GContent = GContent(parts: seq<Part>, role: string)

  datatype Candidate = Candidate(content: GContent, finishReason: string)

  /** A generated answer, whole or one streamed element of it. */
  datatype Generated = Generated(candidates: seq<Candidate>)

  /** The zero value the stream decodes its first element into. */
  const NoCandidates: Generated := Generated([])

  /** A part with nothing but a text. */
  function TextPart(text: string): Part {
    Part(text, None, None, None)
  }

  /* ---------------- messages to contents ---------------- */

  /**
   * What one message becomes: a system message is skipped (`Some([])`); a non-empty string
   * content becomes a text part, followed by the first image when the image list is non-nil
   * (`None` when that list is empty, where the source's index panics); any other content becomes
   * one part carrying only the function call and response of a part-valued content. The role
   * `assistant` is renamed `model`.
   */
  function ContentOf(m: Message): (r: Option<seq<GContent>>)
    ensures m.role == "system" ==> r == Some([])
    ensures r.Some? && m.role != "system" ==> |r.value| == 1 && r.value[0].role == ModelRole(m.role)
    ensures r.None? <==> m.role != "system" && m.content.Text? && m.content.text != "" && m.images == Some([])
  {
    if m.role == "system" then Some([])
    else
      var role := ModelRole(m.role);
      if m.content.Text? && m.content.text != "" then
        match m.images
        case None => Some([GContent([TextPart(m.content.text)], role)])
        case Some(images) =>
          if |images| == 0 then None
          else Some([GContent([TextPart(m.content.text), Part("", Some(InlineData("image/jpeg", images[0])), None, None)], role)])
      else
        var carried := if m.content.PartValue? then m.content.part else TextPart("");
        Some([GContent([Part("", None, carried.functionCall, carried.functionResponse)], role)])
  }

  /** The role Gemini knows a message's role by. */
  function ModelRole(role: string): (r: string)
    ensures role == "assistant" ==> r == "model"
    ensures role != "assistant" ==> r == role
  {
    if role == "assistant" then "model" else role
  }

  /** The role a chat message gets back from a Gemini role. */
  function ChatRole(role: string): (r: string)
    ensures role == "model" ==> r == "assistant"
    ensures role != "model" ==> r == role
  {
    if role == "model" then "assistant" else role
  }

  /** `MessagesToContents`, as a value: the contents of the messages in order, or `None` on a panic. */
  function Contents(messages: seq<Message>): Option<seq<GContent>> {
    if messages == [] then Some([])
    else match Contents(messages[..|messages| - 1])
      case None => None
      case Some(cs) =>
        match ContentOf(messages[|messages| - 1])
        case None => None
        case Some(c) => Some(cs + c)
  }

  /** `MessagesToContents`: the conversion loop. */
  method MessagesToContents(messages: seq<Message>) returns (r: Option<seq<GContent>>)
    ensures r == Contents(messages)
  {
    var contents: seq<GContent> := [];
    var i := 0;
    while i < |messages|
      invariant 0 <= i <= |messages|
      invariant Contents(messages[..i]) == Some(contents)
    {
      assert messages[..i + 1][..i] == messages[..i];
      var m := messages[i];
      if m.role != "system" {
        var role := ModelRole(m.role);
        if m.content.Text? && m.content.text != "" {
          var content := GContent([TextPart(m.content.text)], role);
          if m.images.Some? {
            if |m.images.value| == 0 {
              PanicPersists(messages, i + 1);
              return None;
            }
            var image := Part("", Some(InlineData("image/jpeg", m.images.value[0])), None, None);
            content := content.(parts := content.parts + [image]);
            assert content.parts == [TextPart(m.content.text), image];
          }
          assert ContentOf(m) == Some([content]);
          contents := contents + [content];
        } else {
          var carried := if m.content.PartValue? then m.content.part else TextPart("");
          var content := GContent([Part("", None, carried.functionCall, carried.functionResponse)], role);
          assert ContentOf(m) == Some([content]);
          contents := contents + [content];
        }
      } else {
        assert ContentOf(m) == Some([]) && contents + [] == contents;
      }
      i := i + 1;
    }
    assert messages[..i] == messages;
    return Some(contents);
  }

  /** Once a message panics, the whole conversion does. */
  lemma {:induction false} PanicPersists(messages: seq<Message>, n: nat)
    requires n <= |messages| && Contents(messages[..n]).None?
    ensures Contents(messages).None?
    decreases |messages| - n
  {
    if n < |messages| {
      assert messages[..n + 1][..n] == messages[..n];
      PanicPersists(messages, n + 1);
    } else {
      assert messages[..n] == messages;
    }
  }

  /** No content sent to Gemini is a system message, and none has the chat role `assistant`. */
  lemma {:induction false} ContentsHaveGeminiRoles(messages: seq<Message>)
    requires Contents(messages).Some?
    ensures forall c :: c in Contents(messages).value ==> c.role != "system" && c.role != "assistant"
  {
    if messages != [] {
      ContentsHaveGeminiRoles(messages[..|messages| - 1]);
    }
  }

  /* ---------------- contents back to messages ---------------- */

  /**
   * The content of the message rebuilt from a Gemini content: decided by the last part alone,
   * which is kept whole if it carries a function call or response and reduced to its text
   * otherwise; nil when there are no parts.
   */
  function PartsContent(parts: seq<Part>): (r: Content)
    ensures parts == [] <==> r == NoContent
  {
    if parts == [] then NoContent
    else
      var last := parts[|parts| - 1];
      if last.functionResponse.Some? || last.functionCall.Some? then PartValue(last) else Text(last.text)
  }

  function MessageOf(content: GContent): Message {
    Message(ChatRole(content.role), "", PartsContent(content.parts), None, None, "")
  }

  /** `geminiContentsToMessages`, as a value. */
  function AsMessages(contents: seq<GContent>): (r: seq<Message>)
    ensures |r| == |contents|
    ensures forall k :: 0 <= k < |contents| ==> r[k] == MessageOf(contents[k])
  {
    if contents == [] then [] else AsMessages(contents[..|contents| - 1]) + [MessageOf(contents[|contents| - 1])]
  }

  /** `geminiContentsToMessages`: one message per content, its content taken from the parts loop. */
  method ContentsToMessages(contents: seq<GContent>) returns (messages: seq<Message>)
    ensures messages == AsMessages(contents)
  {
    messages := [];
    var i := 0;
    while i < |contents|
      invariant 0 <= i <= |contents|
      invariant messages == AsMessages(contents[..i])
    {
      assert contents[..i + 1][..i] == contents[..i];
      var content := contents[i];
      var role := ChatRole(content.role);
      var messageParts := NoContent;
      var j := 0;
      while j < |content.parts|
        invariant 0 <= j <= |content.parts|
        invariant messageParts == PartsContent(content.parts[..j])
      {
        var part := content.parts[j];
        if part.functionResponse.Some? || part.functionCall.Some? {
          messageParts := PartValue(part);
        } else {
          messageParts := Text(part.text);
        }
        j := j + 1;
      }
      assert content.parts[..j] == content.parts;
      messages := messages + [Message(role, "", messageParts, None, None, "")];
      i := i + 1;
    }
    assert contents[..i] == contents;
  }

  /**
   * A plain chat message: not a system message, role not `model`, a non-empty string content,
   * no name, images, tool calls or call id.
   */
  predicate Plain(m: Message) {
    m.role != "system" && m.role != "model" && m.content.Text? && m.content.text != ""
    && m.name == "" && m.images == None && m.toolCalls == None && m.toolCallId == ""
  }

  /** Plain messages survive the trip to Gemini contents and back unchanged. */
  lemma {:induction false} PlainMessagesRoundTrip(messages: seq<Message>)
    requires forall k :: 0 <= k < |messages| ==> Plain(messages[k])
    ensures Contents(messages).Some?
    ensures AsMessages(Contents(messages).value) == messages
  {
    if messages != [] {
      var init := messages[..|messages| - 1];
      var m := messages[|messages| - 1];
      PlainMessagesRoundTrip(init);
      assert Contents(messages).value == Contents(init).value + [GContent([TextPart(m.content.text)], ModelRole(m.role))];
      assert MessageOf(GContent([TextPart(m.content.text)], ModelRole(m.role))) == m;
    }
  }

  /**
   * A user message with a text and an image comes back from the trip with an empty text and no
   * image: the rebuilt message keeps only the last part, the image, reduced to its (empty) text.
   */
  lemma ImageMessageLosesItsText(text: string, image: string)
    requires text != ""
    ensures var m := Message("user", "", Text(text), Some([image]), None, "");
      Contents([m]).Some? && AsMessages(Contents([m]).value) == [Message("user", "", Text(""), None, None, "")]
  {
    var m := Message("user", "", Text(text), Some([image]), None, "");
    assert [m][..0] == [];
  }

  /* ---------------- the answer as a message ---------------- */

  /**
   * `contentToMessage`: a first part with a function call gives an empty text and an empty,
   * non-nil tool-call list; otherwise the first part's text. The role `model` is reported as
   * `assistant`. `None` when there are no parts, where the source's index panics.
   */
  function ContentToMessage(content: GContent): (r: Option<Message>)
    ensures r.Some? <==> |content.parts| > 0
    ensures r.Some? ==> r.value.role == ChatRole(content.role) && r.value.name == "" && r.value.images == None
    ensures r.Some? ==> (r.value.toolCalls == Some([]) <==> content.parts[0].functionCall.Some?)
    ensures r.Some? && content.parts[0].functionCall.None? ==> r.value.content == Text(content.parts[0].text)
  {
    if |content.parts| == 0 then None
    else if content.parts[0].functionCall.Some? then Some(Message(ChatRole(content.role), "", Text(""), None, Some([]), ""))
    else Some(Message(ChatRole(content.role), "", Text(content.parts[0].text), None, None, ""))
  }

  /* ---------------- function calls ---------------- */

  /** Some part of some candidate asks for a function call. */
  predicate AnyFunctionCall(r: Generated) {
    exists i, j :: 0 <= i < |r.candidates| && 0 <= j < |r.candidates[i].content.parts|
                   && r.candidates[i].content.parts[j].functionCall.Some?
  }

  /** `hasFunctionCall`: the scan over every part of every candidate. */
  method HasFunctionCall(r: Generated) returns (found: bool)
    ensures found <==> AnyFunctionCall(r)
  {
    var i := 0;
    while i < |r.candidates|
      invariant 0 <= i <= |r.candidates|
      invariant forall i', j :: 0 <= i' < i && 0 <= j < |r.candidates[i'].content.parts|
                  ==> r.candidates[i'].content.parts[j].functionCall.None?
    {
      var parts := r.candidates[i].content.parts;
      var j := 0;
      while j < |parts|
        invariant 0 <= j <= |parts|
        invariant forall j' :: 0 <= j' < j ==> parts[j'].functionCall.None?
      {
        if parts[j].functionCall.Some? {
          return true;
        }
        j := j + 1;
      }
      i := i + 1;
    }
    return false;
  }

  /** The two contents that answer one function-call part, or none when its arguments do not encode. */
  function ToolTurn(part: Part, parts: seq<Part>, env: ToolEnv): seq<GContent> {
    match part.functionCall
    case None => []
    case Some(call) =>
      match env.marshal(call.args)
      case None => []
      case Some(argsJson) =>
        var answer := Tools.NewTools(call.name, argsJson, env.call);
        [GContent(parts, "model"),
         GContent([Part("", None, None, Some(GeminiFunctionResponse(call.name, JObj(map["response" := JStr(answer)]))))], "user")]
  }

  /** The contents answering every function-call part of `calls`, in order. */
  function ToolTurns(calls: seq<Part>, parts: seq<Part>, env: ToolEnv): seq<GContent> {
    if calls == [] then [] else ToolTurns(calls[..|calls| - 1], parts, env) + ToolTurn(calls[|calls| - 1], parts, env)
  }

  /** The conversation sent again after the model asked for function calls in `parts`. */
  function Continued(contents: seq<GContent>, parts: seq<Part>, env: ToolEnv): seq<Message> {
    AsMessages(contents + ToolTurns(parts, parts, env))
  }

  /** `geminiToolCalls`: appends the answered calls to the contents and converts back to messages. */
  method GeminiToolCalls(contents: seq<GContent>, parts: seq<Part>, env: ToolEnv) returns (messages: seq<Message>)
    ensures messages == Continued(contents, parts, env)
  {
    var all := contents;
    var i := 0;
    while i < |parts|
      invariant 0 <= i <= |parts|
      invariant all == contents + ToolTurns(parts[..i], parts, env)
    {
      assert parts[..i + 1][..i] == parts[..i];
      var part := parts[i];
      if part.functionCall.Some? {
        var call := part.functionCall.value;
        var argsJson := env.marshal(call.args);
        if argsJson.Some? {
          var answer := Tools.NewTools(call.name, argsJson.value, env.call);
          all := all + [GContent(parts, "model"),
                        GContent([Part("", None, None, Some(GeminiFunctionResponse(call.name, JObj(map["response" := JStr(answer)]))))], "user")];
        }
      }
      i := i + 1;
    }
    assert parts[..i] == parts;
    messages := ContentsToMessages(all);
  }

  /** A `user` turn whose one part is a function response. */
  predicate IsAnswerTurn(c: GContent) {
    c.role == "user" && |c.parts| == 1 && c.parts[0].functionResponse.Some?
  }

  /** `turns` is a sequence of pairs: a `model` turn repeating all the parts, then an answer turn. */
  predicate Paired(turns: seq<GContent>, parts: seq<Part>) {
    |turns| % 2 == 0
    && forall k :: 0 <= k < |turns| / 2 ==> turns[2 * k] == GContent(parts, "model") && IsAnswerTurn(turns[2 * k + 1])
  }

  /** One answered call is such a pair, and a part without a call adds nothing. */
  lemma ToolTurnShape(part: Part, parts: seq<Part>, env: ToolEnv)
    ensures var t := ToolTurn(part, parts, env);
      t == [] || (|t| == 2 && t[0] == GContent(parts, "model") && IsAnswerTurn(t[1]))
  {
  }

  /** Appending a pair (or nothing) keeps the turns paired. */
  lemma PairedAppend(before: seq<GContent>, turn: seq<GContent>, parts: seq<Part>)
    requires Paired(before, parts)
    requires turn == [] || (|turn| == 2 && turn[0] == GContent(parts, "model") && IsAnswerTurn(turn[1]))
    ensures Paired(before + turn, parts)
  {
    var all := before + turn;
    forall k | 0 <= k < |all| / 2
      ensures all[2 * k] == GContent(parts, "model") && IsAnswerTurn(all[2 * k + 1])
    {
      if 2 * k < |before| {
        assert all[2 * k] == before[2 * k] && all[2 * k + 1] == before[2 * k + 1];
      } else {
        assert all[2 * k] == turn[0] && all[2 * k + 1] == turn[1];
      }
    }
  }

  /**
   * Every answered call adds a `model` turn repeating all the parts, then a `user` turn whose one
   * part is the function response; a part without a call adds nothing.
   */
  lemma {:induction false} ToolTurnsArePairs(calls: seq<Part>, parts: seq<Part>, env: ToolEnv)
    ensures Paired(ToolTurns(calls, parts, env), parts)
    ensures |ToolTurns(calls, parts, env)| <= 2 * |calls|
  {
    if calls != [] {
      var init := calls[..|calls| - 1];
      ToolTurnsArePairs(init, parts, env);
      ToolTurnShape(calls[|calls| - 1], parts, env);
      PairedAppend(ToolTurns(init, parts, env), ToolTurn(calls[|calls| - 1], parts, env), parts);
    }
  }

  /**
   * The continued conversation has no system message: the system prompt of the first request is
   * not sent again once a function has been called.
   */
  lemma ContinuationDropsTheSystemPrompt(messages: seq<Message>, parts: seq<Part>, env: ToolEnv)
    requires Contents(messages).Some?
    ensures forall m :: m in Continued(Contents(messages).value, parts, env) ==> m.role != "system"
  {
    ContentsHaveGeminiRoles(messages);
    ToolTurnRoles(parts, parts, env);
    var all := Contents(messages).value + ToolTurns(parts, parts, env);
    assert forall c :: c in all ==> c.role != "system";
    forall m | m in AsMessages(all)
      ensures m.role != "system"
    {
      var k :| 0 <= k < |all| && AsMessages(all)[k] == m;
      assert all[k] in all;
    }
  }

  /** Every answering content is a `model` or a `user` content. */
  lemma {:induction false} ToolTurnRoles(calls: seq<Part>, parts: seq<Part>, env: ToolEnv)
    ensures forall c :: c in ToolTurns(calls, parts, env) ==> c.role == "model" || c.role == "user"
  {
    if calls != [] {
      ToolTurnRoles(calls[..|calls| - 1], parts, env);
    }
  }

  /* ---------------- requests ---------------- */

  /** What is posted to `generateContent` / `streamGenerateContent`. */
  datatype GRequest = GRequest(
    model: string,
    contents: seq<GContent>,
    systemInstruction: Option<string>,
    functionCallingMode: string,
    functionDeclarations: seq<Json>,
    stream: bool)

  datatype ChatReply = ChatReply(status: int, raw: string, response: Generated)

  /**
   * The outside world: the server, the decoder, the callback, the tools and the registry's tool
   * list. Every element of one stream is decoded into the same variable, so the decoder is given
   * the value decoded so far. `stream` is `None` when the streamed request gets no response at
   * all: the source ignores that error and panics closing the missing body.
   */
  datatype Env = Env(
    chat: GRequest -> ChatReply,
    stream: GRequest -> Option<Reply>,
    decode: (Generated, string) -> Option<Generated>,
    accept: seq<Message> -> bool,
    tools: ToolEnv,
    registry: seq<Json>)

  /** The function object of a registry entry shaped `{"function": {...}}`. */
  function FunctionOf(tool: Json): seq<Json> {
    if tool.JObj? && "function" in tool.fields && tool.fields["function"].JObj? then [tool.fields["function"]] else []
  }

  /** `getToolsTransform`, as a value: the function objects of the registry, in order. */
  function Declarations(tools: seq<Json>): (r: seq<Json>)
    ensures |r| <= |tools|
    ensures forall k :: 0 <= k < |r| ==> r[k].JObj?
  {
    if tools == [] then [] else Declarations(tools[..|tools| - 1]) + FunctionOf(tools[|tools| - 1])
  }

  /** `getToolsTransform`: keeps the `function` object of every entry that has one. */
  method GetToolsTransform(tools: seq<Json>) returns (flattened: seq<Json>)
    ensures flattened == Declarations(tools)
  {
    flattened := [];
    var i := 0;
    while i < |tools|
      invariant 0 <= i <= |tools|
      invariant flattened == Declarations(tools[..i])
    {
      assert tools[..i + 1][..i] == tools[..i];
      var tool := tools[i];
      if tool.JObj? && "function" in tool.fields && tool.fields["function"].JObj? {
        flattened := flattened + [tool.fields["function"]];
      }
      i := i + 1;
    }
    assert tools[..i] == tools;
  }

  /**
   * The request for `messages`: their contents, the first message's text as system instruction
   * when it is a system message, function calling `AUTO` with the flattened tool list. `None`
   * when the conversion panics or the system message's content is not a string.
   */
  function Prepare(configured: string, modelName: string, messages: seq<Message>, stream: bool, env: Env): (r: Option<GRequest>)
    ensures r.Some? ==> r.value.stream == stream && r.value.functionCallingMode == "AUTO"
    ensures r.Some? ==> r.value.model == DefaultModel(configured, modelName) && Contents(messages) == Some(r.value.contents)
    ensures r.Some? ==> (r.value.systemInstruction.Some? <==> |messages| > 0 && messages[0].role == "system")
  {
    match Contents(messages)
    case None => None
    case Some(contents) =>
      var model := DefaultModel(configured, modelName);
      var declarations := Declarations(env.registry);
      if |messages| > 0 && messages[0].role == "system" then
        if messages[0].content.Text? then
          Some(GRequest(model, contents, Some(messages[0].content.text), "AUTO", declarations, stream))
        else None
      else Some(GRequest(model, contents, None, "AUTO", declarations, stream))
  }

  /** The request, built by the adapter's own loops. */
  method BuildRequest(configured: string, modelName: string, messages: seq<Message>, stream: bool, env: Env)
    returns (r: Option<GRequest>)
    ensures r == Prepare(configured, modelName, messages, stream, env)
  {
    var contents := MessagesToContents(messages);
    if contents.None? {
      return None;
    }
    var declarations := GetToolsTransform(env.registry);
    var system := None;
    if |messages| > 0 && messages[0].role == "system" {
      if !messages[0].content.Text? {
        return None;
      }
      system := Some(messages[0].content.text);
    }
    return Some(GRequest(DefaultModel(configured, modelName), contents.value, system, "AUTO", declarations, stream));
  }

  /* ---------------- chat ---------------- */

  /**
   * `Chat`: a non-200 reply is an error carrying the body; a function call anywhere in the reply
   * asks again with the conversation continued by the first candidate's calls; a first candidate
   * stopped for `SAFETY` is an error; otherwise the first candidate is the answer.
   */
  function Chat(fuel: nat, configured: string, modelName: string, messages: seq<Message>, env: Env): ChatOutcome
    decreases fuel
  {
    if fuel == 0 then ChatOutOfFuel
    else match Prepare(configured, modelName, messages, false, env)
      case None => Panicked
      case Some(q) =>
        var reply := env.chat(q);
        if reply.status != 200 then Failed("error fetching response: " + reply.raw)
        else if AnyFunctionCall(reply.response) then
          Chat(fuel - 1, configured, modelName, Continued(q.contents, reply.response.candidates[0].content.parts, env.tools), env)
        else if |reply.response.candidates| == 0 then Panicked
        else if reply.response.candidates[0].finishReason == "SAFETY" then Failed("SAFETY")
        else match ContentToMessage(reply.response.candidates[0].content)
          case None => Panicked
          case Some(m) => Answer(m)
  }

  /**
   * An answer never carries tool calls: a reply with any function call is resolved by asking
   * again, so the answer is the text of the first part of a reply without calls.
   */
  lemma {:induction false} ChatAnswerIsText(fuel: nat, configured: string, modelName: string,
                                            messages: seq<Message>, env: Env)
    requires Chat(fuel, configured, modelName, messages, env).Answer?
    ensures Chat(fuel, configured, modelName, messages, env).message.toolCalls == None
    ensures Chat(fuel, configured, modelName, messages, env).message.content.Text?
    decreases fuel
  {
    var q := Prepare(configured, modelName, messages, false, env).value;
    var reply := env.chat(q);
    if AnyFunctionCall(reply.response) {
      ChatAnswerIsText(fuel - 1, configured, modelName,
        Continued(q.contents, reply.response.candidates[0].content.parts, env.tools), env);
    } else {
      var c := reply.response.candidates[0].content;
      assert !AnyFunctionCall(reply.response);
    }
  }

  /** A reply stopped for safety, without function calls, is the error `SAFETY`. */
  lemma ChatSafetyStop(fuel: nat, configured: string, modelName: string, messages: seq<Message>, env: Env)
    requires fuel > 0 && Prepare(configured, modelName, messages, false, env).Some?
    requires var reply := env.chat(Prepare(configured, modelName, messages, false, env).value);
      reply.status == 200 && !AnyFunctionCall(reply.response) && |reply.response.candidates| > 0
      && reply.response.candidates[0].finishReason == "SAFETY"
    ensures Chat(fuel, configured, modelName, messages, env) == Failed("SAFETY")
  {
  }

  /** A leading system message whose content is not a string makes the call panic before any request. */
  lemma NonStringSystemPromptPanics(fuel: nat, configured: string, modelName: string, messages: seq<Message>, env: Env)
    requires fuel > 0 && |messages| > 0 && messages[0].role == "system" && !messages[0].content.Text?
    ensures Chat(fuel, configured, modelName, messages, env) == Panicked
  {
  }

  /* ---------------- stream ---------------- */

  /**
   * The buffer once a line is read: the trimmed line is appended unless it is the array
   * separator `,`, and a leading `[` (the start of the streamed array) is removed.
   */
  function Buffered(buffer: string, line: string): string {
    var t := TrimSpace(line);
    TrimPrefix(if t != "," then buffer + t else buffer, "[")
  }

  /** A streamed request; the source recurses without bound and `fuel` bounds it here. */
  function Stream(fuel: nat, configured: string, modelName: string, messages: seq<Message>,
                  delivered: seq<Message>, env: Env): StreamRun
    decreases fuel, 1, 0
  {
    if fuel == 0 then StreamRun(delivered, OutOfFuel)
    else match Prepare(configured, modelName, messages, true, env)
      case None => StreamRun(delivered, Panic)
      case Some(q) =>
        match env.stream(q)
        case None => StreamRun(delivered, Panic)
        case Some(reply) => Scan(fuel, configured, modelName, q.contents, reply, 0, NoCandidates, "", delivered, env)
  }

  /** What one line leads to. */
  datatype Next =
    | Continue(last: Generated, buffer: string, delivered: seq<Message>)
    | Stop(run: StreamRun)
    | Resume(parts: seq<Part>, delivered: seq<Message>)

  /**
   * One line, `last` being the value decoded so far: the buffer grows until it decodes; a decoded
   * element of a non-200 reply is an error carrying the buffer; otherwise the first candidate is
   * delivered, the buffer emptied, and a function call anywhere in the element resumes the
   * conversation with the first candidate's parts.
   */
  function Step(status: int, line: string, last: Generated, buffer: string, delivered: seq<Message>, env: Env): Next {
    var buf := Buffered(buffer, line);
    match env.decode(last, buf)
    case None => Continue(last, buf, delivered)
    case Some(g) =>
      if status != 200 then Stop(StreamRun(delivered, StatusError(buf)))
      else if |g.candidates| == 0 then Stop(StreamRun(delivered, Panic))
      else match ContentToMessage(g.candidates[0].content)
        case None => Stop(StreamRun(delivered, Panic))
        case Some(m) =>
          var d := delivered + [m];
          if !env.accept(d) then Stop(StreamRun(d, CallbackError))
          else if AnyFunctionCall(g) then Resume(g.candidates[0].content.parts, d)
          else Continue(g, "", d)
  }

  /** The stream loop from line `i` on; `contents` is what the request was built from. */
  function Scan(fuel: nat, configured: string, modelName: string, contents: seq<GContent>, reply: Reply,
                i: nat, last: Generated, buffer: string, delivered: seq<Message>, env: Env): StreamRun
    requires fuel > 0 && i <= |reply.body.lines|
    decreases fuel, 0, |reply.body.lines| - i
  {
    if i == |reply.body.lines| then StreamRun(delivered, if reply.body.readFailed then ReadError else Completed)
    else match Step(reply.status, reply.body.lines[i], last, buffer, delivered, env)
      case Continue(g, b, d) => Scan(fuel, configured, modelName, contents, reply, i + 1, g, b, d, env)
      case Stop(run) => run
      case Resume(parts, d) =>
        Stream(fuel - 1, configured, modelName, Continued(contents, parts, env.tools), d, env)
  }

  /**
   * `ChatStream`: the read loop. The source calls itself, as its last action, to stream the
   * continued conversation; that tail call is the outer loop here, one round per request.
   */
  method ChatStream(fuel: nat, configured: string, modelName: string, messages: seq<Message>,
                    delivered: seq<Message>, env: Env) returns (run: StreamRun)
    ensures run == Stream(fuel, configured, modelName, messages, delivered, env)
  {
    var rounds := fuel;
    var history := messages;
    var sent := delivered;
    while rounds > 0
      invariant Stream(rounds, configured, modelName, history, sent, env)
             == Stream(fuel, configured, modelName, messages, delivered, env)
    {
      var leg := Round(rounds, configured, modelName, history, sent, env);
      match leg
      case Finished(r) =>
        return r;
      case Resumed(h, d) =>
        history, sent, rounds := h, d, rounds - 1;
    }
    return StreamRun(sent, OutOfFuel);
  }

  /** How one streamed request ends: with the run's result, or by asking to continue. */
  datatype Leg = Finished(run: StreamRun) | Resumed(history: seq<Message>, delivered: seq<Message>)

  /** One request of the streaming conversation: build it, send it, read its reply. */
  method Round(fuel: nat, configured: string, modelName: string, messages: seq<Message>,
               delivered: seq<Message>, env: Env) returns (leg: Leg)
    requires fuel > 0
    ensures leg.Finished? ==> leg.run == Stream(fuel, configured, modelName, messages, delivered, env)
    ensures leg.Resumed? ==> Stream(fuel - 1, configured, modelName, leg.history, leg.delivered, env)
                             == Stream(fuel, configured, modelName, messages, delivered, env)
  {
    var request := BuildRequest(configured, modelName, messages, true, env);
    if request.None? {
      return Finished(StreamRun(delivered, Panic));
    }
    var q := request.value;
    var reply := env.stream(q);
    if reply.None? {
      return Finished(StreamRun(delivered, Panic));
    }
    leg := ReadStream(fuel, configured, modelName, q.contents, reply.value, delivered, env);
  }

  /** The read loop over one reply; a function call ends it with the continued conversation. */
  method ReadStream(fuel: nat, configured: string, modelName: string, contents: seq<GContent>,
                    reply: Reply, delivered: seq<Message>, env: Env) returns (leg: Leg)
    requires fuel > 0
    ensures leg.Finished? ==> leg.run == Scan(fuel, configured, modelName, contents, reply, 0, NoCandidates, "", delivered, env)
    ensures leg.Resumed? ==> Stream(fuel - 1, configured, modelName, leg.history, leg.delivered, env)
                             == Scan(fuel, configured, modelName, contents, reply, 0, NoCandidates, "", delivered, env)
  {
    ghost var target := Scan(fuel, configured, modelName, contents, reply, 0, NoCandidates, "", delivered, env);
    var lines := reply.body.lines;
    var i := 0;
    var response := NoCandidates;
    var buffer := "";
    var sent := delivered;
    while i < |lines|
      invariant 0 <= i <= |lines|
      invariant Scan(fuel, configured, modelName, contents, reply, i, response, buffer, sent, env) == target
    {
      var next := ReadLine(reply.status, lines[i], response, buffer, sent, env);
      match next
      case Stop(end) =>
        return Finished(end);
      case Resume(parts, d) =>
        var history := GeminiToolCalls(contents, parts, env.tools);
        return Resumed(history, d);
      case Continue(g, b, d) =>
        response, buffer, sent, i := g, b, d, i + 1;
    }
    return Finished(StreamRun(sent, if reply.body.readFailed then ReadError else Completed));
  }

  /** The body of the read loop for one line. */
  method ReadLine(status: int, line: string, response: Generated, buffer: string, delivered: seq<Message>, env: Env)
    returns (next: Next)
    ensures next == Step(status, line, response, buffer, delivered, env)
  {
    var t := TrimSpace(line);
    var buf := buffer;
    if t != "," {
      buf := buf + t;
    }
    buf := TrimPrefix(buf, "[");
    var decoded := env.decode(response, buf);
    if decoded.None? {
      return Continue(response, buf, delivered);
    }
    if status != 200 {
      return Stop(StreamRun(delivered, StatusError(buf)));
    }
    var candidates := decoded.value.candidates;
    if |candidates| == 0 {
      return Stop(StreamRun(delivered, Panic));
    }
    var partial := ContentToMessage(candidates[0].content);
    if partial.None? {
      return Stop(StreamRun(delivered, Panic));
    }
    var sent := delivered + [partial.value];
    if !env.accept(sent) {
      return Stop(StreamRun(sent, CallbackError));
    }
    var call := HasFunctionCall(decoded.value);
    if call {
      return Resume(candidates[0].content.parts, sent);
    }
    return Continue(decoded.value, "", sent);
  }

  /**
   * A reply whose lines never decode ends without error, whatever its status: the status is
   * only looked at once an element has decoded.
   */
  lemma {:induction false} UndecodableReplyEndsQuietly(fuel: nat, configured: string, modelName: string,
                                                      contents: seq<GContent>, reply: Reply, i: nat,
                                                      last: Generated, buffer: string, delivered: seq<Message>, env: Env)
    requires fuel > 0 && i <= |reply.body.lines| && !reply.body.readFailed
    requires forall g, s :: env.decode(g, s).None?
    ensures Scan(fuel, configured, modelName, contents, reply, i, last, buffer, delivered, env) == StreamRun(delivered, Completed)
    decreases |reply.body.lines| - i
  {
    if i < |reply.body.lines| {
      var buf := Buffered(buffer, reply.body.lines[i]);
      assert env.decode(last, buf).None?;
      UndecodableReplyEndsQuietly(fuel, configured, modelName, contents, reply, i + 1, last, buf, delivered, env);
    }
  }

  /** The first element that decodes from a non-200 reply is the error, and nothing is delivered. */
  lemma StatusErrorOnFirstElement(fuel: nat, configured: string, modelName: string, contents: seq<GContent>,
                                  reply: Reply, last: Generated, delivered: seq<Message>, env: Env, g: Generated)
    requires fuel > 0 && |reply.body.lines| > 0 && reply.status != 200
    requires env.decode(last, Buffered("", reply.body.lines[0])) == Some(g)
    ensures Scan(fuel, configured, modelName, contents, reply, 0, last, "", delivered, env)
         == StreamRun(delivered, StatusError(Buffered("", reply.body.lines[0])))
  {
  }

  /** A streamed request that gets no response panics before anything is read or delivered. */
  lemma FailedRequestPanics(fuel: nat, configured: string, modelName: string, messages: seq<Message>,
                            delivered: seq<Message>, env: Env)
    requires fuel > 0 && Prepare(configured, modelName, messages, true, env).Some?
    requires env.stream(Prepare(configured, modelName, messages, true, env).value).None?
    ensures Stream(fuel, configured, modelName, messages, delivered, env) == StreamRun(delivered, Panic)
  {
  }

  /** The separator line between array elements adds nothing to the buffer. */
  lemma SeparatorIsDropped(buffer: string)
    ensures Buffered(buffer, ",\n") == TrimPrefix(buffer, "[")
  {
    assert "" + "," + "\n" == ",\n";
    TrimSpaceOfPadded("", ",", "\n");
  }

  /** The opening bracket of the streamed array is dropped from the first line. */
  lemma OpeningBracketIsDropped()
    ensures Buffered("", "[{\n") == "{"
  {
    assert "" + "[{" + "\n" == "[{\n";
    TrimSpaceOfPadded("", "[{", "\n");
    assert "" + "[{" == "[{" && "[{"[..1] == "[";
  }

  /**
   * An element with a function call is delivered first; then the stream carries on as a new
   * request for the conversation continued by the first candidate's calls.
   */
  lemma FunctionCallContinues(fuel: nat, configured: string, modelName: string, contents: seq<GContent>,
                              reply: Reply, i: nat, last: Generated, buffer: string, delivered: seq<Message>,
                              env: Env, g: Generated, m: Message)
    requires fuel > 0 && i < |reply.body.lines| && reply.status == 200
    requires env.decode(last, Buffered(buffer, reply.body.lines[i])) == Some(g)
    requires AnyFunctionCall(g) && ContentToMessage(g.candidates[0].content) == Some(m)
    requires env.accept(delivered + [m])
    ensures Scan(fuel, configured, modelName, contents, reply, i, last, buffer, delivered, env)
         == Stream(fuel - 1, configured, modelName, Continued(contents, g.candidates[0].content.parts, env.tools),
                   delivered + [m], env)
  {
  }

  /* ---------------- models ---------------- */

  /** One entry of the model catalogue. */
  datatype GModel = GModel(name: string, supportedGenerationMethods: seq<string>)

  /** Models named for version 1.0, `gemini-pro` or experiments are not offered. */
  predicate Excluded(name: string) {
    Contains(name, "1.0") || Contains(name, "gemini-pro") || Contains(name, "exp")
  }

  /** How often `generateContent` occurs among the methods. */
  function GenerateCount(methods: seq<string>): (r: nat)
    ensures r <= |methods|
    ensures r > 0 <==> "generateContent" in methods
  {
    if methods == [] then 0
    else GenerateCount(methods[..|methods| - 1]) + (if methods[|methods| - 1] == "generateContent" then 1 else 0)
  }

  /** The catalogue as offered: every model not excluded, once per `generateContent` method. */
  function Listed(models: seq<GModel>): seq<string> {
    if models == [] then []
    else
      var m := models[|models| - 1];
      Listed(models[..|models| - 1]) + (if Excluded(m.name) then [] else Repeat(m.name, GenerateCount(m.supportedGenerationMethods)))
  }

  /** The names one catalogue entry contributes: none when excluded, else one per `generateContent` method. */
  method OfferedNames(model: GModel) returns (names: seq<string>)
    ensures names == if Excluded(model.name) then [] else Repeat(model.name, GenerateCount(model.supportedGenerationMethods))
  {
    if Excluded(model.name) {
      return [];
    }
    names := PerGenerateMethod(model.name, model.supportedGenerationMethods);
  }

  /** The name once for every `generateContent` among the methods. */
  method PerGenerateMethod(name: string, methods: seq<string>) returns (names: seq<string>)
    ensures names == Repeat(name, GenerateCount(methods))
  {
    names := [];
    var j := 0;
    while j < |methods|
      invariant 0 <= j <= |methods|
      invariant names == Repeat(name, GenerateCount(methods[..j]))
    {
      assert methods[..j + 1][..j] == methods[..j];
      if methods[j] == "generateContent" {
        names := names + [name];
      }
      j := j + 1;
    }
    assert methods[..j] == methods;
  }

  /** `Models` with `geminiModels`: a transport error or non-200 status is an error, else the offered names. */
  method Models(transportError: Option<string>, status: int, raw: string, catalogue: seq<GModel>)
    returns (r: Result<seq<string>, string>)
    ensures r.Err? <==> transportError.Some? || status != 200
    ensures transportError.Some? ==> r == Err("error fetching gemini models: " + transportError.value)
    ensures transportError.None? && status != 200 ==> r == Err("error fetching gemini models: " + raw)
    ensures r.Ok? ==> r.value == Listed(catalogue)
  {
    if transportError.Some? {
      return Err("error fetching gemini models: " + transportError.value);
    }
    if status != 200 {
      return Err("error fetching gemini models: " + raw);
    }
    var models: seq<string> := [];
    var i := 0;
    while i < |catalogue|
      invariant 0 <= i <= |catalogue|
      invariant models == Listed(catalogue[..i])
    {
      assert catalogue[..i + 1][..i] == catalogue[..i];
      var offered := OfferedNames(catalogue[i]);
      models := models + offered;
      i := i + 1;
    }
    assert catalogue[..i] == catalogue;
    return Ok(models);
  }

  /** A model supporting `generateContent` whose name is not excluded. */
  predicate Offered(m: GModel) {
    !Excluded(m.name) && "generateContent" in m.supportedGenerationMethods
  }

  /** Every listed name is the name of an offered model, and every offered model is listed. */
  lemma {:induction false} ListedAreExactlyTheOffered(models: seq<GModel>)
    ensures forall s :: s in Listed(models) ==> exists k :: 0 <= k < |models| && models[k].name == s && Offered(models[k])
    ensures forall k :: 0 <= k < |models| && Offered(models[k]) ==> models[k].name in Listed(models)
  {
    if models != [] {
      var init := models[..|models| - 1];
      var m := models[|models| - 1];
      ListedAreExactlyTheOffered(init);
      var more := if Excluded(m.name) then [] else Repeat(m.name, GenerateCount(m.supportedGenerationMethods));
      assert Listed(models) == Listed(init) + more;
      forall s | s in Listed(models)
        ensures exists k :: 0 <= k < |models| && models[k].name == s && Offered(models[k])
      {
        if s in Listed(init) {
          var k :| 0 <= k < |init| && init[k].name == s && Offered(init[k]);
          assert models[k] == init[k];
        } else {
          assert s in more;
          assert models[|models| - 1] == m;
        }
      }
      forall k | 0 <= k < |models| && Offered(models[k])
        ensures models[k].name in Listed(models)
      {
        if k < |init| {
          assert init[k] == models[k];
        } else {
          assert more[0] == m.name;
        }
      }
    }
  }
}
