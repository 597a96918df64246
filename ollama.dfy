/**
 * The Ollama adapter: a chat call that resends the history while the model keeps asking for
 * tools, a newline-delimited JSON stream, and the model catalogue.
 */
module Ollama {
  import opened Wrappers
  import opened Messages
  import opened Streams
  import opened Provider

  /** One decoded JSON object of the stream (and the body of a non-streaming answer). */
  datatype Frame = Frame(message: Message, done: bool)

  /** The zero value the stream decodes its first line into. */
  const ZeroFrame: Frame := Frame(ZeroMessage, false)

  /** What is posted to `/api/chat`. */
  datatype Request = Request(model: string, messages: seq<Message>, stream: bool, withTools: bool)

  /** The reply to a non-streaming request: status, raw body text, and the decoded body. */
  datatype ChatReply = ChatReply(status: int, raw: string, response: Frame)

  /** One entry of `/api/tags`. */
  datatype Tag = Tag(name: string, model: string)

  datatype TagsReply = TagsReply(status: int, raw: string, models: seq<Tag>)

  /**
   * The outside world of the adapter: the server, the JSON decoder, the caller's callback, the
   * tools. Every line is decoded into the same variable, so the decoder is given the frame decoded
   * so far: a field a line leaves out keeps its earlier value. `stream` is `None` when the streamed
   * request gets no response at all: the source ignores that error and panics closing the missing body.
   */
  datatype Env = Env(
    chat: Request -> ChatReply,
    stream: Request -> Option<Reply>,
    decode: (Frame, string) -> Option<Frame>,
    accept: seq<Message> -> bool,
    tools: ToolEnv)

  /** The request `Chat` sends: not streamed, and with the tool list. */
  function ChatRequest(configured: string, modelName: string, messages: seq<Message>): (q: Request)
    ensures q.withTools && !q.stream && q.messages == messages
    ensures q.model == DefaultModel(configured, modelName)
  {
    Request(DefaultModel(configured, modelName), messages, false, true)
  }

  /** The request `ChatStream` sends: streamed, and without any tool list. */
  function StreamRequest(configured: string, modelName: string, messages: seq<Message>): (q: Request)
    ensures !q.withTools && q.stream && q.messages == messages
    ensures q.model == DefaultModel(configured, modelName)
  {
    Request(DefaultModel(configured, modelName), messages, true, false)
  }

  /**
   * `Chat`: a non-200 reply is an error carrying the body; a reply whose message has a non-nil
   * tool-call list is answered by asking again with the continued history; otherwise the reply's
   * message is the answer. The source recurses without bound; `fuel` bounds it here.
   */
  function Chat(fuel: nat, configured: string, modelName: string, messages: seq<Message>, env: Env): ChatOutcome
    decreases fuel
  {
    if fuel == 0 then ChatOutOfFuel
    else
      var reply := env.chat(ChatRequest(configured, modelName, messages));
      if reply.status != 200 then Failed("error fetching response: " + reply.raw)
      else if reply.response.message.toolCalls.Some? then
        Chat(fuel - 1, configured, modelName, ContinuedHistory(messages, reply.response.message, env.tools), env)
      else Answer(reply.response.message)
  }

  /** A non-200 reply ends the chat with an error embedding the body, whatever the body decoded to. */
  lemma ChatStatusError(fuel: nat, configured: string, modelName: string, messages: seq<Message>, env: Env)
    requires fuel > 0
    requires env.chat(ChatRequest(configured, modelName, messages)).status != 200
    ensures Chat(fuel, configured, modelName, messages, env)
         == Failed("error fetching response: " + env.chat(ChatRequest(configured, modelName, messages)).raw)
  {
  }

  /** The history the answering request was sent with: the given one, extended once per tool round. */
  function AnsweringHistory(fuel: nat, configured: string, modelName: string, messages: seq<Message>, env: Env): (h: seq<Message>)
    ensures messages <= h
    decreases fuel
  {
    if fuel == 0 then messages
    else
      var reply := env.chat(ChatRequest(configured, modelName, messages));
      if reply.status == 200 && reply.response.message.toolCalls.Some? then
        var next := ContinuedHistory(messages, reply.response.message, env.tools);
        assert next[..|messages|] == messages;
        AnsweringHistory(fuel - 1, configured, modelName, next, env)
      else messages
  }

  /**
   * Any answer Chat returns asks for no tools (tool requests are always resolved first), and is
   * the message of the reply to a history extending the given one.
   */
  lemma {:induction false} ChatAnswerHasNoToolCalls(fuel: nat, configured: string, modelName: string,
                                                    messages: seq<Message>, env: Env)
    requires Chat(fuel, configured, modelName, messages, env).Answer?
    ensures Chat(fuel, configured, modelName, messages, env).message.toolCalls == None
    ensures Chat(fuel, configured, modelName, messages, env).message
         == env.chat(ChatRequest(configured, modelName, AnsweringHistory(fuel, configured, modelName, messages, env))).response.message
    decreases fuel
  {
    var reply := env.chat(ChatRequest(configured, modelName, messages));
    if reply.response.message.toolCalls.Some? {
      ChatAnswerHasNoToolCalls(fuel - 1, configured, modelName, ContinuedHistory(messages, reply.response.message, env.tools), env);
    }
  }

  /**
   * The stream loop from read `i` on, `last` being the frame decoded so far. The status is checked
   * after every read, before the read error; each line is decoded whole over `last`, its message
   * delivered, and a frame with `done` ends the stream.
   */
  function Scan(reply: Reply, i: nat, last: Frame, delivered: seq<Message>, env: Env): StreamRun
    requires i <= |reply.body.lines|
    decreases |reply.body.lines| - i
  {
    if reply.status != 200 then StreamRun(delivered, StatusError(ReadAt(reply.body, i)))
    else if i == |reply.body.lines| then StreamRun(delivered, if reply.body.readFailed then ReadError else Completed)
    else match env.decode(last, reply.body.lines[i])
      case None => StreamRun(delivered, DecodeError)
      case Some(frame) =>
        var d := delivered + [frame.message];
        if !env.accept(d) then StreamRun(d, CallbackError)
        else if frame.done then StreamRun(d, Completed)
        else Scan(reply, i + 1, frame, d, env)
  }

  /** The whole streaming call. */
  function Stream(configured: string, modelName: string, messages: seq<Message>, env: Env): StreamRun {
    match env.stream(StreamRequest(configured, modelName, messages))
    case None => StreamRun([], Panic)
    case Some(reply) => Scan(reply, 0, ZeroFrame, [], env)
  }

  /** `ChatStream`: the read loop over the reply body. */
  method ChatStream(configured: string, modelName: string, messages: seq<Message>, env: Env)
    returns (run: StreamRun)
    ensures run == Stream(configured, modelName, messages, env)
  {
    var sent := env.stream(StreamRequest(configured, modelName, messages));
    if sent.None? {
      return StreamRun([], Panic);
    }
    var reply := sent.value;
    var lines := reply.body.lines;
    var i := 0;
    var response := ZeroFrame;
    var delivered := [];
    while true
      invariant 0 <= i <= |lines|
      invariant Scan(reply, i, response, delivered, env) == Stream(configured, modelName, messages, env)
      decreases |lines| - i
    {
      var line := ReadAt(reply.body, i);
      if reply.status != 200 {
        return StreamRun(delivered, StatusError(line));
      }
      if i == |lines| {
        if reply.body.readFailed {
          return StreamRun(delivered, ReadError);
        }
        break;
      }
      var decoded := env.decode(response, line);
      if decoded.None? {
        return StreamRun(delivered, DecodeError);
      }
      response := decoded.value;
      delivered := delivered + [response.message];
      if !env.accept(delivered) {
        return StreamRun(delivered, CallbackError);
      }
      if response.done {
        break;
      }
      i := i + 1;
    }
    return StreamRun(delivered, Completed);
  }

  /** A non-200 status fails on the first read, before anything is decoded or delivered. */
  lemma StreamStatusError(configured: string, modelName: string, messages: seq<Message>, env: Env)
    requires env.stream(StreamRequest(configured, modelName, messages)).Some?
    requires env.stream(StreamRequest(configured, modelName, messages)).value.status != 200
    ensures Stream(configured, modelName, messages, env)
         == StreamRun([], StatusError(FirstRead(env.stream(StreamRequest(configured, modelName, messages)).value.body)))
  {
  }

  /** A streamed request that gets no response panics before anything is read or delivered. */
  lemma FailedRequestPanics(configured: string, modelName: string, messages: seq<Message>, env: Env)
    requires env.stream(StreamRequest(configured, modelName, messages)).None?
    ensures Stream(configured, modelName, messages, env) == StreamRun([], Panic)
  {
  }

  /** The frames decoded from line `i` on, each over the one before, as far as decoding succeeds. */
  function Frames(lines: seq<string>, i: nat, last: Frame, env: Env): (r: seq<Frame>)
    requires i <= |lines|
    ensures |r| <= |lines| - i
    decreases |lines| - i
  {
    if i == |lines| then []
    else match env.decode(last, lines[i])
      case None => []
      case Some(frame) => [frame] + Frames(lines, i + 1, frame, env)
  }

  /**
   * One callback per line, in arrival order: the k-th message delivered after `delivered` is the
   * message of the k-th frame decoded from line `i` on.
   */
  lemma {:induction false} ScanDeliversLinesInOrder(reply: Reply, i: nat, last: Frame, delivered: seq<Message>, env: Env)
    requires i <= |reply.body.lines|
    ensures var run := Scan(reply, i, last, delivered, env);
      var frames := Frames(reply.body.lines, i, last, env);
      |delivered| <= |run.delivered| <= |delivered| + |frames| && run.delivered[..|delivered|] == delivered
      && forall k :: 0 <= k < |run.delivered| - |delivered| ==> run.delivered[|delivered| + k] == frames[k].message
    decreases |reply.body.lines| - i
  {
    if reply.status == 200 && i < |reply.body.lines| {
      match env.decode(last, reply.body.lines[i])
      case None =>
      case Some(frame) =>
        var d := delivered + [frame.message];
        if env.accept(d) && !frame.done {
          ScanDeliversLinesInOrder(reply, i + 1, frame, d, env);
          var run := Scan(reply, i + 1, frame, d, env);
          var rest := Frames(reply.body.lines, i + 1, frame, env);
          assert Frames(reply.body.lines, i, last, env) == [frame] + rest;
          assert run.delivered[..|delivered|] == run.delivered[..|d|][..|delivered|];
          forall k | 0 <= k < |run.delivered| - |delivered|
            ensures run.delivered[|delivered| + k] == ([frame] + rest)[k].message
          {
            if k > 0 {
              assert run.delivered[|delivered| + k] == run.delivered[|d| + (k - 1)];
            }
          }
        }
    }
  }

  /** A frame marked `done` ends the stream: nothing after it is delivered. */
  lemma DoneStopsTheStream(reply: Reply, i: nat, last: Frame, delivered: seq<Message>, env: Env)
    requires i < |reply.body.lines| && reply.status == 200
    requires env.decode(last, reply.body.lines[i]).Some? && env.decode(last, reply.body.lines[i]).value.done
    requires env.accept(delivered + [env.decode(last, reply.body.lines[i]).value.message])
    ensures Scan(reply, i, last, delivered, env)
         == StreamRun(delivered + [env.decode(last, reply.body.lines[i]).value.message], Completed)
  {
  }

  /** `Models`: the names of the installed tags, in catalogue order. */
  method Models(reply: TagsReply) returns (r: Result<seq<string>, string>)
    ensures r.Err? <==> reply.status != 200
    ensures r.Err? ==> r.error == "error fetching ollama models: " + reply.raw
    ensures r.Ok? ==> |r.value| == |reply.models|
    ensures r.Ok? ==> forall k :: 0 <= k < |reply.models| ==> r.value[k] == reply.models[k].name
  {
    if reply.status != 200 {
      return Err("error fetching ollama models: " + reply.raw);
    }
    var models: seq<string> := [];
    var i := 0;
    while i < |reply.models|
      invariant 0 <= i <= |reply.models| && |models| == i
      invariant forall k :: 0 <= k < i ==> models[k] == reply.models[k].name
    {
      models := models + [reply.models[i].name];
      i := i + 1;
    }
    return Ok(models);
  }
}
