/**
 * The streaming side of the Groq adapter (its non-streaming chat is `Completions.Chat`): an
 * event-stream loop that turns a delta carrying tool calls into a new streamed request, and the
 * model catalogue.
 */
module Groq {
  import opened Wrappers
  import opened Messages
  import opened Streams
  import opened Provider
  import opened Completions

  /**
   * The outside world of a stream: the server, the decoder, the caller's callback, the tools. Every payload
   * of one stream is decoded into the same variable, so the decoder is given the value decoded so
   * far: a field a payload leaves out keeps its earlier value. `stream` is `None` when the request
   * gets no response at all: the source ignores that error and panics closing the missing body.
   */
  datatype Env = Env(
    stream: Request -> Option<Reply>,
    decode: (Completion, string) -> Option<Completion>,
    accept: seq<Message> -> bool,
    tools: ToolEnv)

  /** The delta as handed to the callback: a nil content becomes the empty string. */
  function Normalised(delta: Message): (m: Message)
    ensures m.content != NoContent
    ensures delta.content != NoContent ==> m == delta
    ensures m.role == delta.role && m.toolCalls == delta.toolCalls
  {
    if delta.content == NoContent then delta.(content := Text("")) else delta
  }

  /** A streamed request; the source recurses without bound and `fuel` bounds it here. */
  function Stream(fuel: nat, configured: string, modelName: string, messages: seq<Message>,
                  delivered: seq<Message>, env: Env): StreamRun
    decreases fuel, 1, 0
  {
    if fuel == 0 then StreamRun(delivered, OutOfFuel)
    else match env.stream(MakeRequest(configured, modelName, messages, true))
      case None => StreamRun(delivered, Panic)
      case Some(reply) => Scan(fuel, configured, modelName, messages, reply, 0, EmptyCompletion, delivered, env)
  }


  /** What one line of a healthy stream leads to. */
  datatype Next =
    | Continue(last: Completion, delivered: seq<Message>)
    | Stop(run: StreamRun)
    | Resume(response: Message, delivered: seq<Message>)
  {
    /** Everything delivered once the step is done. */
    function Sent(): seq<Message> {
      match this
      case Continue(_, d) => d
      case Stop(run) => run.delivered
      case Resume(_, d) => d
    }
  }

  /**
   * One line, `last` being the value decoded so far: `[DONE]` ends the stream, a non-data line is
   * skipped, a payload is decoded over `last` and its first delta delivered (nil content as ""),
   * a delta with tool calls resumes the conversation with that delta as the `assistant` response,
   * and `stop` ends the stream.
   */
  function Step(line: string, last: Completion, delivered: seq<Message>, env: Env): Next {
    match Classify(line)
    case Done => Stop(StreamRun(delivered, Completed))
    case Skip => Continue(last, delivered)
    case Data(payload) =>
      match env.decode(last, payload)
      case None => Stop(StreamRun(delivered, DecodeError))
      case Some(c) =>
        if |c.choices| == 0 then Stop(StreamRun(delivered, Panic))
        else
          var partial := Normalised(c.choices[0].delta);
          var d := delivered + [partial];
          if !env.accept(d) then Stop(StreamRun(d, CallbackError))
          else if c.choices[0].delta.toolCalls.Some? then Resume(partial.(role := "assistant"), d)
          else if c.choices[0].finishReason == "stop" then Stop(StreamRun(d, Completed))
          else Continue(c, d)
  }

  /** The stream loop from read `i` on; the status is checked after every read. */
  function Scan(fuel: nat, configured: string, modelName: string, messages: seq<Message>,
                reply: Reply, i: nat, last: Completion, delivered: seq<Message>, env: Env): StreamRun
    requires fuel > 0 && i <= |reply.body.lines|
    decreases fuel, 0, |reply.body.lines| - i
  {
    if reply.status != 200 then StreamRun(delivered, StatusError(ReadAt(reply.body, i)))
    else if i == |reply.body.lines| then StreamRun(delivered, if reply.body.readFailed then ReadError else Completed)
    else match Step(reply.body.lines[i], last, delivered, env)
      case Continue(c, d) => Scan(fuel, configured, modelName, messages, reply, i + 1, c, d, env)
      case Stop(run) => run
      case Resume(response, d) =>
        Stream(fuel - 1, configured, modelName, ContinuedHistory(messages, response, env.tools), d, env)
  }

  /**
   * `ChatStream`: the read loop. The source calls itself, as its last action, to stream the
   * continued conversation; that tail call is the outer loop here, one round per request.
   */
  method ChatStream(fuel: nat, configured: string, modelName: string, messages: seq<Message>,
                    delivered: seq<Message>, env: Env) returns (run: StreamRun)
    ensures run == Stream(fuel, configured, modelName, messages, delivered, env)
  {
    var rounds := fuel;
    var history := messages;
    var sent := delivered;
    while rounds > 0
      invariant Stream(rounds, configured, modelName, history, sent, env)
             == Stream(fuel, configured, modelName, messages, delivered, env)
    {
      var reply := env.stream(MakeRequest(configured, modelName, history, true));
      if reply.None? {
        return StreamRun(sent, Panic);
      }
      var leg := ReadStream(rounds, configured, modelName, history, reply.value, sent, env);
      match leg
      case Finished(r) =>
        return r;
      case Resumed(h, d) =>
        history, sent, rounds := h, d, rounds - 1;
    }
    return StreamRun(sent, OutOfFuel);
  }

  /** How one streamed request ends: with the run's result, or by asking to continue. */
  datatype Leg = Finished(run: StreamRun) | Resumed(history: seq<Message>, delivered: seq<Message>)

  /** The read loop over one reply; a tool-call delta ends it with the continued history. */
  method ReadStream(fuel: nat, configured: string, modelName: string, messages: seq<Message>,
                    reply: Reply, delivered: seq<Message>, env: Env) returns (leg: Leg)
    requires fuel > 0
    ensures leg.Finished? ==> leg.run == Scan(fuel, configured, modelName, messages, reply, 0, EmptyCompletion, delivered, env)
    ensures leg.Resumed? ==> Stream(fuel - 1, configured, modelName, leg.history, leg.delivered, env)
                             == Scan(fuel, configured, modelName, messages, reply, 0, EmptyCompletion, delivered, env)
  {
    var lines := reply.body.lines;
    var i := 0;
    var response := EmptyCompletion;
    var sent := delivered;
    while i < |lines|
      invariant 0 <= i <= |lines|
      invariant Scan(fuel, configured, modelName, messages, reply, i, response, sent, env)
             == Scan(fuel, configured, modelName, messages, reply, 0, EmptyCompletion, delivered, env)
    {
      if reply.status != 200 {
        return Finished(StreamRun(sent, StatusError(lines[i])));
      }
      var next := ReadLine(lines[i], response, sent, env);
      match next
      case Stop(end) =>
        return Finished(end);
      case Resume(partial, d) =>
        assert Scan(fuel, configured, modelName, messages, reply, i, response, sent, env)
            == Stream(fuel - 1, configured, modelName, ContinuedHistory(messages, partial, env.tools), d, env);
        var history := ToolCalls(messages, partial, env.tools);
        return Resumed(history, d);
      case Continue(c, d) =>
        response, sent := c, d;
      i := i + 1;
    }
    if reply.status != 200 {
      return Finished(StreamRun(sent, StatusError(reply.body.tail)));
    }
    return Finished(StreamRun(sent, if reply.body.readFailed then ReadError else Completed));
  }

  /** The body of the read loop for one line of a healthy stream. */
  method ReadLine(line: string, response: Completion, delivered: seq<Message>, env: Env) returns (next: Next)
    ensures next == Step(line, response, delivered, env)
  {
    var kind := Classify(line);
    if kind == Done {
      return Stop(StreamRun(delivered, Completed));
    }
    if kind == Skip {
      return Continue(response, delivered);
    }
    var decoded := env.decode(response, kind.payload);
    if decoded.None? {
      return Stop(StreamRun(delivered, DecodeError));
    }
    var choices := decoded.value.choices;
    if |choices| == 0 {
      return Stop(StreamRun(delivered, Panic));
    }
    var partial := choices[0].delta;
    if partial.content == NoContent {
      partial := partial.(content := Text(""));
    }
    var sent := delivered + [partial];
    if !env.accept(sent) {
      return Stop(StreamRun(sent, CallbackError));
    }
    if choices[0].delta.toolCalls.Some? {
      return Resume(partial.(role := "assistant"), sent);
    }
    if choices[0].finishReason == "stop" {
      return Stop(StreamRun(sent, Completed));
    }
    return Continue(decoded.value, sent);
  }

  /** A non-200 status fails on the first read, before any callback. */
  lemma StreamStatusError(fuel: nat, configured: string, modelName: string, messages: seq<Message>,
                          delivered: seq<Message>, env: Env)
    requires fuel > 0
    requires env.stream(MakeRequest(configured, modelName, messages, true)).Some?
    requires env.stream(MakeRequest(configured, modelName, messages, true)).value.status != 200
    ensures Stream(fuel, configured, modelName, messages, delivered, env)
         == StreamRun(delivered, StatusError(FirstRead(env.stream(MakeRequest(configured, modelName, messages, true)).value.body)))
  {
  }

  /** A request that gets no response panics before anything is read or delivered. */
  lemma FailedRequestPanics(fuel: nat, configured: string, modelName: string, messages: seq<Message>,
                            delivered: seq<Message>, env: Env)
    requires fuel > 0
    requires env.stream(MakeRequest(configured, modelName, messages, true)).None?
    ensures Stream(fuel, configured, modelName, messages, delivered, env) == StreamRun(delivered, Panic)
  {
  }

  /**
   * A delta carrying tool calls is first delivered, then the stream carries on as a new request
   * whose history is the old one continued by that delta with role `assistant`.
   */
  lemma ToolCallDeltaContinues(fuel: nat, configured: string, modelName: string, messages: seq<Message>,
                               reply: Reply, i: nat, last: Completion, delivered: seq<Message>, env: Env, c: Completion)
    requires fuel > 0 && i < |reply.body.lines| && reply.status == 200
    requires Classify(reply.body.lines[i]).Data? && env.decode(last, Classify(reply.body.lines[i]).payload) == Some(c)
    requires |c.choices| > 0 && c.choices[0].delta.toolCalls.Some?
    requires env.accept(delivered + [Normalised(c.choices[0].delta)])
    ensures Scan(fuel, configured, modelName, messages, reply, i, last, delivered, env)
         == Stream(fuel - 1, configured, modelName,
                   ContinuedHistory(messages, Normalised(c.choices[0].delta).(role := "assistant"), env.tools),
                   delivered + [Normalised(c.choices[0].delta)], env)
  {
  }

  /** Every message of `ms` has content (none is nil). */
  predicate AllHaveContent(ms: seq<Message>) {
    forall k :: 0 <= k < |ms| ==> ms[k].content != NoContent
  }

  /** `later` starts with `earlier` and nothing in it has nil content. */
  predicate ExtendsWithContent(later: seq<Message>, earlier: seq<Message>) {
    |earlier| <= |later| && later[..|earlier|] == earlier && AllHaveContent(later)
  }

  lemma ExtendsWithContentTransitive(c: seq<Message>, b: seq<Message>, a: seq<Message>)
    requires ExtendsWithContent(c, b) && ExtendsWithContent(b, a)
    ensures ExtendsWithContent(c, a)
  {
    assert c[..|a|] == c[..|b|][..|a|];
  }

  /** Nothing the callback receives has nil content, across continuations too. */
  lemma {:induction false} StreamNeverDeliversNilContent(fuel: nat, configured: string, modelName: string,
                                                        messages: seq<Message>, delivered: seq<Message>, env: Env)
    requires AllHaveContent(delivered)
    ensures ExtendsWithContent(Stream(fuel, configured, modelName, messages, delivered, env).delivered, delivered)
    decreases fuel, 1, 0, 0
  {
    var reply := env.stream(MakeRequest(configured, modelName, messages, true));
    if fuel > 0 && reply.Some? {
      ScanNeverDeliversNilContent(fuel, configured, modelName, messages, reply.value, 0, EmptyCompletion, delivered, env);
    } else {
      assert delivered[..|delivered|] == delivered;
    }
  }

  lemma {:induction false} ScanNeverDeliversNilContent(fuel: nat, configured: string, modelName: string,
                                                      messages: seq<Message>, reply: Reply, i: nat,
                                                      last: Completion, delivered: seq<Message>, env: Env)
    requires fuel > 0 && i <= |reply.body.lines|
    requires AllHaveContent(delivered)
    ensures ExtendsWithContent(Scan(fuel, configured, modelName, messages, reply, i, last, delivered, env).delivered, delivered)
    decreases fuel, 0, |reply.body.lines| - i, 1
  {
    if reply.status == 200 && i < |reply.body.lines| {
      ReadNeverDeliversNilContent(fuel, configured, modelName, messages, reply, i, last, delivered, env);
    } else {
      assert delivered[..|delivered|] == delivered;
    }
  }

  /** The same for a successful read at `i`: one step, then the rest of the stream. */
  lemma {:induction false} ReadNeverDeliversNilContent(fuel: nat, configured: string, modelName: string,
                                                      messages: seq<Message>, reply: Reply, i: nat,
                                                      last: Completion, delivered: seq<Message>, env: Env)
    requires fuel > 0 && i < |reply.body.lines| && reply.status == 200
    requires AllHaveContent(delivered)
    ensures ExtendsWithContent(Scan(fuel, configured, modelName, messages, reply, i, last, delivered, env).delivered, delivered)
    decreases fuel, 0, |reply.body.lines| - i, 0
  {
    var next := Step(reply.body.lines[i], last, delivered, env);
    StepKeepsContent(reply.body.lines[i], last, delivered, env);
    match next
    case Continue(c, d) =>
      var rest := Scan(fuel, configured, modelName, messages, reply, i + 1, c, d, env);
      assert Scan(fuel, configured, modelName, messages, reply, i, last, delivered, env) == rest;
      ScanNeverDeliversNilContent(fuel, configured, modelName, messages, reply, i + 1, c, d, env);
      ExtendsWithContentTransitive(rest.delivered, d, delivered);
    case Stop(run) =>
    case Resume(response, d) =>
      var history := ContinuedHistory(messages, response, env.tools);
      var rest := Stream(fuel - 1, configured, modelName, history, d, env);
      assert Scan(fuel, configured, modelName, messages, reply, i, last, delivered, env) == rest;
      StreamNeverDeliversNilContent(fuel - 1, configured, modelName, history, d, env);
      ExtendsWithContentTransitive(rest.delivered, d, delivered);
  }

  /** A step delivers at most the normalised delta, which never has nil content. */
  lemma StepKeepsContent(line: string, last: Completion, delivered: seq<Message>, env: Env)
    requires AllHaveContent(delivered)
    ensures ExtendsWithContent(Step(line, last, delivered, env).Sent(), delivered)
    ensures |Step(line, last, delivered, env).Sent()| <= |delivered| + 1
  {
    var next := Step(line, last, delivered, env);
    match Classify(line)
    case Done =>
      assert next.Sent() == delivered;
    case Skip =>
      assert next.Sent() == delivered;
    case Data(payload) =>
      match env.decode(last, payload)
      case None =>
        assert next.Sent() == delivered;
      case Some(c) =>
        if |c.choices| == 0 {
          assert next.Sent() == delivered;
        } else {
          var partial := Normalised(c.choices[0].delta);
          assert next.Sent() == delivered + [partial];
        }
  }

  /** `Models`: the catalogue ids in order; a transport error or non-200 status is an error. */
  method Models(transportError: Option<string>, status: int, raw: string, data: seq<ModelEntry>)
    returns (r: Result<seq<string>, string>)
    ensures r.Err? <==> transportError.Some? || status != 200
    ensures transportError.Some? ==> r == Err("error fetching openai models: " + transportError.value)
    ensures transportError.None? && status != 200 ==> r == Err("error fetching openai models: " + raw)
    ensures r.Ok? ==> |r.value| == |data|
    ensures r.Ok? ==> forall k :: 0 <= k < |data| ==> r.value[k] == data[k].id
  {
    if transportError.Some? {
      return Err("error fetching openai models: " + transportError.value);
    }
    if status != 200 {
      return Err("error fetching openai models: " + raw);
    }
    var models: seq<string> := [];
    var i := 0;
    while i < |data|
      invariant 0 <= i <= |data| && |models| == i
      invariant forall k :: 0 <= k < i ==> models[k] == data[k].id
    {
      models := models + [data[i].id];
      i := i + 1;
    }
    return Ok(models);
  }
}
