/**
 * The OpenAI adapter: a single chat call, an event-stream loop over `data: ` lines, and the model
 * catalogue. This adapter has no default model of its own: the model name is sent as given.
 */
module OpenAI {
  import opened Wrappers
  import opened Text
  import opened Messages
  import opened Streams
  import opened Provider

  /** What is posted to `/v1/chat/completions` (no tool list). */
  datatype Request = Request(model: string, messages: seq<Message>, stream: bool)

  /** One entry of `/v1/models`. */
  datatype ModelEntry = ModelEntry(id: string, ownedBy: string)

  /**
   * The outside world: the server (a transport error or a decoded completion for a plain call;
   * a transport error or status and body for a streamed one), the callback, and the JSON decoder.
   * The stream decodes every payload into the same variable, so the decoder is given the value
   * decoded so far: a field a payload leaves out keeps its earlier value.
   */
  datatype Env = Env(
    chat: Request -> Result<Completion, string>,
    stream: Request -> Result<Reply, string>,
    decode: (Completion, string) -> Option<Completion>,
    accept: seq<Message> -> bool)

  /**
   * `Chat`: a transport error is returned; otherwise the first choice's message is the answer
   * (the status is not checked, and a reply without choices panics on the index).
   */
  function Chat(modelName: string, messages: seq<Message>, env: Env): (r: ChatOutcome)
    ensures env.chat(Request(modelName, messages, false)).Err? ==> r == Failed(env.chat(Request(modelName, messages, false)).error)
    ensures r.Panicked? <==> env.chat(Request(modelName, messages, false)).Ok?
                             && |env.chat(Request(modelName, messages, false)).value.choices| == 0
    ensures r.Answer? ==> r.message == env.chat(Request(modelName, messages, false)).value.choices[0].message
    ensures !r.ChatOutOfFuel?
  {
    match env.chat(Request(modelName, messages, false))
    case Err(e) => Failed(e)
    case Ok(c) => if |c.choices| == 0 then Panicked else Answer(c.choices[0].message)
  }

  /**
   * The stream loop from line `i` on, `last` being the value decoded so far: `[DONE]` ends it,
   * non-data lines are skipped, every data payload is decoded over `last` and its first choice's
   * delta delivered; `stop` ends it after delivery.
   */
  function Scan(body: Body, i: nat, last: Completion, delivered: seq<Message>, env: Env): StreamRun
    requires i <= |body.lines|
    decreases |body.lines| - i
  {
    if i == |body.lines| then StreamRun(delivered, if body.readFailed then ReadError else Completed)
    else match Classify(body.lines[i])
      case Done => StreamRun(delivered, Completed)
      case Skip => Scan(body, i + 1, last, delivered, env)
      case Data(payload) =>
        match env.decode(last, payload)
        case None => StreamRun(delivered, DecodeError)
        case Some(c) =>
          if |c.choices| == 0 then StreamRun(delivered, Panic)
          else
            var d := delivered + [c.choices[0].delta];
            if !env.accept(d) then StreamRun(d, CallbackError)
            else if c.choices[0].finishReason == "stop" then StreamRun(d, Completed)
            else Scan(body, i + 1, c, d, env)
  }

  /** The whole streaming call; a transport error is returned before anything is read. */
  function Stream(modelName: string, messages: seq<Message>, env: Env): Result<StreamRun, string> {
    match env.stream(Request(modelName, messages, true))
    case Err(e) => Err(e)
    case Ok(reply) => Ok(Scan(reply.body, 0, EmptyCompletion, [], env))
  }

  /** `ChatStream`: the line loop. */
  method ChatStream(modelName: string, messages: seq<Message>, env: Env) returns (r: Result<StreamRun, string>)
    ensures r == Stream(modelName, messages, env)
  {
    var sent := env.stream(Request(modelName, messages, true));
    if sent.Err? {
      return Err(sent.error);
    }
    var body := sent.value.body;
    var i := 0;
    var response := EmptyCompletion;
    var delivered := [];
    while i < |body.lines|
      invariant 0 <= i <= |body.lines|
      invariant Scan(body, i, response, delivered, env) == Scan(body, 0, EmptyCompletion, [], env)
    {
      match Classify(body.lines[i])
      case Done =>
        return Ok(StreamRun(delivered, Completed));
      case Skip =>
        i := i + 1;
      case Data(payload) =>
        var decoded := env.decode(response, payload);
        if decoded.None? {
          return Ok(StreamRun(delivered, DecodeError));
        }
        var c := decoded.value;
        if |c.choices| == 0 {
          return Ok(StreamRun(delivered, Panic));
        }
        var d := delivered + [c.choices[0].delta];
        if !env.accept(d) {
          return Ok(StreamRun(d, CallbackError));
        }
        if c.choices[0].finishReason == "stop" {
          return Ok(StreamRun(d, Completed));
        }
        response, delivered, i := c, d, i + 1;
    }
    return Ok(StreamRun(delivered, if body.readFailed then ReadError else Completed));
  }

  /** The value decoded so far once `line` has been read on top of `last`. */
  function After(line: string, last: Completion, env: Env): Completion {
    match Classify(line)
    case Data(payload) => env.decode(last, payload).GetOr(last)
    case _ => last
  }

  /** The delta a line contributes when it is a decodable data line with a choice. */
  function LineDeltas(line: string, last: Completion, env: Env): seq<Message> {
    match Classify(line)
    case Data(payload) =>
      (match env.decode(last, payload)
       case Some(c) => if |c.choices| > 0 then [c.choices[0].delta] else []
       case None => [])
    case _ => []
  }

  /** The deltas of the well-formed data lines from line `i` on, in order. */
  function DataDeltas(lines: seq<string>, i: nat, last: Completion, env: Env): seq<Message>
    requires i <= |lines|
    decreases |lines| - i
  {
    if i == |lines| then []
    else LineDeltas(lines[i], last, env) + DataDeltas(lines, i + 1, After(lines[i], last, env), env)
  }

  /** A line that lets the stream go on: not `[DONE]`, and if data, decodable with a choice that is not `stop`. */
  predicate LineWellBehaved(line: string, last: Completion, env: Env) {
    match Classify(line)
    case Done => false
    case Skip => true
    case Data(payload) =>
      env.decode(last, payload).Some? && |env.decode(last, payload).value.choices| > 0
      && env.decode(last, payload).value.choices[0].finishReason != "stop"
  }

  /** Every line from `i` on lets the stream go on. */
  predicate WellBehavedFrom(lines: seq<string>, i: nat, last: Completion, env: Env)
    requires i <= |lines|
    decreases |lines| - i
  {
    i == |lines|
    || (LineWellBehaved(lines[i], last, env) && WellBehavedFrom(lines, i + 1, After(lines[i], last, env), env))
  }

  /** One step of the loop: it either moves on having delivered the line's delta, or stops. */
  lemma ScanStep(body: Body, i: nat, last: Completion, delivered: seq<Message>, env: Env)
    requires i < |body.lines|
    ensures var run := Scan(body, i, last, delivered, env);
      var d := delivered + LineDeltas(body.lines[i], last, env);
      run == Scan(body, i + 1, After(body.lines[i], last, env), d, env) || run.delivered == delivered || run.delivered == d
    ensures LineWellBehaved(body.lines[i], last, env) && env.accept(delivered + LineDeltas(body.lines[i], last, env)) ==>
      Scan(body, i, last, delivered, env)
      == Scan(body, i + 1, After(body.lines[i], last, env), delivered + LineDeltas(body.lines[i], last, env), env)
  {
    match Classify(body.lines[i])
    case Done =>
    case Skip =>
      assert LineDeltas(body.lines[i], last, env) == [];
      assert delivered + [] == delivered;
    case Data(payload) =>
  }

  /**
   * One callback per data line, in arrival order, and none for skipped lines: when the callback
   * accepts everything and no line ends the stream, exactly the deltas of the data lines are
   * delivered and the run ends with the body.
   */
  lemma {:induction false} ScanDeliversEveryDataLine(body: Body, i: nat, last: Completion, delivered: seq<Message>, env: Env)
    requires i <= |body.lines|
    requires WellBehavedFrom(body.lines, i, last, env)
    requires forall m :: env.accept(m)
    ensures Scan(body, i, last, delivered, env)
         == StreamRun(delivered + DataDeltas(body.lines, i, last, env), if body.readFailed then ReadError else Completed)
    decreases |body.lines| - i
  {
    if i < |body.lines| {
      var next := After(body.lines[i], last, env);
      var d := delivered + LineDeltas(body.lines[i], last, env);
      ScanStep(body, i, last, delivered, env);
      ScanDeliversEveryDataLine(body, i + 1, next, d, env);
      AppendAssociative(delivered, LineDeltas(body.lines[i], last, env), DataDeltas(body.lines, i + 1, next, env));
    }
  }

  lemma AppendAssociative(a: seq<Message>, b: seq<Message>, c: seq<Message>)
    ensures (a + b) + c == a + (b + c)
  {
  }

  /** Whatever happens, only data-line deltas are delivered, in order: a prefix of DataDeltas. */
  lemma {:induction false} ScanDeliversAPrefixOfTheData(body: Body, i: nat, last: Completion, delivered: seq<Message>, env: Env)
    requires i <= |body.lines|
    ensures delivered <= Scan(body, i, last, delivered, env).delivered
                      <= delivered + DataDeltas(body.lines, i, last, env)
    decreases |body.lines| - i
  {
    if i < |body.lines| {
      var next := After(body.lines[i], last, env);
      var deltas := LineDeltas(body.lines[i], last, env);
      var rest := DataDeltas(body.lines, i + 1, next, env);
      var d := delivered + deltas;
      var run := Scan(body, i, last, delivered, env);
      ScanStep(body, i, last, delivered, env);
      AppendAssociative(delivered, deltas, rest);
      if run == Scan(body, i + 1, next, d, env) {
        ScanDeliversAPrefixOfTheData(body, i + 1, next, d, env);
        PrefixTransitive(delivered, d, run.delivered);
      } else if run.delivered == d {
        PrefixOfAppend(d, rest);
      } else {
        PrefixOfAppend(delivered, deltas + rest);
      }
    } else {
      PrefixOfAppend(delivered, []);
    }
  }

  lemma PrefixOfAppend(a: seq<Message>, b: seq<Message>)
    ensures a <= a + b
  {
    assert (a + b)[..|a|] == a;
  }

  lemma PrefixTransitive(a: seq<Message>, b: seq<Message>, c: seq<Message>)
    requires a <= b <= c
    ensures a <= c
  {
    assert c[..|a|] == b[..|a|];
  }

  /**
   * A stream that ends with a finish reason other than `stop` (a length cut-off, say) and then
   * the usual `data: [DONE]` line fails with a decode error after delivering that last frame,
   * because only a bare `[DONE]` line is recognised.
   */
  lemma PrefixedDoneAfterNonStopIsADecodeError(frame: string, c: Completion, env: Env)
    requires env.decode(c, "[DONE]").None?
    requires Classify(frame) == Data("x") && env.decode(EmptyCompletion, "x") == Some(c)
    requires |c.choices| > 0 && c.choices[0].finishReason == "length"
    requires env.accept([c.choices[0].delta])
    ensures Scan(Body([frame, "data: [DONE]"], "", false), 0, EmptyCompletion, [], env)
         == StreamRun([c.choices[0].delta], DecodeError)
  {
    PrefixedDoneIsAPayload();
    var body := Body([frame, "data: [DONE]"], "", false);
    var d := [c.choices[0].delta];
    assert [] + d == d;
    DataStep(body, 0, EmptyCompletion, [], env, "x", c);
    DecodeFailureStep(body, 1, c, d, env, "[DONE]");
  }

  /** A data line that decodes, is delivered and accepted, and does not finish with `stop` moves on to the next line. */
  lemma DataStep(body: Body, i: nat, last: Completion, delivered: seq<Message>, env: Env, payload: string, c: Completion)
    requires i < |body.lines| && Classify(body.lines[i]) == Data(payload) && env.decode(last, payload) == Some(c)
    requires |c.choices| > 0 && env.accept(delivered + [c.choices[0].delta]) && c.choices[0].finishReason != "stop"
    ensures Scan(body, i, last, delivered, env) == Scan(body, i + 1, c, delivered + [c.choices[0].delta], env)
  {
  }

  /** A data line that does not decode ends the run with a decode error. */
  lemma DecodeFailureStep(body: Body, i: nat, last: Completion, delivered: seq<Message>, env: Env, payload: string)
    requires i < |body.lines| && Classify(body.lines[i]) == Data(payload) && env.decode(last, payload).None?
    ensures Scan(body, i, last, delivered, env) == StreamRun(delivered, DecodeError)
  {
  }

  /** `Models`: the catalogue ids in order, or the transport error. */
  method Models(reply: Result<seq<ModelEntry>, string>) returns (r: Result<seq<string>, string>)
    ensures r.Err? <==> reply.Err?
    ensures r.Err? ==> r.error == reply.error
    ensures r.Ok? ==> |r.value| == |reply.value|
    ensures r.Ok? ==> forall k :: 0 <= k < |reply.value| ==> r.value[k] == reply.value[k].id
  {
    if reply.Err? {
      return Err(reply.error);
    }
    var models: seq<string> := [];
    var i := 0;
    while i < |reply.value|
      invariant 0 <= i <= |reply.value| && |models| == i
      invariant forall k :: 0 <= k < i ==> models[k] == reply.value[k].id
    {
      models := models + [reply.value[i].id];
      i := i + 1;
    }
    return Ok(models);
  }
}
