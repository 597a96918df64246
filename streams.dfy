/**
 * What a streaming adapter sees of an HTTP reply, and what a stream run produces.
 *
 * The body is read with `ReadString('\n')` / `ReadBytes('\n')`: every read returns one complete
 * line, until the last read returns the unterminated rest (`tail`) together with an error, which
 * is `io.EOF` unless the transport failed. The adapters drop that last piece in both cases.
 */
module Streams {
  import opened Text
  import opened Messages

  datatype Body = Body(lines: seq<string>, tail: string, readFailed: bool)

  /** A vendor's reply to one request: status code and body. */
  datatype Reply = Reply(status: int, body: Body)

  /** What the first read returns: the first line, or the unterminated rest if there is none. */
  function FirstRead(b: Body): string {
    if |b.lines| > 0 then b.lines[0] else b.tail
  }

  /** The text read at step `i` (line `i`, or the unterminated rest once the lines run out). */
  function ReadAt(b: Body, i: nat): string
    requires i <= |b.lines|
  {
    if i < |b.lines| then b.lines[i] else b.tail
  }

  /** How a stream run stops. Error texts are not modelled; only which error it is. */
  datatype StreamEnd =
    | Completed
    | StatusError(body: string)
    | ReadError
    | DecodeError
    | CallbackError
    | Panic
    | OutOfFuel

  /** The partial messages handed to the callback, in order, and how the run stopped. */
  datatype StreamRun = StreamRun(delivered: seq<Message>, end: StreamEnd)

  /** How the OpenAI-style event-stream loops treat one line. */
  datatype LineKind = Done | Skip | Data(payload: string)

  const DataPrefix: string := "data: "

  /**
   * The event-stream line rule: after trimming white space, the exact text `[DONE]` ends the
   * stream, a line without the `data: ` prefix is skipped, anything else is a payload.
   */
  function Classify(line: string): LineKind {
    var t := TrimSpace(line);
    if t == "[DONE]" then Done
    else if !HasPrefix(t, DataPrefix) then Skip
    else Data(TrimPrefix(t, DataPrefix))
  }

  /**
   * Exactly a trimmed `[DONE]` ends the stream, exactly a trimmed line without the `data: `
   * prefix is skipped, and a payload is the trimmed line minus that prefix.
   */
  lemma ClassifyMeaning(line: string)
    ensures Classify(line) == Done <==> TrimSpace(line) == "[DONE]"
    ensures Classify(line) == Skip <==> TrimSpace(line) != "[DONE]" && !HasPrefix(TrimSpace(line), DataPrefix)
    ensures Classify(line).Data? <==> TrimSpace(line) != "[DONE]" && HasPrefix(TrimSpace(line), DataPrefix)
    ensures Classify(line).Data? ==> TrimSpace(line) == DataPrefix + Classify(line).payload
  {
  }

  /**
   * The end-of-stream sentinel the way event streams usually send it, as a `data: ` line, is not
   * recognised as the end: its payload `[DONE]` goes on to the JSON decoder.
   */
  lemma PrefixedDoneIsAPayload()
    ensures Classify("data: [DONE]") == Data("[DONE]")
    ensures Classify("[DONE]\n") == Done
  {
    PrefixedDone();
    BareDone();
  }

  lemma PrefixedDone()
    ensures Classify("data: [DONE]") == Data("[DONE]")
  {
    assert "data: [DONE]" == DataPrefix + "[DONE]";
    DataLine("[DONE]");
  }

  /** A `data: ` line whose payload does not end in white space carries that payload. */
  lemma DataLine(payload: string)
    requires payload != [] && !IsSpace(payload[|payload| - 1])
    ensures Classify(DataPrefix + payload) == Data(payload)
  {
    var line := DataPrefix + payload;
    assert line[0] == 'd' && line[|line| - 1] == payload[|payload| - 1];
    TrimSpaceOfPadded("", line, "");
    assert "" + line + "" == line;
    assert line[0] != "[DONE]"[0];
    assert line[..|DataPrefix|] == DataPrefix;
    assert line[|DataPrefix|..] == payload;
  }

  lemma BareDone()
    ensures Classify("[DONE]\n") == Done
  {
    var done := "[DONE]";
    assert !IsSpace(done[0]) && !IsSpace(done[|done| - 1]);
    TrimSpaceOfPadded("", done, "\n");
    assert "[DONE]\n" == "" + done + "\n";
  }
}
