/**
 * The chat message shapes shared by every provider adapter and by the bot service: the
 * provider-neutral `Message`, the vendor response frames the adapters decode, and the Gemini
 * wire parts (a Gemini part can travel inside a `Message` as its content).
 */
module Messages {
  import opened Wrappers
  import opened Json

  /** A function the model asked to call; `arguments` is whatever JSON the vendor sent. */
  datatype FunctionCall = FunctionCall(name: string, arguments: Json)

  datatype ToolCall = ToolCall(id: string, kind: string, call: FunctionCall)

  /** One entry of a multi-part content list (`type` is "text" or "image_url"). */
  datatype ContentItem = ContentItem(kind: string, text: string, imageUrl: Option<string>)

  datatype InlineData = InlineData(mimeType: string, data: string)

  datatype GeminiFunctionCall = GeminiFunctionCall(name: string, args: Json)

  datatype GeminiFunctionResponse = GeminiFunctionResponse(name: string, response: Json)

  /** A Gemini content part; absent (nil) fields are `None`. */
  datatype Part = Part(
    text: string,
    inlineData: Option<InlineData>,
    functionCall: Option<GeminiFunctionCall>,
    functionResponse: Option<GeminiFunctionResponse>)

  /** The dynamic value held by a message's `interface{}` content. */
  datatype Content =
    | NoContent
    | Text(text: string)
    | Items(items: seq<ContentItem>)
    | PartValue(part: Part)

  /**
   * A chat message. `images` and `toolCalls` distinguish a nil slice (`None`) from an empty
   * one, because the adapters test them against nil.
   */
  datatype Message = Message(
    role: string,
    name: string,
    content: Content,
    images: Option<seq<string>>,
    toolCalls: Option<seq<ToolCall>>,
    toolCallId: string)

  /** A message with only a role and a content. */
  function Plain(role: string, content: Content): (m: Message)
    ensures m.role == role && m.content == content
    ensures m.name == "" && m.images == None && m.toolCalls == None && m.toolCallId == ""
  {
    Message(role, "", content, None, None, "")
  }

  /** The zero value of a message, before anything is decoded into it. */
  const ZeroMessage: Message := Message("", "", NoContent, None, None, "")

  /** The calls a message carries, a nil list counting as none. */
  function CallsOf(m: Message): seq<ToolCall> {
    m.toolCalls.GetOr([])
  }

  /** One choice of an OpenAI-style completion (used by the OpenAI, Groq and Mistral adapters). */
  datatype Choice = Choice(message: Message, delta: Message, finishReason: string)

  /** An OpenAI-style completion, whole or one streamed chunk of it. */
  datatype Completion = Completion(choices: seq<Choice>)

  /** The zero value of a completion: no choices. */
  const EmptyCompletion: Completion := Completion([])
}
