/**
 * Turning an incoming Telegram message into the provider-neutral chat message: the routing of
 * `NewMessage` (voice and audio first, then photos and documents, then replies, then text) and the
 * message each factory builds. File lookups, downloads and speech-to-text are parameters.
 */
module Incoming {
  import opened Wrappers
  import opened Messages

  /**
   * The parts of an incoming message the factories look at; an absent (nil) field or a nil slice is
   * `None`. `photo` lists the file ids of the photo sizes, `replyTo` the replied-to text.
   */
  datatype Chat = Chat(
    text: string,
    caption: string,
    photo: Option<seq<string>>,
    document: Option<string>,
    replyTo: Option<string>,
    voice: Option<string>,
    audio: Option<string>)

  /** What a factory produced: a message, or a crash (indexing the last entry of an empty photo list). */
  datatype Built = Built(message: Message) | Panicked

  /** The Telegram file API and the helpers the factories call. */
  datatype Telegram = Telegram(
    filePath: string -> Result<string, string>,
    toBase64: string -> Result<string, string>,
    imageUrl: string -> string,
    download: string -> Result<seq<bv8>, string>,
    imageCaption: string -> string)

  /** A speech-to-text provider; the model name passed is always "" (the provider's default). */
  type Transcriber = (seq<bv8>, string) -> Result<string, string>

  /** The factory `NewMessage` picks. */
  datatype Factory = AudioFactory | NoTranscription | ImageParts | ImageBase64 | ReplyFactory | TextFactory

  /** The providers whose image messages travel as text + image URL parts. */
  predicate TakesImageUrls(provider: string) {
    provider == "openai" || provider == "mistral" || provider == "groq"
  }

  /** The routing switch of `NewMessage`. */
  function Route(chat: Chat, provider: string, hasTts: bool): (f: Factory)
    ensures (chat.voice.Some? || chat.audio.Some?) <==> f in {AudioFactory, NoTranscription}
    ensures f == NoTranscription <==> (chat.voice.Some? || chat.audio.Some?) && !hasTts
    ensures f == ImageParts <==>
      chat.voice.None? && chat.audio.None? && (chat.photo.Some? || chat.document.Some?) && TakesImageUrls(provider)
    ensures f == ImageBase64 <==>
      chat.voice.None? && chat.audio.None? && (chat.photo.Some? || chat.document.Some?) && !TakesImageUrls(provider)
    ensures f == ReplyFactory <==>
      chat.voice.None? && chat.audio.None? && chat.photo.None? && chat.document.None? && chat.replyTo.Some?
  {
    if chat.voice.Some? || chat.audio.Some? then (if hasTts then AudioFactory else NoTranscription)
    else if (chat.photo.Some? || chat.document.Some?) && TakesImageUrls(provider) then ImageParts
    else if chat.photo.Some? || chat.document.Some? then ImageBase64
    else if chat.replyTo.Some? then ReplyFactory
    else TextFactory
  }

  /** The file id of the image: the last photo size, else the document, else "". */
  function ImageFileId(chat: Chat): (r: Option<string>)
    ensures r.None? <==> chat.photo == Some([])
    ensures chat.photo.Some? && chat.photo.value != [] ==> r == Some(chat.photo.value[|chat.photo.value| - 1])
    ensures chat.photo.None? && chat.document.Some? ==> r == chat.document
  {
    match chat.photo
    case Some(sizes) => if |sizes| == 0 then None else Some(sizes[|sizes| - 1])
    case None => Some(if chat.document.Some? then chat.document.value else "")
  }

  /** The message of `TextMessage`. */
  function TextMessage(chat: Chat): (m: Message)
    ensures m.role == "user" && m.content == Text(chat.text)
  {
    Plain("user", Text(chat.text))
  }

  /** The marker placed between a reply and the message it answers. */
  const ContextMarker := "\n\ncontex:\n"

  /** The message of `ReplyToMessage`: the text, the marker, then the replied-to text. */
  function ReplyMessage(chat: Chat): (m: Message)
    requires chat.replyTo.Some?
    ensures m.role == "user" && m.content.Text?
    ensures |m.content.text| == |chat.text| + |ContextMarker| + |chat.replyTo.value|
    ensures m.content.text[..|chat.text|] == chat.text
    ensures m.content.text[|chat.text|..|chat.text| + |ContextMarker|] == ContextMarker
    ensures m.content.text[|chat.text| + |ContextMarker|..] == chat.replyTo.value
  {
    var t := chat.text + ContextMarker + chat.replyTo.value;
    assert t[..|chat.text|] == chat.text;
    assert t[|chat.text|..|chat.text| + |ContextMarker|] == ContextMarker;
    Plain("user", Text(t))
  }

  /** The content of `ImageMessageType2`: a text part with the caption, then the image URL part. */
  function UrlParts(caption: string, url: string): (c: Content)
    ensures c.Items? && |c.items| == 2
    ensures c.items[0].kind == "text" && c.items[0].text == caption && c.items[0].imageUrl.None?
    ensures c.items[1].kind == "image_url" && c.items[1].imageUrl == Some(url)
  {
    Items([ContentItem("text", caption, None), ContentItem("image_url", "", Some(url))])
  }

  /** `ImageMessageType2.CreateMessage`: the zero message when the file path cannot be found. */
  function ImagePartsMessage(chat: Chat, tg: Telegram): (b: Built)
    ensures b.Panicked? <==> chat.photo == Some([])
    ensures b.Built? && tg.filePath(ImageFileId(chat).value).Err? ==> b.message == ZeroMessage
    ensures b.Built? && tg.filePath(ImageFileId(chat).value).Ok? ==>
      b.message.role == "user"
      && b.message.content == UrlParts(tg.imageCaption(chat.caption), tg.imageUrl(tg.filePath(ImageFileId(chat).value).value))
  {
    match ImageFileId(chat)
    case None => Panicked
    case Some(id) =>
      match tg.filePath(id)
      case Err(_) => Built(ZeroMessage)
      case Ok(path) => Built(Plain("user", UrlParts(tg.imageCaption(chat.caption), tg.imageUrl(path))))
  }

  /** `ImageMessage.CreateMessage`: the caption as text and the image, base64-encoded, as the only image. */
  function ImageBase64Message(chat: Chat, tg: Telegram): (b: Built)
    ensures b.Panicked? <==> chat.photo == Some([])
    ensures b.Built? && b.message != ZeroMessage ==>
      var path := tg.filePath(ImageFileId(chat).value);
      path.Ok? && tg.toBase64(path.value).Ok?
      && b.message.role == "user" && b.message.content == Text(tg.imageCaption(chat.caption))
      && b.message.images == Some([tg.toBase64(path.value).value])
  {
    match ImageFileId(chat)
    case None => Panicked
    case Some(id) =>
      match tg.filePath(id)
      case Err(_) => Built(ZeroMessage)
      case Ok(path) =>
        match tg.toBase64(path)
        case Err(_) => Built(ZeroMessage)
        case Ok(data) => Built(Message("user", "", Text(tg.imageCaption(chat.caption)), Some([data]), None, ""))
  }

  /** The transcription failure message. */
  const TranscriptionError := "[Error transcribing audio]"

  /** The message used when no speech-to-text provider is configured. */
  const NoTranscriptionText := "[Audio transcription not available]"

  /** `AudioMessage.CreateMessage`: the voice file (else the audio file) transcribed to text. */
  function AudioMessage(chat: Chat, tg: Telegram, transcribe: Transcriber): (m: Message)
    ensures m.role == "user" && m.content.Text?
    ensures chat.voice.None? && chat.audio.None? ==> m.content == Text("")
  {
    if chat.voice.None? && chat.audio.None? then Plain("user", Text(""))
    else
      var id := if chat.voice.Some? then chat.voice.value else chat.audio.value;
      match tg.filePath(id)
      case Err(_) => Plain("user", Text("[Error getting file path: " + id + "]"))
      case Ok(path) =>
        match tg.download(path)
        case Err(_) => Plain("user", Text("[Error downloading audio file: " + path + "]"))
        case Ok(data) =>
          match transcribe(data, "")
          case Err(_) => Plain("user", Text(TranscriptionError))
          case Ok(text) => Plain("user", Text(text))
  }

  /** `NewMessage`: the message built by the routed factory; `tts` is `None` when no provider is configured. */
  function NewMessage(chat: Chat, provider: string, tts: Option<Transcriber>, tg: Telegram): (b: Built)
    ensures b.Panicked? ==> Route(chat, provider, tts.Some?) in {ImageParts, ImageBase64}
  {
    match Route(chat, provider, tts.Some?)
    case NoTranscription => Built(Plain("user", Text(NoTranscriptionText)))
    case AudioFactory => Built(AudioMessage(chat, tg, tts.value))
    case ImageParts => ImagePartsMessage(chat, tg)
    case ImageBase64 => ImageBase64Message(chat, tg)
    case ReplyFactory => Built(ReplyMessage(chat))
    case TextFactory => Built(TextMessage(chat))
  }

  /** A voice or audio message is transcribed whatever else it carries; without a provider it gets the fixed notice. */
  lemma AudioTakesPriority(chat: Chat, provider: string, tts: Option<Transcriber>, tg: Telegram)
    requires chat.voice.Some? || chat.audio.Some?
    ensures tts.None? ==> NewMessage(chat, provider, tts, tg) == Built(Plain("user", Text(NoTranscriptionText)))
    ensures tts.Some? ==> NewMessage(chat, provider, tts, tg) == Built(AudioMessage(chat, tg, tts.value))
  {
  }

  /** A failed transcription is reported to the model as the fixed error text. */
  lemma TranscriptionFailure(chat: Chat, provider: string, transcribe: Transcriber, tg: Telegram, path: string, data: seq<bv8>)
    requires chat.voice.Some?
    requires tg.filePath(chat.voice.value) == Ok(path) && tg.download(path) == Ok(data)
    requires transcribe(data, "").Err?
    ensures NewMessage(chat, provider, Some(transcribe), tg) == Built(Plain("user", Text(TranscriptionError)))
  {
  }

  /** Without audio, a photo or document goes to the URL-parts factory exactly for openai, mistral and groq. */
  lemma ImageRouting(chat: Chat, provider: string, tts: Option<Transcriber>, tg: Telegram)
    requires chat.voice.None? && chat.audio.None? && (chat.photo.Some? || chat.document.Some?)
    ensures TakesImageUrls(provider) ==> NewMessage(chat, provider, tts, tg) == ImagePartsMessage(chat, tg)
    ensures !TakesImageUrls(provider) ==> NewMessage(chat, provider, tts, tg) == ImageBase64Message(chat, tg)
  {
  }

  /** A plain text message (nothing attached, not a reply) becomes a user message holding the text. */
  lemma PlainText(chat: Chat, provider: string, tts: Option<Transcriber>, tg: Telegram)
    requires chat.voice.None? && chat.audio.None? && chat.photo.None? && chat.document.None? && chat.replyTo.None?
    ensures NewMessage(chat, provider, tts, tg) == Built(Plain("user", Text(chat.text)))
  {
  }
}
