/**
 * The earlier message routing (`MessageHandler`): images go as URL parts only for OpenAI, every
 * other provider gets the image base64-encoded, and anything else is sent as text. Replies and
 * audio are not looked at here.
 */
module UserMessage {
  import opened Wrappers
  import opened Messages
  import opened Incoming

  /** The caption sent with an image, with a default question when the user gave none. */
  const DefaultCaption := "Explain this image"

  function Caption(caption: string): (r: string)
    ensures caption != "" ==> r == caption
    ensures caption == "" ==> r == DefaultCaption
    ensures r != ""
  {
    if caption != "" then caption else DefaultCaption
  }

  /** The factories `MessageHandler` chooses among. */
  datatype Handler = UrlPartsHandler | Base64Handler | TextHandler

  function Choose(provider: string, chat: Chat): (h: Handler)
    ensures h == UrlPartsHandler <==> (chat.photo.Some? || chat.document.Some?) && provider == "openai"
    ensures h == Base64Handler <==> (chat.photo.Some? || chat.document.Some?) && provider != "openai"
  {
    if chat.photo.Some? && provider == "openai" then UrlPartsHandler
    else if chat.document.Some? && provider == "openai" then UrlPartsHandler
    else if chat.photo.Some? then Base64Handler
    else if chat.document.Some? then Base64Handler
    else TextHandler
  }

  /** `MessageHandler`: the message built by the chosen factory (the file API is `tg`, its caption helper unused). */
  function MessageHandler(provider: string, chat: Chat, tg: Telegram): (b: Built)
    ensures b.Panicked? <==> chat.photo == Some([])
    ensures chat.photo.None? && chat.document.None? ==> b == Built(Plain("user", Text(chat.text)))
  {
    var tg' := tg.(imageCaption := Caption);
    match Choose(provider, chat)
    case UrlPartsHandler => ImagePartsMessage(chat, tg')
    case Base64Handler => ImageBase64Message(chat, tg')
    case TextHandler => Built(TextMessage(chat))
  }

  /**
   * With a photo or document and a file path found, OpenAI gets [caption text, image URL] and any
   * other provider gets the caption as text with the image attached, base64-encoded (when that
   * encoding succeeds); the photo used is the last size listed.
   */
  lemma ImageMessages(provider: string, chat: Chat, tg: Telegram, id: string, path: string)
    requires chat.photo.Some? || chat.document.Some?
    requires ImageFileId(chat) == Some(id) && tg.filePath(id) == Ok(path)
    ensures provider == "openai" ==>
      MessageHandler(provider, chat, tg) == Built(Plain("user", UrlParts(Caption(chat.caption), tg.imageUrl(path))))
    ensures provider != "openai" && tg.toBase64(path).Ok? ==>
      MessageHandler(provider, chat, tg)
      == Built(Message("user", "", Text(Caption(chat.caption)), Some([tg.toBase64(path).value]), None, ""))
  {
  }
}
