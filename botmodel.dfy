/** The bot's stored user record (its database id and timestamps are not modelled). */
module BotModel {
  import opened Messages

  /** A chat user: Telegram id and name, system prompt, chosen model and conversation history. */
  datatype User = User(userId: int, name: string, system: string, model: string, messages: seq<Message>, role: string)

  /** The system prompt every new user starts with. */
  const RoleSystemDefault := "You are Teo, a helpful assistant living in Telegram. Respond to users using Telegram's supported MarkdownV2 style."

  /** A user as stored on creation: the default system prompt, and the owner role exactly for the owner's id. */
  function Registered(u: User, owner: int): (r: User)
    ensures r.userId == u.userId && r.name == u.name && r.model == u.model && r.messages == u.messages
    ensures r.system == RoleSystemDefault
    ensures r.role == "owner" <==> u.userId == owner
    ensures r.role != "owner" ==> r.role == "user"
  {
    u.(system := RoleSystemDefault, role := if u.userId == owner then "owner" else "user")
  }
}
