/**
 * One conversational turn: the request is the system prompt, the stored history and the new text;
 * the stored history then grows by the new text and the reply, without the system prompt.
 */
module Conversation {
  import opened Wrappers
  import opened Messages
  import opened BotModel
  import opened Repository

  /**
   * How a turn ends: a reply, the model's error, nothing at all when the store refuses the new
   * history, or a crash when the sender has no record to update.
   */
  datatype Turn = Replied(message: Message) | ProviderError(error: string) | NoReply | StoreCrashed

  /** The messages sent to the model: the system prompt, the history, the new user text. */
  function RequestMessages(user: User, text: string): (r: seq<Message>)
    ensures |r| == |user.messages| + 2
    ensures r[0] == Plain("system", Text(user.system)) && r[|r| - 1] == Plain("user", Text(text))
    ensures r[1..|r| - 1] == user.messages
  {
    [Plain("system", Text(user.system))] + user.messages + [Plain("user", Text(text))]
  }

  /** The history stored after a turn: the request and the reply, without the system prompt. */
  function Persisted(user: User, text: string, reply: Message): seq<Message> {
    var all := RequestMessages(user, text) + [reply];
    all[1..]
  }

  /** Each turn adds exactly the user's text and the reply to the stored history. */
  lemma PersistedGrowsByTwo(user: User, text: string, reply: Message)
    ensures |Persisted(user, text, reply)| == |user.messages| + 2
    ensures Persisted(user, text, reply) == user.messages + [Plain("user", Text(text)), reply]
    ensures forall m :: m in Persisted(user, text, reply) && m !in user.messages ==> m == Plain("user", Text(text)) || m == reply
  {
    var all := RequestMessages(user, text) + [reply];
    assert all == [Plain("system", Text(user.system))] + (user.messages + [Plain("user", Text(text)), reply]);
  }

  /**
   * `conversation`: asks the model (`chat`, the Ollama call, given the user's model and the
   * messages) and stores the new history under the sender's id. A model error is returned with
   * nothing stored; when the store refuses, the turn returns neither a reply nor an error.
   */
  method Converse(repo: UserStore, user: User, senderId: int, text: string,
                  chat: (string, seq<Message>) -> Result<Message, string>) returns (turn: Turn)
    modifies repo
    ensures var res := chat(user.model, RequestMessages(user, text));
      res.Err? ==> turn == ProviderError(res.error) && repo.users == old(repo.users)
    ensures var res := chat(user.model, RequestMessages(user, text));
      res.Ok? && old(repo.failing) ==> turn == NoReply && repo.users == old(repo.users)
    ensures var res := chat(user.model, RequestMessages(user, text));
      res.Ok? && !old(repo.failing) && senderId !in old(repo.users) ==> turn == StoreCrashed && repo.users == old(repo.users)
    ensures var res := chat(user.model, RequestMessages(user, text));
      res.Ok? && !old(repo.failing) && senderId in old(repo.users) ==>
        turn == Replied(res.value)
        && repo.users == old(repo.users)[senderId := old(repo.users)[senderId].(messages := Persisted(user, text, res.value))]
    ensures repo.failing == old(repo.failing) && repo.owner == old(repo.owner)
  {
    var messages := [Plain("system", Text(user.system))];
    messages := messages + user.messages;
    messages := messages + [Plain("user", Text(text))];
    assert messages == RequestMessages(user, text);
    var res := chat(user.model, messages);
    if res.Err? {
      return ProviderError(res.error);
    }
    messages := messages + [res.value];
    messages := messages[1..];
    var stored := repo.UpdateMessages(senderId, messages);
    match stored
    case WriteFailed =>
      return NoReply;
    case WriteCrashed =>
      return StoreCrashed;
    case Written =>
      return Replied(res.value);
  }
}
