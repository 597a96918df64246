/**
 * The Ollama-only bot flow: find or create the sender, answer a command or hold a conversation,
 * and send the answer to Telegram. Each command is specified by its effect on the user store.
 */
module Service {
  import opened Wrappers
  import opened Text
  import opened Messages
  import opened BotModel
  import opened Repository
  import opened Replies
  import opened Utils
  import opened Conversation

  /** One entry of the Ollama tags reply: its display name and the model id. */
  datatype Tag = Tag(name: string, model: string)

  /** What a command does: the user store afterwards, and the answer. */
  datatype Effect = Effect(users: map<int, User>, handled: Handled)

  /** The user `checkUser` asks the store to create for a first-time sender: id and first name. */
  function NewUser(id: int, firstName: string): User {
    User(id, firstName, "", "", [], "")
  }

  /* ---------------- the commands, as effects ---------------- */

  /** `after` has the same users as `before`, and differs at most in the record of `id`. */
  predicate OnlyRecordOf(after: map<int, User>, before: map<int, User>, id: int) {
    after.Keys == before.Keys && forall other :: other in before && other != id ==> after[other] == before[other]
  }

  /** Replacing one present record changes only that record. */
  lemma ReplacingARecord(users: map<int, User>, id: int, u: User)
    requires id in users
    ensures OnlyRecordOf(users[id := u], users, id)
  {
  }

  /**
   * `/system <prompt>`: needs a prompt; sets it as the sender's system prompt. A failing store
   * refuses, and a sender with no record crashes the update.
   */
  function SystemCommand(users: map<int, User>, failing: bool, id: int, args: string): (e: Effect)
    ensures e.handled.isCommand
    ensures OnlyRecordOf(e.users, users, id)
    ensures e.handled.reply == SystemSet <==> args != "" && !failing && id in users
    ensures e.handled.reply == SystemSet ==> e.users[id] == users[id].(system := args)
    ensures e.handled.reply != SystemSet ==> e.users == users
    ensures args == "" ==> e.handled.reply == SystemNeedArgs
    ensures args != "" && failing ==> e.handled.reply == SystemFailed
    ensures args != "" && !failing && id !in users ==> e.handled.reply == Panicked
  {
    if args == "" then Effect(users, Handled(true, SystemNeedArgs))
    else if failing then Effect(users, Handled(true, SystemFailed))
    else if id !in users then Effect(users, Handled(true, Panicked))
    else Effect(users[id := users[id].(system := args)], Handled(true, SystemSet))
  }

  /** `/reset`: empties the sender's history; a sender with no record crashes the update. */
  function ResetCommand(users: map<int, User>, failing: bool, id: int): (e: Effect)
    ensures e.handled.isCommand
    ensures OnlyRecordOf(e.users, users, id)
  {
    if failing then Effect(users, Handled(true, ResetFailed))
    else if id !in users then Effect(users, Handled(true, Panicked))
    else Effect(users[id := users[id].(messages := [])], Handled(true, ResetDone))
  }

  /** The names of the tags, in order. */
  function TagNames(tags: seq<Tag>): (r: seq<string>)
    ensures |r| == |tags| && forall k :: 0 <= k < |tags| ==> r[k] == tags[k].name
  {
    seq(|tags|, k requires 0 <= k < |tags| => tags[k].name)
  }

  /** The listing of the tags. */
  function TagListing(tags: seq<Tag>): string {
    TagsHeader + Numbered(TagNames(tags), 0) + TagsFooter
  }

  /**
   * `/models [n]`: without an argument, the numbered tag listing; with an integer `0 <= n < |tags|`,
   * tag `n`'s model becomes the sender's model; any other argument is refused.
   */
  function ModelsCommand(users: map<int, User>, failing: bool, id: int, args: string,
                         tags: Result<seq<Tag>, string>): (e: Effect)
    ensures e.handled.isCommand
    ensures OnlyRecordOf(e.users, users, id)
  {
    if tags.Err? then Effect(users, Handled(true, ModelsFailed))
    else if args == "" then Effect(users, Handled(true, Listing(TagListing(tags.value))))
    else match Atoi(args)
      case None => Effect(users, Handled(true, ModelsArgsNotInt))
      case Some(n) =>
        if n < 0 || n >= |tags.value| then Effect(users, Handled(true, ModelsArgsNotInt))
        else if failing then Effect(users, Handled(true, ModelsUpdateFailed))
        else if id !in users then Effect(users, Handled(true, Panicked))
        else
          ReplacingARecord(users, id, users[id].(model := tags.value[n].model));
          Effect(users[id := users[id].(model := tags.value[n].model)], Handled(true, ModelSet))
  }

  /** `command`: parses the text and dispatches on the command word; at most the sender's record changes. */
  function CommandEffect(users: map<int, User>, failing: bool, id: int, text: string,
                         tags: Result<seq<Tag>, string>): (e: Effect)
    ensures e.handled.isCommand <==> ParseCommand(text).isCommand
    ensures OnlyRecordOf(e.users, users, id)
  {
    var p := ParseCommand(text);
    if !p.isCommand then Effect(users, Handled(false, Silent))
    else if p.command == "start" then Effect(users, Handled(true, Start))
    else if p.command == "about" then Effect(users, Handled(true, About))
    else if p.command == "system" then SystemCommand(users, failing, id, p.args)
    else if p.command == "reset" then ResetCommand(users, failing, id)
    else if p.command == "models" then ModelsCommand(users, failing, id, p.args, tags)
    else Effect(users, Handled(true, NotFound(p.command)))
  }

  /* ---------------- what the effects promise ---------------- */

  /** Text that is not a command changes nothing and is left to the conversation. */
  lemma NonCommandChangesNothing(users: map<int, User>, failing: bool, id: int, text: string, tags: Result<seq<Tag>, string>)
    requires text == [] || text[0] != '/'
    ensures CommandEffect(users, failing, id, text, tags) == Effect(users, Handled(false, Silent))
  {
  }

  /** An unknown command word is answered as not found, still counts as handled, and changes nothing. */
  lemma UnknownCommandIsHandled(users: map<int, User>, failing: bool, id: int, text: string, tags: Result<seq<Tag>, string>)
    requires ParseCommand(text).isCommand
    requires ParseCommand(text).command !in {"start", "about", "system", "reset", "models"}
    ensures CommandEffect(users, failing, id, text, tags) == Effect(users, Handled(true, NotFound(ParseCommand(text).command)))
  {
  }

  /** `/system` without a prompt asks for one and leaves the prompt as it was. */
  lemma SystemNeedsAPrompt(users: map<int, User>, failing: bool, id: int)
    ensures SystemCommand(users, failing, id, "") == Effect(users, Handled(true, SystemNeedArgs))
  {
  }

  /** A successful `/reset` leaves the sender with an empty history and the rest of the record as it was. */
  lemma ResetEmptiesHistory(users: map<int, User>, id: int)
    requires id in users
    ensures var e := ResetCommand(users, false, id);
      e.handled.reply == ResetDone && e.users[id] == users[id].(messages := [])
  {
  }

  /** A successful `/system p` makes `p` the sender's system prompt and keeps the rest of the record. */
  lemma SystemSetsThePrompt(users: map<int, User>, id: int, prompt: string)
    requires id in users && prompt != ""
    ensures var e := SystemCommand(users, false, id, prompt);
      e.handled.reply == SystemSet && e.users[id] == users[id].(system := prompt)
      && e.users.Keys == users.Keys
  {
  }

  /**
   * No command crashes for a sender with a record, and only a sender without one can make a
   * command crash: the bot stores the sender before it runs a command.
   */
  lemma StoredSenderNeverPanics(users: map<int, User>, failing: bool, id: int, text: string, tags: Result<seq<Tag>, string>)
    ensures var e := CommandEffect(users, failing, id, text, tags);
      e.handled.reply == Panicked ==> !failing && id !in users && e.users == users
  {
    var p := ParseCommand(text);
    var e := CommandEffect(users, failing, id, text, tags);
    if p.isCommand && p.command == "system" {
      assert e == SystemCommand(users, failing, id, p.args);
    } else if p.isCommand && p.command == "reset" {
      assert e == ResetCommand(users, failing, id);
    } else if p.isCommand && p.command == "models" {
      assert e == ModelsCommand(users, failing, id, p.args, tags);
      ModelsPanicOnlyWithoutRecord(users, failing, id, p.args, tags);
    } else if !p.isCommand {
      assert e == Effect(users, Handled(false, Silent));
    } else if p.command == "start" {
      assert e == Effect(users, Handled(true, Start));
    } else if p.command == "about" {
      assert e == Effect(users, Handled(true, About));
    } else {
      assert e == Effect(users, Handled(true, NotFound(p.command)));
    }
  }

  lemma ModelsPanicOnlyWithoutRecord(users: map<int, User>, failing: bool, id: int, args: string, tags: Result<seq<Tag>, string>)
    ensures var e := ModelsCommand(users, failing, id, args, tags);
      e.handled.reply == Panicked ==> !failing && id !in users && e.users == users
  {
    if tags.Ok? && args != "" && Atoi(args).Some? {
      var n := Atoi(args).value;
      if 0 <= n < |tags.value| && !failing && id in users {
        assert ModelsCommand(users, failing, id, args, tags).handled.reply == ModelSet;
      }
    }
  }

  /**
   * `/models n` sets the model exactly for an integer `0 <= n < |tags|` (given a working store),
   * and then the sender's model is tag `n`'s model id (not its display name).
   */
  lemma ModelIndexValidation(users: map<int, User>, id: int, args: string, tags: seq<Tag>)
    requires id in users && args != ""
    ensures var e := ModelsCommand(users, false, id, args, Ok(tags));
      (e.handled.reply == ModelSet <==> Atoi(args).Some? && 0 <= Atoi(args).value < |tags|)
      && (e.handled.reply == ModelSet ==> e.users[id].model == tags[Atoi(args).value].model)
      && (e.handled.reply != ModelSet ==> e.handled.reply == ModelsArgsNotInt && e.users == users)
  {
  }

  /* ---------------- the methods ---------------- */

  /** `checkUser`: the stored sender, or a new user made from the sender's id and first name. */
  method CheckUser(repo: UserStore, senderId: int, firstName: string) returns (r: Result<User, string>)
    modifies repo
    ensures old(repo.failing) ==> r.Err? && repo.users == old(repo.users)
    ensures !old(repo.failing) && senderId in old(repo.users) ==>
      r == Ok(old(repo.users)[senderId]) && repo.users == old(repo.users)
    ensures !old(repo.failing) && senderId !in old(repo.users) && old(repo.owner).None? ==>
      r.Err? && repo.users == old(repo.users)
    ensures !old(repo.failing) && senderId !in old(repo.users) && old(repo.owner).Some? ==>
      var created := Registered(NewUser(senderId, firstName), old(repo.owner).value);
      r == Ok(created) && repo.users == old(repo.users)[senderId := created]
    ensures repo.failing == old(repo.failing) && repo.owner == old(repo.owner)
  {
    var found := repo.GetUserById(senderId);
    if found.Err? {
      return Err(found.error);
    }
    if found.value.None? {
      var created := repo.CreateUser(NewUser(senderId, firstName));
      return created;
    }
    return Ok(found.value.value);
  }

  /** `handleSystemCommand`. */
  method HandleSystem(repo: UserStore, senderId: int, args: string) returns (h: Handled)
    modifies repo
    ensures Effect(repo.users, h) == SystemCommand(old(repo.users), old(repo.failing), senderId, args)
    ensures repo.failing == old(repo.failing)
  {
    if args == "" {
      return Handled(true, SystemNeedArgs);
    }
    var w := repo.UpdateSystem(senderId, args);
    match w
    case WriteFailed =>
      return Handled(true, SystemFailed);
    case WriteCrashed =>
      return Handled(true, Panicked);
    case Written =>
      return Handled(true, SystemSet);
  }

  /** `handleResetCommand`. */
  method HandleReset(repo: UserStore, senderId: int) returns (h: Handled)
    modifies repo
    ensures Effect(repo.users, h) == ResetCommand(old(repo.users), old(repo.failing), senderId)
    ensures repo.failing == old(repo.failing)
  {
    var w := repo.UpdateMessages(senderId, []);
    match w
    case WriteFailed =>
      return Handled(true, ResetFailed);
    case WriteCrashed =>
      return Handled(true, Panicked);
    case Written =>
      return Handled(true, ResetDone);
  }

  /** `handleModelsCommand`; `tags` is the reply of the Ollama tags call. */
  method HandleModels(repo: UserStore, senderId: int, args: string, tags: Result<seq<Tag>, string>) returns (h: Handled)
    modifies repo
    ensures Effect(repo.users, h) == ModelsCommand(old(repo.users), old(repo.failing), senderId, args, tags)
    ensures repo.failing == old(repo.failing)
  {
    if tags.Err? {
      return Handled(true, ModelsFailed);
    }
    if args == "" {
      var listing := ListTags(TagNames(tags.value));
      return Handled(true, Listing(listing));
    }
    var n := Atoi(args);
    if n.None? || n.value < 0 || n.value >= |tags.value| {
      return Handled(true, ModelsArgsNotInt);
    }
    var w := repo.UpdateModel(senderId, tags.value[n.value].model);
    match w
    case WriteFailed =>
      return Handled(true, ModelsUpdateFailed);
    case WriteCrashed =>
      return Handled(true, Panicked);
    case Written =>
      return Handled(true, ModelSet);
  }

  /** `command`. */
  method Command(repo: UserStore, senderId: int, text: string, tags: Result<seq<Tag>, string>) returns (h: Handled)
    modifies repo
    ensures Effect(repo.users, h) == CommandEffect(old(repo.users), old(repo.failing), senderId, text, tags)
    ensures repo.failing == old(repo.failing)
  {
    var p := ParseCommand(text);
    if !p.isCommand {
      return Handled(false, Silent);
    }
    if p.command == "start" {
      h := Handled(true, Start);
    } else if p.command == "about" {
      h := Handled(true, About);
    } else if p.command == "system" {
      h := HandleSystem(repo, senderId, p.args);
    } else if p.command == "reset" {
      h := HandleReset(repo, senderId);
    } else if p.command == "models" {
      h := HandleModels(repo, senderId, args := p.args, tags := tags);
    } else {
      h := Handled(true, NotFound(p.command));
    }
  }

  /* ---------------- the bot ---------------- */

  /** How a webhook call ends. */
  datatype BotOutcome =
    | Delivered
    | Failed(error: string)
    | Dropped      // no error and nothing sent back: the send was refused without a transport error
    | Crashed      // a panic: a nil reply or a nil user record is dereferenced

  /** The text of a model reply. */
  function ReplyText(m: Message): string {
    if m.content.Text? then m.content.text else ""
  }

  /** How the final send ends: its error, a refusal without error, or delivery. */
  function SendOutcome(sent: Result<bool, string>): BotOutcome {
    match sent
    case Err(e) => Failed(e)
    case Ok(accepted) => if accepted then Delivered else Dropped
  }

  /** The user store once the sender has been looked up, and created (which needs an owner id) when missing. */
  function WithSender(users: map<int, User>, owner: Option<int>, id: int, firstName: string): (r: map<int, User>)
    requires id in users || owner.Some?
    ensures id in r && r.Keys == users.Keys + {id}
    ensures id in users ==> r == users
  {
    if id in users then users else users[id := Registered(NewUser(id, firstName), owner.value)]
  }

  /**
   * `Bot`: find or create the sender; a command is answered by its handler and only other text goes
   * to the conversation, whose reply is the answer; the answer is sent to the sender's chat. `chat`
   * is the Ollama call (model and messages) and `send` the Telegram call (its error, or whether
   * Telegram accepted the message).
   */
  method Bot(repo: UserStore, senderId: int, firstName: string, text: string, tags: Result<seq<Tag>, string>,
             chat: (string, seq<Message>) -> Result<Message, string>, send: (int, Reply) -> Result<bool, string>)
    returns (outcome: BotOutcome, answer: Reply)
    modifies repo
    ensures old(repo.failing) ==> outcome.Failed? && repo.users == old(repo.users)
    ensures senderId !in old(repo.users) && old(repo.owner).None? ==> outcome.Failed? && repo.users == old(repo.users)
    // a command: the handler's answer and store, then the send
    ensures !old(repo.failing) && (senderId in old(repo.users) || old(repo.owner).Some?) && ParseCommand(text).isCommand ==>
      var effect := CommandEffect(WithSender(old(repo.users), old(repo.owner), senderId, firstName), false, senderId, text, tags);
      answer == effect.handled.reply && repo.users == effect.users && outcome == SendOutcome(send(senderId, answer))
    // a conversation: the model's error, or its reply as the answer with the history grown by two
    ensures !old(repo.failing) && (senderId in old(repo.users) || old(repo.owner).Some?) && !ParseCommand(text).isCommand ==>
      var users := WithSender(old(repo.users), old(repo.owner), senderId, firstName);
      var user := users[senderId];
      var res := chat(user.model, RequestMessages(user, text));
      (res.Err? ==> outcome == Failed(res.error) && repo.users == users)
      && (res.Ok? ==>
            answer == Said(ReplyText(res.value))
            && repo.users == users[senderId := user.(messages := user.messages + [Plain("user", Text(text)), res.value])]
            && outcome == SendOutcome(send(senderId, answer)))
    ensures outcome == Delivered ==> send(senderId, answer) == Ok(true)
  {
    answer := Silent;
    var user := CheckUser(repo, senderId, firstName);
    if user.Err? {
      return Failed(user.error), answer;
    }
    ghost var users := WithSender(old(repo.users), old(repo.owner), senderId, firstName);
    assert repo.users == users && user.value == users[senderId];
    var h := Command(repo, senderId, text, tags);
    StoredSenderNeverPanics(users, false, senderId, text, tags);
    answer := h.reply;
    if h.reply == Panicked {
      return Crashed, answer;
    }
    if !h.isCommand {
      assert repo.users == users;
      var turn := Converse(repo, user.value, senderId, text, chat);
      match turn
      case ProviderError(e) =>
        return Failed(e), answer;
      case NoReply =>
        return Crashed, answer;
      case StoreCrashed =>
        return Crashed, answer;
      case Replied(m) =>
        PersistedGrowsByTwo(user.value, text, m);
        answer := Said(ReplyText(m));
    }
    var sent := send(senderId, answer);
    if sent.Err? {
      return Failed(sent.error), answer;
    }
    if !sent.value {
      return Dropped, answer;
    }
    return Delivered, answer;
  }
}
