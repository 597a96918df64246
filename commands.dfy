/**
 * The command handlers of the multi-provider bot: the system prompt, the history reset, the model
 * choice (the provider's model list, cached per provider) and the agent choice. Each command is
 * specified by its effect on the user store and the model cache.
 */
module Commands {
  import opened Wrappers
  import opened Text
  import opened BotModel
  import opened Repository
  import opened Replies
  import opened Utils
  import Agents

  /** What a command does: the user store and the model cache afterwards, and the answer. */
  datatype Effect = Effect(users: map<int, User>, cache: map<string, seq<string>>, handled: Handled)

  /** `handleSystemCommand`, as an effect on the user store. */
  function SystemEffect(users: map<int, User>, failing: bool, id: int, args: string): (r: (map<int, User>, Reply))
    ensures args == "" ==> r == (users, SystemNeedArgs)
    ensures args != "" && failing ==> r == (users, SystemFailed)
    ensures args != "" && !failing && id !in users ==> r == (users, Panicked)
    ensures args != "" && !failing && id in users ==> r.1 == SystemSet && r.0 == users[id := users[id].(system := args)]
  {
    if args == "" then (users, SystemNeedArgs)
    else if failing then (users, SystemFailed)
    else if id !in users then (users, Panicked)
    else (users[id := users[id].(system := args)], SystemSet)
  }

  /** `handleResetCommand`, as an effect on the user store. */
  function ResetEffect(users: map<int, User>, failing: bool, id: int): (r: (map<int, User>, Reply))
    ensures failing ==> r == (users, ResetFailed)
    ensures !failing && id !in users ==> r == (users, Panicked)
    ensures !failing && id in users ==> r == (users[id := users[id].(messages := [])], ResetDone)
  {
    if failing then (users, ResetFailed)
    else if id !in users then (users, Panicked)
    else (users[id := users[id].(messages := [])], ResetDone)
  }

  /** The model listing shown by `/models` without an argument. */
  function ModelListing(user: User, provider: string, models: seq<string>): string {
    ModelsHeader(provider) + Numbered(MarkedModels(models, user.model), 0) + ModelsFooter
  }

  /**
   * `handleModelsCommand`: the list is the cached one for the provider when there is a non-empty
   * one (an empty cached list reads back as nothing cached), else the provider's (`fetched`), which
   * is then cached; without an argument the list is shown; an integer
   * `0 <= n < |models|` makes model `n` the user's model; any other argument is refused. Storing
   * the choice for a user with no record crashes.
   */
  function ModelsEffect(users: map<int, User>, failing: bool, cache: map<string, seq<string>>, cacheFailing: bool,
                        provider: string, fetched: Result<seq<string>, string>, user: User, args: string): (e: Effect)
    ensures e.handled.isCommand
    ensures e.users != users ==> !failing && user.userId in users
  {
    if cacheFailing then Effect(users, cache, Handled(true, ModelsFailed))
    else if !Hit(cache, provider) && fetched.Err? then Effect(users, cache, Handled(true, ModelsFailed))
    else
      var models := if Hit(cache, provider) then cache[provider] else fetched.value;
      ModelsChosen(users, failing, cache[provider := models], provider, models, user, args)
  }

  /** `handleModelsCommand` once the list is chosen and `cache` holds it: list, or choose model `n`. */
  function ModelsChosen(users: map<int, User>, failing: bool, cache: map<string, seq<string>>,
                        provider: string, models: seq<string>, user: User, args: string): (e: Effect)
    ensures e.handled.isCommand && e.cache == cache
    ensures e.users != users ==> !failing && user.userId in users
  {
    if args == "" then Effect(users, cache, Handled(true, Listing(ModelListing(user, provider, models))))
    else match Atoi(args)
      case None => Effect(users, cache, Handled(true, ModelsArgsNotInt))
      case Some(n) =>
        if n < 0 || n >= |models| then Effect(users, cache, Handled(true, ModelsArgsNotInt))
        else if failing then Effect(users, cache, Handled(true, ModelsUpdateFailed))
        else if user.userId !in users then Effect(users, cache, Handled(true, Panicked))
        else Effect(users[user.userId := users[user.userId].(model := models[n])], cache, Handled(true, ModelSet))
  }

  /** The agent listing shown by `/agents` without an argument. */
  function AgentListing(): string {
    Agents.AgentsHeader + (Numbered(Agents.Titles(Agents.Table), 0) + Agents.AgentsFooter)
  }

  /**
   * `handleAgentCommand`: without an argument the agent listing; a non-integer argument is refused;
   * an integer outside the table is not found; agent `n` resets the history (its failure is
   * ignored, but not its crash) and then installs `prompt(n)` as the system prompt.
   */
  function AgentEffect(users: map<int, User>, failing: bool, user: User, args: string, prompt: nat -> string): (r: (map<int, User>, Reply))
  {
    if args == "" then (users, Listing(AgentListing()))
    else match Atoi(args)
      case None => (users, AgentArgsNotInt)
      case Some(n) =>
        if n < 0 || n >= |Agents.Table| then (users, AgentNotFound)
        else
          var reset := ResetEffect(users, failing, user.userId);
          if reset.1 == Panicked then reset
          else SystemEffect(reset.0, failing, user.userId, prompt(n))
  }

  /** The dispatch on a parsed command word. */
  function Dispatch(users: map<int, User>, failing: bool, cache: map<string, seq<string>>, cacheFailing: bool,
                    provider: string, fetched: Result<seq<string>, string>, prompt: nat -> string,
                    user: User, p: Parsed): (e: Effect)
    ensures e.handled.isCommand <==> p.isCommand
  {
    if !p.isCommand then Effect(users, cache, Handled(false, Silent))
    else if p.command == "start" then Effect(users, cache, Handled(true, Start))
    else if p.command == "about" then Effect(users, cache, Handled(true, About))
    else if p.command == "system" then
      var r := SystemEffect(users, failing, user.userId, p.args); Effect(r.0, cache, Handled(true, r.1))
    else if p.command == "reset" then
      var r := ResetEffect(users, failing, user.userId); Effect(r.0, cache, Handled(true, r.1))
    else if p.command == "models" then ModelsEffect(users, failing, cache, cacheFailing, provider, fetched, user, p.args)
    else if p.command == "me" then Effect(users, cache, Handled(true, Listing(CommandMe(user))))
    else if p.command == "agents" then
      var r := AgentEffect(users, failing, user, p.args, prompt); Effect(r.0, cache, Handled(true, r.1))
    else Effect(users, cache, Handled(true, NotFound(p.command)))
  }

  /** `command`: parses the text and dispatches on the command word. */
  function CommandEffect(users: map<int, User>, failing: bool, cache: map<string, seq<string>>, cacheFailing: bool,
                         provider: string, fetched: Result<seq<string>, string>, prompt: nat -> string,
                         user: User, text: string): (e: Effect)
    ensures e.handled.isCommand <==> ParseCommand(text).isCommand
  {
    Dispatch(users, failing, cache, cacheFailing, provider, fetched, prompt, user, ParseCommand(text))
  }

  /* ---------------- what the effects promise ---------------- */

  /** Text that is not a command changes nothing. */
  lemma NonCommandChangesNothing(users: map<int, User>, failing: bool, cache: map<string, seq<string>>, cacheFailing: bool,
                                 provider: string, fetched: Result<seq<string>, string>, prompt: nat -> string,
                                 user: User, text: string)
    requires text == [] || text[0] != '/'
    ensures CommandEffect(users, failing, cache, cacheFailing, provider, fetched, prompt, user, text)
         == Effect(users, cache, Handled(false, Silent))
  {
  }

  /** An unknown command word is answered as not found and counts as handled. */
  lemma UnknownCommandIsHandled(users: map<int, User>, failing: bool, cache: map<string, seq<string>>, cacheFailing: bool,
                                provider: string, fetched: Result<seq<string>, string>, prompt: nat -> string,
                                user: User, text: string)
    requires ParseCommand(text).isCommand
    requires ParseCommand(text).command !in {"start", "about", "system", "reset", "models", "me", "agents"}
    ensures CommandEffect(users, failing, cache, cacheFailing, provider, fetched, prompt, user, text)
         == Effect(users, cache, Handled(true, NotFound(ParseCommand(text).command)))
  {
  }

  /**
   * A non-empty cached list is used as it is, whatever the provider would answer; without one the
   * provider's list is used and cached.
   */
  lemma CachedModelsWin(users: map<int, User>, failing: bool, cache: map<string, seq<string>>,
                        provider: string, fetched: Result<seq<string>, string>, user: User, args: string)
    ensures Hit(cache, provider) ==>
      ModelsEffect(users, failing, cache, false, provider, fetched, user, args)
      == ModelsEffect(users, failing, cache, false, provider, Err(""), user, args)
    ensures !Hit(cache, provider) && fetched.Ok? ==>
      ModelsEffect(users, failing, cache, false, provider, fetched, user, args).cache == cache[provider := fetched.value]
  {
  }

  /**
   * An empty cached list counts as nothing cached: `/models` asks the provider again and, given its
   * list, behaves as if the provider had no entry; when the provider fails, so does the command.
   */
  lemma EmptyCacheIsFetchedAgain(users: map<int, User>, failing: bool, cache: map<string, seq<string>>,
                                 provider: string, fetched: Result<seq<string>, string>, user: User, args: string)
    requires provider in cache && cache[provider] == []
    ensures fetched.Ok? ==>
      ModelsEffect(users, failing, cache, false, provider, fetched, user, args)
      == ModelsEffect(users, failing, cache - {provider}, false, provider, fetched, user, args)
    ensures fetched.Err? ==>
      ModelsEffect(users, failing, cache, false, provider, fetched, user, args)
      == Effect(users, cache, Handled(true, ModelsFailed))
  {
    assert !Hit(cache - {provider}, provider);
    assert (cache - {provider})[provider := []] == cache;
    if fetched.Ok? {
      var chosen := ModelsChosen(users, failing, cache[provider := fetched.value], provider, fetched.value, user, args);
      assert ModelsEffect(users, failing, cache, false, provider, fetched, user, args) == chosen;
      assert (cache - {provider})[provider := fetched.value] == cache[provider := fetched.value];
      assert ModelsEffect(users, failing, cache - {provider}, false, provider, fetched, user, args) == chosen;
    }
  }

  /**
   * An empty catalogue is not remembered: after a `/models` that fetched no models, the next one
   * asks the provider again, and fails when the provider now fails.
   */
  lemma EmptyCatalogueIsNotRemembered(users: map<int, User>, failing: bool, cache: map<string, seq<string>>,
                                      provider: string, user: User, args: string, error: string, again: string)
    requires !Hit(cache, provider)
    ensures var first := ModelsEffect(users, failing, cache, false, provider, Ok([]), user, args);
      ModelsEffect(first.users, failing, first.cache, false, provider, Err(error), user, again).handled.reply
      == ModelsFailed
  {
    var first := ModelsEffect(users, failing, cache, false, provider, Ok([]), user, args);
    assert first.cache == cache[provider := []];
    EmptyCacheIsFetchedAgain(first.users, failing, first.cache, provider, Err(error), user, again);
  }

  /**
   * `/models n` sets the model exactly for an integer `0 <= n < |models|` (given a working store),
   * and then the user's model is `models[n]`; otherwise the answer refuses the argument.
   */
  lemma ModelIndexValidation(users: map<int, User>, cache: map<string, seq<string>>, provider: string,
                             user: User, args: string)
    requires Hit(cache, provider) && user.userId in users && args != ""
    ensures var e := ModelsEffect(users, false, cache, false, provider, Err(""), user, args);
      var models := cache[provider];
      (e.handled.reply == ModelSet <==> Atoi(args).Some? && 0 <= Atoi(args).value < |models|)
      && (e.handled.reply == ModelSet ==> e.users[user.userId].model == models[Atoi(args).value])
      && (e.handled.reply != ModelSet ==> e.handled.reply == ModelsArgsNotInt && e.users == users)
  {
  }

  /**
   * `/agents n`: a non-integer is refused, an integer outside the table is not found, and a valid
   * agent leaves the user with an empty history and that agent's prompt.
   */
  lemma AgentChoice(users: map<int, User>, user: User, args: string, prompt: nat -> string)
    requires args != ""
    ensures Atoi(args).None? ==> AgentEffect(users, false, user, args, prompt) == (users, AgentArgsNotInt)
    ensures Atoi(args).Some? && (Atoi(args).value < 0 || Atoi(args).value >= 17) ==>
      AgentEffect(users, false, user, args, prompt) == (users, AgentNotFound)
    ensures Atoi(args).Some? && 0 <= Atoi(args).value < 17 && user.userId in users && prompt(Atoi(args).value) != "" ==>
      var r := AgentEffect(users, false, user, args, prompt);
      r.1 == SystemSet && r.0[user.userId] == users[user.userId].(messages := [], system := prompt(Atoi(args).value))
  {
  }

  /**
   * No command crashes for a sender with a record, and only a sender without one can make a
   * command crash: the bot stores the sender before it runs a command.
   */
  lemma StoredSenderNeverPanics(users: map<int, User>, failing: bool, cache: map<string, seq<string>>, cacheFailing: bool,
                                provider: string, fetched: Result<seq<string>, string>, prompt: nat -> string,
                                user: User, text: string)
    ensures var e := CommandEffect(users, failing, cache, cacheFailing, provider, fetched, prompt, user, text);
      e.handled.reply == Panicked ==> !failing && user.userId !in users && e.users == users
  {
    DispatchPanicsOnlyWithoutRecord(users, failing, cache, cacheFailing, provider, fetched, prompt, user, ParseCommand(text));
  }

  lemma DispatchPanicsOnlyWithoutRecord(users: map<int, User>, failing: bool, cache: map<string, seq<string>>, cacheFailing: bool,
                                        provider: string, fetched: Result<seq<string>, string>, prompt: nat -> string,
                                        user: User, p: Parsed)
    ensures var e := Dispatch(users, failing, cache, cacheFailing, provider, fetched, prompt, user, p);
      e.handled.reply == Panicked ==> !failing && user.userId !in users && e.users == users
  {
    if p.isCommand && p.command == "models" {
      ModelsPanicOnlyWithoutRecord(users, failing, cache, cacheFailing, provider, fetched, user, p.args);
    } else if p.isCommand && p.command == "agents" {
      AgentPanicOnlyWithoutRecord(users, failing, user, p.args, prompt);
    }
  }

  lemma ModelsPanicOnlyWithoutRecord(users: map<int, User>, failing: bool, cache: map<string, seq<string>>, cacheFailing: bool,
                                     provider: string, fetched: Result<seq<string>, string>, user: User, args: string)
    ensures var e := ModelsEffect(users, failing, cache, cacheFailing, provider, fetched, user, args);
      e.handled.reply == Panicked ==> !failing && user.userId !in users && e.users == users
  {
    if !cacheFailing && !(!Hit(cache, provider) && fetched.Err?) && args != "" && Atoi(args).Some? {
      var models := if Hit(cache, provider) then cache[provider] else fetched.value;
      var n := Atoi(args).value;
      if 0 <= n < |models| && !failing && user.userId in users {
        assert ModelsEffect(users, failing, cache, cacheFailing, provider, fetched, user, args).handled.reply == ModelSet;
      }
    }
  }

  lemma AgentPanicOnlyWithoutRecord(users: map<int, User>, failing: bool, user: User, args: string, prompt: nat -> string)
    ensures var r := AgentEffect(users, failing, user, args, prompt);
      r.1 == Panicked ==> !failing && user.userId !in users && r.0 == users
  {
  }

  /* ---------------- the methods ---------------- */

  /** `handleSystemCommand`. */
  method HandleSystem(repo: UserStore, user: User, args: string) returns (h: Handled)
    modifies repo
    ensures (repo.users, h.reply) == SystemEffect(old(repo.users), old(repo.failing), user.userId, args) && h.isCommand
    ensures repo.failing == old(repo.failing)
  {
    if args == "" {
      return Handled(true, SystemNeedArgs);
    }
    var w := repo.UpdateSystem(user.userId, args);
    match w
    case WriteFailed =>
      return Handled(true, SystemFailed);
    case WriteCrashed =>
      return Handled(true, Panicked);
    case Written =>
      return Handled(true, SystemSet);
  }

  /** `handleResetCommand`. */
  method HandleReset(repo: UserStore, user: User) returns (h: Handled)
    modifies repo
    ensures (repo.users, h.reply) == ResetEffect(old(repo.users), old(repo.failing), user.userId) && h.isCommand
    ensures repo.failing == old(repo.failing)
  {
    var w := repo.UpdateMessages(user.userId, []);
    match w
    case WriteFailed =>
      return Handled(true, ResetFailed);
    case WriteCrashed =>
      return Handled(true, Panicked);
    case Written =>
      return Handled(true, ResetDone);
  }

  /** `handleModelsCommand`; `fetched` is what the provider's `Models` returns. */
  method HandleModels(repo: UserStore, cache: ModelCache, provider: string, fetched: Result<seq<string>, string>,
                      user: User, args: string) returns (h: Handled)
    modifies repo, cache
    ensures Effect(repo.users, cache.names, h)
         == ModelsEffect(old(repo.users), old(repo.failing), old(cache.names), old(cache.failing), provider, fetched, user, args)
    ensures repo.failing == old(repo.failing) && cache.failing == old(cache.failing)
  {
    var cached := cache.Get(provider);
    if cached.Err? {
      return Handled(true, ModelsFailed);
    }
    var models: seq<string>;
    if cached.value.Some? {
      models := cached.value.value;
      assert cache.names[provider := models] == cache.names;
    } else {
      if fetched.Err? {
        return Handled(true, ModelsFailed);
      }
      models := fetched.value;
      cache.Save(provider, models);
    }
    if args == "" {
      var listing := ListModels(user, provider, models);
      return Handled(true, Listing(listing));
    }
    var n := Atoi(args);
    if n.None? || n.value < 0 || n.value >= |models| {
      return Handled(true, ModelsArgsNotInt);
    }
    var w := repo.UpdateModel(user.userId, models[n.value]);
    match w
    case WriteFailed =>
      return Handled(true, ModelsUpdateFailed);
    case WriteCrashed =>
      return Handled(true, Panicked);
    case Written =>
      return Handled(true, ModelSet);
  }

  /** `handleAgentCommand`; `prompt(n)` is agent `n`'s prompt text. */
  method HandleAgent(repo: UserStore, user: User, args: string, prompt: nat -> string) returns (h: Handled)
    modifies repo
    ensures (repo.users, h.reply) == AgentEffect(old(repo.users), old(repo.failing), user, args, prompt) && h.isCommand
    ensures repo.failing == old(repo.failing)
  {
    var list, detailAgents := Agents.ListAgents();
    if args == "" {
      assert list == Agents.AgentsHeader + list[|Agents.AgentsHeader|..];
      return Handled(true, Listing(list));
    }
    var n := Atoi(args);
    if n.None? {
      return Handled(true, AgentArgsNotInt);
    }
    if n.value < 0 || n.value >= |detailAgents| {
      return Handled(true, AgentNotFound);
    }
    var reset := HandleReset(repo, user);
    if reset.reply == Panicked {
      return reset;
    }
    h := HandleSystem(repo, user, prompt(n.value));
  }

  /** `command`; `provider` names the configured provider, `fetched` is its model list. */
  method Command(repo: UserStore, cache: ModelCache, provider: string, fetched: Result<seq<string>, string>,
                 prompt: nat -> string, user: User, text: string) returns (h: Handled)
    modifies repo, cache
    ensures Effect(repo.users, cache.names, h)
         == CommandEffect(old(repo.users), old(repo.failing), old(cache.names), old(cache.failing), provider, fetched, prompt, user, text)
  {
    h := DispatchCommand(repo, cache, provider, fetched, prompt, user, ParseCommand(text));
  }

  /** The switch on the command word. */
  method DispatchCommand(repo: UserStore, cache: ModelCache, provider: string, fetched: Result<seq<string>, string>,
                         prompt: nat -> string, user: User, p: Parsed) returns (h: Handled)
    modifies repo, cache
    ensures Effect(repo.users, cache.names, h)
         == Dispatch(old(repo.users), old(repo.failing), old(cache.names), old(cache.failing), provider, fetched, prompt, user, p)
  {
    if !p.isCommand {
      return Handled(false, Silent);
    }
    if p.command == "start" {
      h := Handled(true, Start);
    } else if p.command == "about" {
      h := Handled(true, About);
    } else if p.command == "system" {
      h := HandleSystem(repo, user, p.args);
    } else if p.command == "reset" {
      h := HandleReset(repo, user);
    } else if p.command == "models" {
      h := HandleModels(repo, cache, provider, fetched, user, p.args);
    } else if p.command == "me" {
      h := Handled(true, Listing(CommandMe(user)));
    } else if p.command == "agents" {
      h := HandleAgent(repo, user, p.args, prompt);
    } else {
      h := Handled(true, NotFound(p.command));
    }
  }
}
