/**
 * The stores the bot service talks to, as in-memory state: the user collection (keyed by
 * Telegram user id) and the per-provider cache of model names. A store whose `failing` flag is
 * set answers every call with an error and changes nothing. `owner` is the configured owner id,
 * `None` when the configured text is not an integer.
 */
module Repository {
  import opened Wrappers
  import opened Messages
  import opened BotModel

  /**
   * How an update of a user record ends: written, refused with the store's error, or a crash. The
   * source re-reads the record after writing it and assigns the new field through the result; for
   * an id with no record that result is nil, so the update panics (the write itself matched nothing).
   */
  datatype Write = Written | WriteFailed | WriteCrashed

  class UserStore {
    var users: map<int, User>
    var failing: bool
    var owner: Option<int>

    constructor (users: map<int, User>, failing: bool, owner: Option<int>)
      ensures this.users == users && this.failing == failing && this.owner == owner
    {
      this.users := users;
      this.failing := failing;
      this.owner := owner;
    }

    /** `GetUserById`: the stored user, `None` when there is none, an error when the store fails. */
    method GetUserById(id: int) returns (r: Result<Option<User>, string>)
      ensures failing <==> r.Err?
      ensures r.Ok? ==> (r.value.Some? <==> id in users)
      ensures r.Ok? && id in users ==> r.value == Some(users[id])
    {
      if failing {
        return Err("database error");
      }
      if id in users {
        return Ok(Some(users[id]));
      }
      return Ok(None);
    }

    /**
     * `CreateUser`: refuses when the owner id is not an integer; otherwise stores the user with the
     * default system prompt and its role under its id and returns the stored record.
     */
    method CreateUser(u: User) returns (r: Result<User, string>)
      modifies this
      ensures owner.None? ==> r == Err("invalid owner id") && users == old(users)
      ensures owner.Some? && old(failing) ==> r.Err? && users == old(users)
      ensures owner.Some? && !old(failing) ==>
        r == Ok(Registered(u, owner.value)) && users == old(users)[u.userId := Registered(u, owner.value)]
      ensures failing == old(failing) && owner == old(owner)
    {
      if owner.None? {
        return Err("invalid owner id");
      }
      if failing {
        return Err("database error");
      }
      var stored := Registered(u, owner.value);
      users := users[u.userId := stored];
      return Ok(stored);
    }

    /** `UpdateSystem`: replaces the user's system prompt; a failing store refuses, and an id with no record crashes. */
    method UpdateSystem(id: int, system: string) returns (w: Write)
      modifies this
      ensures old(failing) ==> w == WriteFailed && users == old(users)
      ensures !old(failing) && id !in old(users) ==> w == WriteCrashed && users == old(users)
      ensures !old(failing) && id in old(users) ==>
        w == Written && users == old(users)[id := old(users)[id].(system := system)]
      ensures failing == old(failing) && owner == old(owner)
    {
      if failing {
        return WriteFailed;
      }
      if id !in users {
        return WriteCrashed;
      }
      users := users[id := users[id].(system := system)];
      return Written;
    }

    /** `UpdateMessages`: replaces the user's conversation history; a failing store refuses, and an id with no record crashes. */
    method UpdateMessages(id: int, messages: seq<Message>) returns (w: Write)
      modifies this
      ensures old(failing) ==> w == WriteFailed && users == old(users)
      ensures !old(failing) && id !in old(users) ==> w == WriteCrashed && users == old(users)
      ensures !old(failing) && id in old(users) ==>
        w == Written && users == old(users)[id := old(users)[id].(messages := messages)]
      ensures failing == old(failing) && owner == old(owner)
    {
      if failing {
        return WriteFailed;
      }
      if id !in users {
        return WriteCrashed;
      }
      users := users[id := users[id].(messages := messages)];
      return Written;
    }

    /** `UpdateModel`: replaces the user's model; a failing store refuses, and an id with no record crashes. */
    method UpdateModel(id: int, model: string) returns (w: Write)
      modifies this
      ensures old(failing) ==> w == WriteFailed && users == old(users)
      ensures !old(failing) && id !in old(users) ==> w == WriteCrashed && users == old(users)
      ensures !old(failing) && id in old(users) ==>
        w == Written && users == old(users)[id := old(users)[id].(model := model)]
      ensures failing == old(failing) && owner == old(owner)
    {
      if failing {
        return WriteFailed;
      }
      if id !in users {
        return WriteCrashed;
      }
      users := users[id := users[id].(model := model)];
      return Written;
    }
  }

  /**
   * Whether the cache holds a list for the provider. The lists are cached as JSON, and an empty
   * catalogue is a nil slice in the source, cached as `null`; `null` reads back as nil, which the
   * reader takes for nothing cached. So an empty cached list is no hit.
   */
  predicate Hit(names: map<string, seq<string>>, provider: string) {
    provider in names && names[provider] != []
  }

  /** The cached model names, per provider name. */
  class ModelCache {
    var names: map<string, seq<string>>
    var failing: bool

    constructor (names: map<string, seq<string>>, failing: bool)
      ensures this.names == names && this.failing == failing
    {
      this.names := names;
      this.failing := failing;
    }

    /**
     * `GetModelNamesFromRedis`: the cached list, `None` when nothing is cached or the cached list
     * is empty (read back from `null` as nil).
     */
    method Get(provider: string) returns (r: Result<Option<seq<string>>, string>)
      ensures failing <==> r.Err?
      ensures r.Ok? ==> (r.value.Some? <==> provider in names && names[provider] != [])
      ensures r.Ok? && r.value.Some? ==> r.value.value == names[provider] && r.value.value != []
    {
      if failing {
        return Err("cache error");
      }
      if provider in names && names[provider] != [] {
        return Ok(Some(names[provider]));
      }
      return Ok(None);
    }

    /** `SaveModelNamesToRedis`: caches the list; a failing cache keeps nothing. */
    method Save(provider: string, models: seq<string>)
      modifies this
      ensures names == if old(failing) then old(names) else old(names)[provider := models]
      ensures failing == old(failing)
    {
      if !failing {
        names := names[provider := models];
      }
    }
  }
}
