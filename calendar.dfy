/**
 * The calendar tool: a list of schedules kept in insertion order, updated and deleted at the first
 * entry matching both the schedule id and the user id, and searched by time range, title or tags
 * (never returning another user's schedules). Times are seconds; RFC 3339 parsing is a parameter.
 */
module Calendar {
  import opened Wrappers
  import opened Text
  import opened Json

  datatype Schedule = Schedule(
    id: string, userId: string, title: string, description: string,
    startTime: int, endTime: int, tags: seq<string>)

  /** What the tool answers: a text, or the JSON rendering of schedules (the encoding is not modelled). */
  datatype Answer = Said(text: string) | Found(schedules: seq<Schedule>)

  /** RFC 3339 time parsing, to seconds. */
  type ParseTime = string -> Result<int, string>

  /* ---------------- the store ---------------- */

  predicate Owned(s: Schedule, id: string, userId: string) {
    s.id == id && s.userId == userId
  }

  /** The first schedule with this id owned by this user, if any. */
  function FirstOwned(schedules: seq<Schedule>, id: string, userId: string): (r: Option<nat>)
    ensures r.Some? ==> r.value < |schedules| && Owned(schedules[r.value], id, userId)
    ensures r.Some? ==> forall j | 0 <= j < r.value :: !Owned(schedules[j], id, userId)
    ensures r.None? ==> forall j | 0 <= j < |schedules| :: !Owned(schedules[j], id, userId)
  {
    if |schedules| == 0 then None
    else if Owned(schedules[0], id, userId) then Some(0)
    else match FirstOwned(schedules[1..], id, userId)
      case None => None
      case Some(i) => Some(i + 1)
  }

  function NotFound(id: string): string {
    "schedule with ID " + id + " not found"
  }

  /** A schedule `SearchByDateRange` returns: the user's, starting no earlier than `start` and ending no later than `end`. */
  predicate InRange(s: Schedule, userId: string, start: int, end: int) {
    s.userId == userId && start <= s.startTime && s.endTime <= end
  }

  function InRangeOf(schedules: seq<Schedule>, userId: string, start: int, end: int): seq<Schedule> {
    if schedules == [] then []
    else
      var last := schedules[|schedules| - 1];
      InRangeOf(schedules[..|schedules| - 1], userId, start, end) + (if InRange(last, userId, start, end) then [last] else [])
  }

  /** A schedule `SearchByTitle` returns: the user's, its title containing the query, ignoring case. */
  predicate TitleHas(s: Schedule, userId: string, query: string) {
    s.userId == userId && Contains(ToLower(s.title), ToLower(query))
  }

  function TitledOf(schedules: seq<Schedule>, userId: string, query: string): seq<Schedule> {
    if schedules == [] then []
    else
      var last := schedules[|schedules| - 1];
      TitledOf(schedules[..|schedules| - 1], userId, query) + (if TitleHas(last, userId, query) then [last] else [])
  }

  /** How many of the query tags a schedule carries (a query tag listed twice counts twice). */
  function Hits(query: seq<string>, tags: seq<string>): (n: nat)
    ensures n <= |query|
  {
    if query == [] then 0
    else Hits(query[..|query| - 1], tags) + (if query[|query| - 1] in tags then 1 else 0)
  }

  /** What `SearchByTags` returns: each of the user's schedules once per query tag it carries. */
  function TaggedOf(schedules: seq<Schedule>, userId: string, query: seq<string>): seq<Schedule> {
    if schedules == [] then []
    else
      var last := schedules[|schedules| - 1];
      TaggedOf(schedules[..|schedules| - 1], userId, query)
      + (if last.userId == userId then Repeat(last, Hits(query, last.tags)) else [])
  }

  /** The calendar's schedules. */
  class CalendarManager {
    var schedules: seq<Schedule>

    constructor()
      ensures schedules == []
    {
      schedules := [];
    }

    /** `AddSchedule`: appends at the end. */
    method AddSchedule(s: Schedule)
      modifies this
      ensures schedules == old(schedules) + [s]
    {
      schedules := schedules + [s];
    }

    /** `UpdateSchedule`: replaces the first schedule with this id and user; without one, an error and no change. */
    method UpdateSchedule(id: string, userId: string, updated: Schedule) returns (r: Result<(), string>)
      modifies this
      ensures FirstOwned(old(schedules), id, userId).None? ==> r == Err(NotFound(id)) && schedules == old(schedules)
      ensures FirstOwned(old(schedules), id, userId).Some? ==>
        r.Ok? && schedules == old(schedules)[FirstOwned(old(schedules), id, userId).value := updated]
    {
      var i := 0;
      while i < |schedules|
        invariant 0 <= i <= |schedules|
        invariant forall j | 0 <= j < i :: !Owned(schedules[j], id, userId)
      {
        if schedules[i].id == id && schedules[i].userId == userId {
          FirstOwnedIsFirst(schedules, id, userId, i);
          schedules := schedules[i := updated];
          return Ok(());
        }
        i := i + 1;
      }
      return Err(NotFound(id));
    }

    /** `DeleteSchedule`: removes the first schedule with this id and user, keeping the others in order. */
    method DeleteSchedule(id: string, userId: string) returns (r: Result<(), string>)
      modifies this
      ensures FirstOwned(old(schedules), id, userId).None? ==> r == Err(NotFound(id)) && schedules == old(schedules)
      ensures FirstOwned(old(schedules), id, userId).Some? ==>
        var i := FirstOwned(old(schedules), id, userId).value;
        r.Ok? && schedules == old(schedules)[..i] + old(schedules)[i + 1..]
    {
      var i := 0;
      while i < |schedules|
        invariant 0 <= i <= |schedules|
        invariant forall j | 0 <= j < i :: !Owned(schedules[j], id, userId)
      {
        if schedules[i].id == id && schedules[i].userId == userId {
          FirstOwnedIsFirst(schedules, id, userId, i);
          schedules := schedules[..i] + schedules[i + 1..];
          return Ok(());
        }
        i := i + 1;
      }
      return Err(NotFound(id));
    }

    /** `SearchByDateRange`. */
    method SearchByDateRange(userId: string, start: int, end: int) returns (results: seq<Schedule>)
      ensures results == InRangeOf(schedules, userId, start, end)
    {
      results := [];
      for k := 0 to |schedules|
        invariant results == InRangeOf(schedules[..k], userId, start, end)
      {
        assert schedules[..k + 1][..k] == schedules[..k];
        if InRange(schedules[k], userId, start, end) {
          results := results + [schedules[k]];
        }
      }
      assert schedules[..|schedules|] == schedules;
    }

    /** `SearchByTitle`. */
    method SearchByTitle(userId: string, title: string) returns (results: seq<Schedule>)
      ensures results == TitledOf(schedules, userId, title)
    {
      results := [];
      var searchTitle := ToLower(title);
      for k := 0 to |schedules|
        invariant results == TitledOf(schedules[..k], userId, title)
      {
        assert schedules[..k + 1][..k] == schedules[..k];
        if schedules[k].userId == userId && Contains(ToLower(schedules[k].title), searchTitle) {
          results := results + [schedules[k]];
        }
      }
      assert schedules[..|schedules|] == schedules;
    }

    /** `SearchByTags`: for each of the user's schedules, one copy per query tag found among its tags. */
    method SearchByTags(userId: string, tags: seq<string>) returns (results: seq<Schedule>)
      ensures results == TaggedOf(schedules, userId, tags)
    {
      results := [];
      for k := 0 to |schedules|
        invariant results == TaggedOf(schedules[..k], userId, tags)
      {
        assert schedules[..k + 1][..k] == schedules[..k];
        var s := schedules[k];
        if s.userId != userId {
          continue;
        }
        var before := results;
        for t := 0 to |tags|
          invariant results == before + Repeat(s, Hits(tags[..t], s.tags))
        {
          assert tags[..t + 1][..t] == tags[..t];
          var found := Carries(s.tags, tags[t]);
          if found {
            results := results + [s];
          }
        }
        assert tags[..|tags|] == tags;
      }
      assert schedules[..|schedules|] == schedules;
    }
  }

  /** The inner scan of `SearchByTags`: whether a schedule carries a tag. */
  method Carries(scheduleTags: seq<string>, tag: string) returns (found: bool)
    ensures found <==> tag in scheduleTags
  {
    for j := 0 to |scheduleTags|
      invariant tag !in scheduleTags[..j]
    {
      if tag == scheduleTags[j] {
        return true;
      }
    }
    assert scheduleTags[..|scheduleTags|] == scheduleTags;
    return false;
  }

  /** The first owned schedule is the one a left-to-right scan stops at. */
  lemma FirstOwnedIsFirst(schedules: seq<Schedule>, id: string, userId: string, i: nat)
    requires i < |schedules| && Owned(schedules[i], id, userId)
    requires forall j | 0 <= j < i :: !Owned(schedules[j], id, userId)
    ensures FirstOwned(schedules, id, userId) == Some(i)
  {
    var r := FirstOwned(schedules, id, userId);
    assert r.Some?;
    assert !(r.value < i) && !(i < r.value);
  }

  /* ---------------- what the searches promise ---------------- */

  /** The range search returns exactly the user's schedules inside the range, and no other user's. */
  lemma {:induction false} InRangeMeaning(schedules: seq<Schedule>, userId: string, start: int, end: int, s: Schedule)
    ensures s in InRangeOf(schedules, userId, start, end) <==> s in schedules && InRange(s, userId, start, end)
  {
    if schedules != [] {
      InRangeMeaning(schedules[..|schedules| - 1], userId, start, end, s);
      assert schedules == schedules[..|schedules| - 1] + [schedules[|schedules| - 1]];
    }
  }

  /** The title search returns exactly the user's schedules whose title contains the query, ignoring case. */
  lemma {:induction false} TitledMeaning(schedules: seq<Schedule>, userId: string, query: string, s: Schedule)
    ensures s in TitledOf(schedules, userId, query) <==> s in schedules && TitleHas(s, userId, query)
  {
    if schedules != [] {
      TitledMeaning(schedules[..|schedules| - 1], userId, query, s);
      assert schedules == schedules[..|schedules| - 1] + [schedules[|schedules| - 1]];
    }
  }

  /** A schedule carries some query tag exactly when it is hit at least once. */
  lemma {:induction false} HitsMeaning(query: seq<string>, tags: seq<string>)
    ensures Hits(query, tags) > 0 <==> exists k | 0 <= k < |query| :: query[k] in tags
  {
    if query != [] {
      var init := query[..|query| - 1];
      HitsMeaning(init, tags);
      if exists k | 0 <= k < |init| :: init[k] in tags {
        var k :| 0 <= k < |init| && init[k] in tags;
        assert query[k] in tags;
      }
      if exists k | 0 <= k < |query| :: query[k] in tags {
        var k :| 0 <= k < |query| && query[k] in tags;
        if k < |init| {
          assert init[k] in tags;
        }
      }
    }
  }

  /** The tag search returns only the user's schedules, each carrying one of the query tags. */
  lemma {:induction false} TaggedAreTheUsers(schedules: seq<Schedule>, userId: string, query: seq<string>, s: Schedule)
    requires s in TaggedOf(schedules, userId, query)
    ensures s in schedules && s.userId == userId && Hits(query, s.tags) > 0
  {
    var init := schedules[..|schedules| - 1];
    var last := schedules[|schedules| - 1];
    var tail := if last.userId == userId then Repeat(last, Hits(query, last.tags)) else [];
    assert TaggedOf(schedules, userId, query) == TaggedOf(init, userId, query) + tail;
    if s in TaggedOf(init, userId, query) {
      TaggedAreTheUsers(init, userId, query, s);
    } else {
      assert s in tail;
    }
  }

  /** Conversely, every schedule of the user that carries one of the query tags is returned. */
  lemma {:induction false} UsersTaggedAreReturned(schedules: seq<Schedule>, userId: string, query: seq<string>, s: Schedule)
    requires s in schedules && s.userId == userId && Hits(query, s.tags) > 0
    ensures s in TaggedOf(schedules, userId, query)
  {
    var init := schedules[..|schedules| - 1];
    var last := schedules[|schedules| - 1];
    var tail := if last.userId == userId then Repeat(last, Hits(query, last.tags)) else [];
    assert TaggedOf(schedules, userId, query) == TaggedOf(init, userId, query) + tail;
    if s == last {
      assert tail[0] == s;
    } else {
      assert schedules == init + [last];
      UsersTaggedAreReturned(init, userId, query, s);
    }
  }

  /** A schedule carrying a query tag twice is returned twice for that tag listed twice. */
  lemma DuplicateQueryTags(s: Schedule, tag: string)
    requires s.tags == [tag]
    ensures TaggedOf([s], s.userId, [tag, tag]) == [s, s]
  {
    assert [tag, tag][..1] == [tag];
    assert [tag][..0] == [];
    assert Hits([tag], [tag]) == 1;
    assert Hits([tag, tag], [tag]) == 2;
    assert [s][..0] == [];
    assert Repeat(s, 2) == [s, s];
  }

  /* ---------------- the tool's handlers ---------------- */

  /** The string items of a JSON array, when every item is a string. */
  function StringsOf(items: seq<Json>): (r: Option<seq<string>>)
    ensures r.Some? <==> forall k | 0 <= k < |items| :: items[k].JStr?
    ensures r.Some? ==> |r.value| == |items| && forall k | 0 <= k < |items| :: items[k] == JStr(r.value[k])
  {
    if items == [] then Some([])
    else if !items[0].JStr? then None
    else
      match StringsOf(items[1..])
      case None => None
      case Some(rest) => Some([items[0].s] + rest)
  }

  /** The tag conversion of the handlers: each item must be a string. */
  method TagsOf(items: seq<Json>) returns (r: Option<seq<string>>)
    ensures r == StringsOf(items)
  {
    var tags: seq<string> := [];
    for i := 0 to |items|
      invariant StringsOf(items[..i]) == Some(tags)
    {
      assert items[..i + 1] == items[..i] + [items[i]];
      if !items[i].JStr? {
        StringsOfAppend(items[..i], items[i]);
        StringsOfPrefix(items, i + 1);
        return None;
      }
      StringsOfAppend(items[..i], items[i]);
      tags := tags + [items[i].s];
    }
    assert items[..|items|] == items;
    return Some(tags);
  }

  lemma StringsOfAppend(items: seq<Json>, j: Json)
    ensures StringsOf(items + [j]).Some? <==> StringsOf(items).Some? && j.JStr?
    ensures StringsOf(items + [j]).Some? ==> StringsOf(items + [j]).value == StringsOf(items).value + [j.s]
  {
    var all := items + [j];
    assert forall k | 0 <= k < |items| :: all[k] == items[k];
    if StringsOf(all).Some? {
      assert all[|items|] == j;
      var v := StringsOf(all).value;
      assert StringsOf(items).Some?;
      assert v == StringsOf(items).value + [j.s];
    }
  }

  lemma StringsOfPrefix(items: seq<Json>, n: nat)
    requires n <= |items| && StringsOf(items[..n]).None?
    ensures StringsOf(items).None?
  {
    var k :| 0 <= k < n && !items[..n][k].JStr?;
    assert !items[k].JStr?;
  }

  /** The schedule fields the add and update handlers read, in the order they check them. */
  datatype Fields = Fields(title: string, description: string, startTime: int, endTime: int, tags: seq<string>)

  function FieldsOf(data: Json, parseTime: ParseTime): Result<Fields, string> {
    if StringField(data, "title").None? then Err("Error: title is required")
    else if StringField(data, "description").None? then Err("Error: description is required")
    else if StringField(data, "start_time").None? then Err("Error: start_time is required")
    else if parseTime(StringField(data, "start_time").value).Err? then
      Err("Error: invalid start_time format: " + parseTime(StringField(data, "start_time").value).error)
    else if StringField(data, "end_time").None? then Err("Error: end_time is required")
    else if parseTime(StringField(data, "end_time").value).Err? then
      Err("Error: invalid end_time format: " + parseTime(StringField(data, "end_time").value).error)
    else if ArrayField(data, "tags").None? then Err("Error: tags is required")
    else if StringsOf(ArrayField(data, "tags").value).None? then Err("Error: invalid tag format")
    else Ok(Fields(StringField(data, "title").value, StringField(data, "description").value,
                   parseTime(StringField(data, "start_time").value).value,
                   parseTime(StringField(data, "end_time").value).value,
                   StringsOf(ArrayField(data, "tags").value).value))
  }

  /** Reads the schedule fields as the handlers do. */
  method ReadFields(data: Json, parseTime: ParseTime) returns (r: Result<Fields, string>)
    ensures r == FieldsOf(data, parseTime)
  {
    var title := StringField(data, "title");
    if title.None? { return Err("Error: title is required"); }
    var description := StringField(data, "description");
    if description.None? { return Err("Error: description is required"); }
    var startStr := StringField(data, "start_time");
    if startStr.None? { return Err("Error: start_time is required"); }
    var start := parseTime(startStr.value);
    if start.Err? { return Err("Error: invalid start_time format: " + start.error); }
    var endStr := StringField(data, "end_time");
    if endStr.None? { return Err("Error: end_time is required"); }
    var end := parseTime(endStr.value);
    if end.Err? { return Err("Error: invalid end_time format: " + end.error); }
    var items := ArrayField(data, "tags");
    if items.None? { return Err("Error: tags is required"); }
    var tags := TagsOf(items.value);
    if tags.None? { return Err("Error: invalid tag format"); }
    return Ok(Fields(title.value, description.value, start.value, end.value, tags.value));
  }

  const UserRequired := "Error: user_id is required"

  /** The user id a handler requires: present, a string, and non-empty. */
  function UserOf(params: Json): (r: Option<string>)
    ensures r.Some? ==> r.value != ""
  {
    match StringField(params, "user_id")
    case Some(u) => if u == "" then None else Some(u)
    case None => None
  }

  /** The `add_schedule` handler's effect on the schedules; `now` (nanoseconds) becomes the new id. */
  function AddEffect(schedules: seq<Schedule>, params: Json, parseTime: ParseTime, now: int): (seq<Schedule>, Answer) {
    if UserOf(params).None? then (schedules, Said(UserRequired))
    else if ObjectField(params, "schedule").None? then (schedules, Said("Error: invalid schedule data"))
    else match FieldsOf(ObjectField(params, "schedule").value, parseTime)
      case Err(e) => (schedules, Said(e))
      case Ok(f) =>
        (schedules + [Schedule(IntToString(now), UserOf(params).value, f.title, f.description, f.startTime, f.endTime, f.tags)],
         Said("Schedule added successfully"))
  }

  /** The `update_schedule` handler's effect. */
  function UpdateEffect(schedules: seq<Schedule>, params: Json, parseTime: ParseTime): (seq<Schedule>, Answer) {
    if UserOf(params).None? then (schedules, Said(UserRequired))
    else if ObjectField(params, "schedule").None? then (schedules, Said("Error: invalid schedule data"))
    else
      var data := ObjectField(params, "schedule").value;
      if StringField(data, "id").None? then (schedules, Said("Error: id is required"))
      else match FieldsOf(data, parseTime)
        case Err(e) => (schedules, Said(e))
        case Ok(f) =>
          var id := StringField(data, "id").value;
          var user := UserOf(params).value;
          match FirstOwned(schedules, id, user)
          case None => (schedules, Said("Error updating schedule: " + NotFound(id)))
          case Some(i) =>
            (schedules[i := Schedule(id, user, f.title, f.description, f.startTime, f.endTime, f.tags)],
             Said("Schedule updated successfully"))
  }

  /** The `delete_schedule` handler's effect. */
  function DeleteEffect(schedules: seq<Schedule>, params: Json): (seq<Schedule>, Answer) {
    if UserOf(params).None? then (schedules, Said(UserRequired))
    else if StringField(params, "schedule_id").None? then (schedules, Said("Error: schedule_id is required"))
    else
      var id := StringField(params, "schedule_id").value;
      match FirstOwned(schedules, id, UserOf(params).value)
      case None => (schedules, Said("Error deleting schedule: " + NotFound(id)))
      case Some(i) => (schedules[..i] + schedules[i + 1..], Said("Schedule deleted successfully"))
  }

  /** The answer of the three search handlers, which change nothing. */
  function SearchAnswer(schedules: seq<Schedule>, action: string, params: Json, parseTime: ParseTime): Answer
    requires action in {"search_by_date", "search_by_title", "search_by_tags"}
  {
    if UserOf(params).None? then Said(UserRequired)
    else
      var user := UserOf(params).value;
      if action == "search_by_date" then
        if ObjectField(params, "date_range").None? then Said("Error: date_range is required")
        else
          var range := ObjectField(params, "date_range").value;
          if StringField(range, "start").None? then Said("Error: start date is required")
          else if parseTime(StringField(range, "start").value).Err? then
            Said("Error: invalid start date format: " + parseTime(StringField(range, "start").value).error)
          else if StringField(range, "end").None? then Said("Error: end date is required")
          else if parseTime(StringField(range, "end").value).Err? then
            Said("Error: invalid end date format: " + parseTime(StringField(range, "end").value).error)
          else Found(InRangeOf(schedules, user, parseTime(StringField(range, "start").value).value,
                               parseTime(StringField(range, "end").value).value))
      else if action == "search_by_title" then
        if StringField(params, "title").None? then Said("Error: title is required")
        else Found(TitledOf(schedules, user, StringField(params, "title").value))
      else
        if ArrayField(params, "tags").None? then Said("Error: tags is required")
        else if StringsOf(ArrayField(params, "tags").value).None? then Said("Error: invalid tag format")
        else Found(TaggedOf(schedules, user, StringsOf(ArrayField(params, "tags").value).value))
  }

  /** The calendar tool, over one calendar. */
  class CalendarTool {
    const manager: CalendarManager

    constructor(manager: CalendarManager)
      ensures this.manager == manager
    {
      this.manager := manager;
    }

    /** `handleAddSchedule`. */
    method HandleAdd(params: Json, parseTime: ParseTime, now: int) returns (a: Answer)
      modifies manager
      ensures (manager.schedules, a) == AddEffect(old(manager.schedules), params, parseTime, now)
    {
      var user := UserOf(params);
      if user.None? { return Said(UserRequired); }
      var data := ObjectField(params, "schedule");
      if data.None? { return Said("Error: invalid schedule data"); }
      var fields := ReadFields(data.value, parseTime);
      if fields.Err? { return Said(fields.error); }
      var f := fields.value;
      manager.AddSchedule(Schedule(IntToString(now), user.value, f.title, f.description, f.startTime, f.endTime, f.tags));
      return Said("Schedule added successfully");
    }

    /** `handleUpdateSchedule`. */
    method HandleUpdate(params: Json, parseTime: ParseTime) returns (a: Answer)
      modifies manager
      ensures (manager.schedules, a) == UpdateEffect(old(manager.schedules), params, parseTime)
    {
      var user := UserOf(params);
      if user.None? { return Said(UserRequired); }
      var data := ObjectField(params, "schedule");
      if data.None? { return Said("Error: invalid schedule data"); }
      var id := StringField(data.value, "id");
      if id.None? { return Said("Error: id is required"); }
      var fields := ReadFields(data.value, parseTime);
      if fields.Err? { return Said(fields.error); }
      var f := fields.value;
      var r := manager.UpdateSchedule(id.value, user.value,
        Schedule(id.value, user.value, f.title, f.description, f.startTime, f.endTime, f.tags));
      if r.Err? { return Said("Error updating schedule: " + r.error); }
      return Said("Schedule updated successfully");
    }

    /** `handleDeleteSchedule`. */
    method HandleDelete(params: Json) returns (a: Answer)
      modifies manager
      ensures (manager.schedules, a) == DeleteEffect(old(manager.schedules), params)
    {
      var user := UserOf(params);
      if user.None? { return Said(UserRequired); }
      var id := StringField(params, "schedule_id");
      if id.None? { return Said("Error: schedule_id is required"); }
      var r := manager.DeleteSchedule(id.value, user.value);
      if r.Err? { return Said("Error deleting schedule: " + r.error); }
      return Said("Schedule deleted successfully");
    }

    /** `handleSearchByDate`, `handleSearchByTitle` and `handleSearchByTags`. */
    method HandleSearch(action: string, params: Json, parseTime: ParseTime) returns (a: Answer)
      requires action in {"search_by_date", "search_by_title", "search_by_tags"}
      ensures a == SearchAnswer(manager.schedules, action, params, parseTime)
    {
      var user := UserOf(params);
      if user.None? { return Said(UserRequired); }
      if action == "search_by_date" {
        var range := ObjectField(params, "date_range");
        if range.None? { return Said("Error: date_range is required"); }
        var startStr := StringField(range.value, "start");
        if startStr.None? { return Said("Error: start date is required"); }
        var start := parseTime(startStr.value);
        if start.Err? { return Said("Error: invalid start date format: " + start.error); }
        var endStr := StringField(range.value, "end");
        if endStr.None? { return Said("Error: end date is required"); }
        var end := parseTime(endStr.value);
        if end.Err? { return Said("Error: invalid end date format: " + end.error); }
        var found := manager.SearchByDateRange(user.value, start.value, end.value);
        return Found(found);
      } else if action == "search_by_title" {
        var title := StringField(params, "title");
        if title.None? { return Said("Error: title is required"); }
        var found := manager.SearchByTitle(user.value, title.value);
        return Found(found);
      } else {
        var items := ArrayField(params, "tags");
        if items.None? { return Said("Error: tags is required"); }
        var tags := TagsOf(items.value);
        if tags.None? { return Said("Error: invalid tag format"); }
        var found := manager.SearchByTags(user.value, tags.value);
        return Found(found);
      }
    }

    /** `CallTool`: `decode` is the JSON decoder, `now` the clock in nanoseconds. */
    method CallTool(arguments: string, decode: string -> Result<Json, string>, parseTime: ParseTime, now: int)
      returns (a: Answer)
      modifies manager
      ensures decode(arguments).Err? ==>
        a == Said("Error parsing arguments: " + decode(arguments).error) && manager.schedules == old(manager.schedules)
      ensures decode(arguments).Ok? && StringField(decode(arguments).value, "action").None? ==>
        a == Said("Error: action not found") && manager.schedules == old(manager.schedules)
      ensures decode(arguments).Ok? && StringField(decode(arguments).value, "action").Some? ==>
        var params := decode(arguments).value;
        var action := StringField(params, "action").value;
        if action == "add_schedule" then (manager.schedules, a) == AddEffect(old(manager.schedules), params, parseTime, now)
        else if action == "update_schedule" then (manager.schedules, a) == UpdateEffect(old(manager.schedules), params, parseTime)
        else if action == "delete_schedule" then (manager.schedules, a) == DeleteEffect(old(manager.schedules), params)
        else if action in {"search_by_date", "search_by_title", "search_by_tags"} then
          a == SearchAnswer(old(manager.schedules), action, params, parseTime) && manager.schedules == old(manager.schedules)
        else a == Said("Error: invalid action: " + action) && manager.schedules == old(manager.schedules)
    {
      var parsed := decode(arguments);
      if parsed.Err? { return Said("Error parsing arguments: " + parsed.error); }
      var params := parsed.value;
      var action := StringField(params, "action");
      if action.None? { return Said("Error: action not found"); }
      match action.value
      case "add_schedule" => a := HandleAdd(params, parseTime, now);
      case "update_schedule" => a := HandleUpdate(params, parseTime);
      case "delete_schedule" => a := HandleDelete(params);
      case "search_by_date" => a := HandleSearch("search_by_date", params, parseTime);
      case "search_by_title" => a := HandleSearch("search_by_title", params, parseTime);
      case "search_by_tags" => a := HandleSearch("search_by_tags", params, parseTime);
      case _ => a := Said("Error: invalid action: " + action.value);
    }
  }

  /** `add_schedule` without a usable user id, or with a tag that is not a string, adds nothing. */
  lemma RejectedAddsNothing(schedules: seq<Schedule>, params: Json, parseTime: ParseTime, now: int)
    requires UserOf(params).None? || (ObjectField(params, "schedule").Some?
      && FieldsOf(ObjectField(params, "schedule").value, parseTime).Err?)
    ensures AddEffect(schedules, params, parseTime, now).0 == schedules
    ensures AddEffect(schedules, params, parseTime, now).1.Said?
  {
  }
}
