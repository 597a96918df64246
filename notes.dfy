/**
 * The notes tool: notes are kept by title (one file per title), POST creates, PUT rewrites the
 * content of an existing note, DELETE removes one, SEARCH and GET_BY_DATE filter. The note
 * directory is an in-memory list in directory order; times are seconds.
 */
module Notes {
  import opened Wrappers
  import opened Text

  datatype Note = Note(title: string, content: string, createdAt: int, updatedAt: int)

  /** The decoded arguments; absent fields decode as "". */
  datatype NoteArgs = NoteArgs(action: string, title: string, content: string, search: string, startDate: string, endDate: string)

  /** What the tool answers: a text, or a JSON rendering of notes (the encoding is not modelled). */
  datatype Answer =
    | Said(text: string)
    | NoteList(notes: seq<Note>)
    | NoteDetail(note: Note)
    | ReadFailed(title: string)

  /** `validateInput`: an action is required, and POST and PUT (spelled exactly so) need a title and a content. */
  function ValidateInput(args: NoteArgs): (r: Option<string>)
    ensures args.action == "" <==> r == Some("action is required")
    ensures r.None? <==>
      args.action != "" && (args.action in {"POST", "PUT"} ==> args.title != "" && args.content != "")
  {
    if args.action == "" then Some("action is required")
    else if args.action == "POST" || args.action == "PUT" then
      if args.title == "" then Some("title is required")
      else if args.content == "" then Some("content is required")
      else None
    else None
  }

  const InvalidAction := "Invalid action specified. Please use GET, GET_DETAIL, POST, PUT, DELETE, SEARCH, or GET_BY_DATE."

  /** No two notes share a title (a title names one file). */
  predicate DistinctTitles(notes: seq<Note>) {
    forall i, j | 0 <= i < j < |notes| :: notes[i].title != notes[j].title
  }

  predicate HasTitle(notes: seq<Note>, title: string) {
    exists i | 0 <= i < |notes| :: notes[i].title == title
  }

  /** The position of the note with this title. */
  function Find(notes: seq<Note>, title: string): (i: nat)
    requires HasTitle(notes, title)
    ensures i < |notes| && notes[i].title == title
    ensures forall j | 0 <= j < i :: notes[j].title != title
  {
    if notes[0].title == title then 0
    else
      assert HasTitle(notes[1..], title) by {
        var k :| 0 <= k < |notes| && notes[k].title == title;
        assert notes[1..][k - 1].title == title;
      }
      Find(notes[1..], title) + 1
  }

  /** A note SEARCH returns: the query occurs, ignoring case, in its title or its content. */
  predicate Matches(n: Note, query: string) {
    Contains(ToLower(n.title), ToLower(query)) || Contains(ToLower(n.content), ToLower(query))
  }

  /** The notes SEARCH returns, in directory order. */
  function Matching(notes: seq<Note>, query: string): (r: seq<Note>)
    ensures |r| <= |notes|
  {
    if notes == [] then []
    else Matching(notes[..|notes| - 1], query) + (if Matches(notes[|notes| - 1], query) then [notes[|notes| - 1]] else [])
  }

  /** SEARCH returns exactly the matching notes. */
  lemma {:induction false} MatchingMeaning(notes: seq<Note>, query: string, n: Note)
    ensures n in Matching(notes, query) <==> n in notes && Matches(n, query)
  {
    if notes != [] {
      var init := notes[..|notes| - 1];
      MatchingMeaning(init, query, n);
      assert notes == init + [notes[|notes| - 1]];
    }
  }

  const Day := 86400

  /** A note GET_BY_DATE returns: created strictly after the start day began and strictly before the end day ended. */
  predicate InWindow(n: Note, start: int, end: int) {
    start < n.createdAt < end + Day
  }

  /** The notes GET_BY_DATE returns, in directory order. */
  function Created(notes: seq<Note>, start: int, end: int): (r: seq<Note>)
    ensures |r| <= |notes|
  {
    if notes == [] then []
    else Created(notes[..|notes| - 1], start, end) + (if InWindow(notes[|notes| - 1], start, end) then [notes[|notes| - 1]] else [])
  }

  /** GET_BY_DATE returns exactly the notes created in the window. */
  lemma {:induction false} CreatedMeaning(notes: seq<Note>, start: int, end: int, n: Note)
    ensures n in Created(notes, start, end) <==> n in notes && InWindow(n, start, end)
  {
    if notes != [] {
      var init := notes[..|notes| - 1];
      CreatedMeaning(init, start, end, n);
      assert notes == init + [notes[|notes| - 1]];
    }
  }

  /** The decoded arguments, once decoding and validation have both passed. */
  function Accepted(arguments: string, decode: string -> Result<NoteArgs, string>): Option<NoteArgs> {
    if decode(arguments).Ok? && ValidateInput(decode(arguments).value).None? then Some(decode(arguments).value) else None
  }

  /** The notes directory. */
  class NoteStore {
    var notes: seq<Note>

    ghost predicate Valid()
      reads this
    {
      DistinctTitles(notes)
    }

    constructor()
      ensures notes == [] && Valid()
    {
      notes := [];
    }

    /** POST: a new note, both times `now`; an existing title is refused and nothing is written. */
    method Save(title: string, content: string, now: int) returns (a: Answer)
      requires Valid()
      modifies this
      ensures Valid()
      ensures HasTitle(old(notes), title) ==>
        a == Said("Note with title '" + title + "' already exists. Use PUT to update it.") && notes == old(notes)
      ensures !HasTitle(old(notes), title) ==>
        a == Said("Note '" + title + "' has been saved successfully.") && notes == old(notes) + [Note(title, content, now, now)]
    {
      if exists i | 0 <= i < |notes| :: notes[i].title == title {
        return Said("Note with title '" + title + "' already exists. Use PUT to update it.");
      }
      notes := notes + [Note(title, content, now, now)];
      return Said("Note '" + title + "' has been saved successfully.");
    }

    /** PUT: only the content and the update time of the note change; a missing title is refused. */
    method Update(title: string, content: string, now: int) returns (a: Answer)
      requires Valid()
      modifies this
      ensures Valid()
      ensures !HasTitle(old(notes), title) ==>
        a == Said("Note '" + title + "' does not exist. Use POST to create it.") && notes == old(notes)
      ensures HasTitle(old(notes), title) ==>
        var i := Find(old(notes), title);
        a == Said("Note '" + title + "' has been updated successfully.")
        && notes == old(notes)[i := old(notes)[i].(content := content, updatedAt := now)]
    {
      if !(exists i | 0 <= i < |notes| :: notes[i].title == title) {
        return Said("Note '" + title + "' does not exist. Use POST to create it.");
      }
      var i := Find(notes, title);
      notes := notes[i := notes[i].(content := content, updatedAt := now)];
      return Said("Note '" + title + "' has been updated successfully.");
    }

    /** DELETE: removes the note with this title; a missing title is refused. */
    method Delete(title: string) returns (a: Answer)
      requires Valid()
      modifies this
      ensures Valid()
      ensures !HasTitle(old(notes), title) ==> a == Said("Note '" + title + "' does not exist.") && notes == old(notes)
      ensures HasTitle(old(notes), title) ==>
        var i := Find(old(notes), title);
        a == Said("Note '" + title + "' has been deleted successfully.") && notes == old(notes)[..i] + old(notes)[i + 1..]
    {
      if !(exists i | 0 <= i < |notes| :: notes[i].title == title) {
        return Said("Note '" + title + "' does not exist.");
      }
      var i := Find(notes, title);
      ghost var before := notes;
      notes := notes[..i] + notes[i + 1..];
      forall p, q | 0 <= p < q < |notes|
        ensures notes[p].title != notes[q].title
      {
        var p' := if p < i then p else p + 1;
        var q' := if q < i then q else q + 1;
        assert notes[p] == before[p'] && notes[q] == before[q'];
      }
      return Said("Note '" + title + "' has been deleted successfully.");
    }

    /** SEARCH: walks the directory and keeps the notes whose title or content contains the query. */
    method Search(query: string) returns (a: Answer)
      ensures a == NoteList(Matching(notes, query))
    {
      var results: seq<Note> := [];
      for k := 0 to |notes|
        invariant results == Matching(notes[..k], query)
      {
        assert notes[..k + 1][..k] == notes[..k];
        if Matches(notes[k], query) {
          results := results + [notes[k]];
        }
      }
      assert notes[..|notes|] == notes;
      return NoteList(results);
    }

    /** GET_BY_DATE: parses both days, then keeps the notes created within them. */
    method ByDate(startDate: string, endDate: string, parseDay: string -> Result<int, string>) returns (a: Answer)
      ensures parseDay(startDate).Err? ==> a == Said("Invalid start date format. Use YYYY-MM-DD: " + parseDay(startDate).error)
      ensures parseDay(startDate).Ok? && parseDay(endDate).Err? ==>
        a == Said("Invalid end date format. Use YYYY-MM-DD: " + parseDay(endDate).error)
      ensures parseDay(startDate).Ok? && parseDay(endDate).Ok? ==>
        a == NoteList(Created(notes, parseDay(startDate).value, parseDay(endDate).value))
    {
      var start := parseDay(startDate);
      if start.Err? {
        return Said("Invalid start date format. Use YYYY-MM-DD: " + start.error);
      }
      var end := parseDay(endDate);
      if end.Err? {
        return Said("Invalid end date format. Use YYYY-MM-DD: " + end.error);
      }
      var results: seq<Note> := [];
      for k := 0 to |notes|
        invariant results == Created(notes[..k], start.value, end.value)
      {
        assert notes[..k + 1][..k] == notes[..k];
        if InWindow(notes[k], start.value, end.value) {
          results := results + [notes[k]];
        }
      }
      assert notes[..|notes|] == notes;
      return NoteList(results);
    }

    /** GET_DETAIL: the note with this title. */
    method Detail(title: string) returns (a: Answer)
      ensures HasTitle(notes, title) ==> a == NoteDetail(notes[Find(notes, title)])
      ensures !HasTitle(notes, title) ==> a == ReadFailed(title)
    {
      if !(exists i | 0 <= i < |notes| :: notes[i].title == title) {
        return ReadFailed(title);
      }
      return NoteDetail(notes[Find(notes, title)]);
    }

    /**
     * `CallTool`: decode, validate, then dispatch on the upper-cased action; `now` is the clock
     * and `parseDay` reads a YYYY-MM-DD day as the second it starts.
     */
    method CallTool(arguments: string, decode: string -> Result<NoteArgs, string>, now: int,
                    parseDay: string -> Result<int, string>) returns (a: Answer)
      requires Valid()
      modifies this
      ensures Valid()
      ensures decode(arguments).Err? ==> a == Said("Error parsing arguments: " + decode(arguments).error) && notes == old(notes)
      ensures decode(arguments).Ok? && ValidateInput(decode(arguments).value).Some? ==>
        a == Said("Validation error: " + ValidateInput(decode(arguments).value).value) && notes == old(notes)
      ensures decode(arguments).Ok? && ValidateInput(decode(arguments).value).None?
              && ToUpper(decode(arguments).value.action) !in {"GET", "GET_DETAIL", "POST", "PUT", "DELETE", "SEARCH", "GET_BY_DATE"} ==>
        a == Said(InvalidAction) && notes == old(notes)
      ensures notes != old(notes) ==>
        decode(arguments).Ok? && ToUpper(decode(arguments).value.action) in {"POST", "PUT", "DELETE"}
      // the queries answer from the notes and change nothing
      ensures var args := Accepted(arguments, decode);
        args.Some? && ToUpper(args.value.action) in {"GET", "GET_DETAIL", "SEARCH", "GET_BY_DATE"} ==> notes == old(notes)
      ensures var args := Accepted(arguments, decode);
        args.Some? && ToUpper(args.value.action) == "GET" ==> a == NoteList(old(notes))
      ensures var args := Accepted(arguments, decode);
        args.Some? && ToUpper(args.value.action) == "GET_DETAIL" ==>
          a == if HasTitle(old(notes), args.value.title) then NoteDetail(old(notes)[Find(old(notes), args.value.title)])
               else ReadFailed(args.value.title)
      ensures var args := Accepted(arguments, decode);
        args.Some? && ToUpper(args.value.action) == "SEARCH" ==> a == NoteList(Matching(old(notes), args.value.search))
      ensures var args := Accepted(arguments, decode);
        args.Some? && ToUpper(args.value.action) == "GET_BY_DATE" ==>
          var start := parseDay(args.value.startDate);
          var end := parseDay(args.value.endDate);
          a == if start.Err? then Said("Invalid start date format. Use YYYY-MM-DD: " + start.error)
               else if end.Err? then Said("Invalid end date format. Use YYYY-MM-DD: " + end.error)
               else NoteList(Created(old(notes), start.value, end.value))
      // the writes
      ensures var args := Accepted(arguments, decode);
        args.Some? && ToUpper(args.value.action) == "POST" ==>
          var title := args.value.title;
          if HasTitle(old(notes), title) then
            a == Said("Note with title '" + title + "' already exists. Use PUT to update it.") && notes == old(notes)
          else
            a == Said("Note '" + title + "' has been saved successfully.")
            && notes == old(notes) + [Note(title, args.value.content, now, now)]
      ensures var args := Accepted(arguments, decode);
        args.Some? && ToUpper(args.value.action) == "PUT" ==>
          var title := args.value.title;
          if !HasTitle(old(notes), title) then
            a == Said("Note '" + title + "' does not exist. Use POST to create it.") && notes == old(notes)
          else
            var i := Find(old(notes), title);
            a == Said("Note '" + title + "' has been updated successfully.")
            && notes == old(notes)[i := old(notes)[i].(content := args.value.content, updatedAt := now)]
      ensures var args := Accepted(arguments, decode);
        args.Some? && ToUpper(args.value.action) == "DELETE" ==>
          var title := args.value.title;
          if !HasTitle(old(notes), title) then
            a == Said("Note '" + title + "' does not exist.") && notes == old(notes)
          else
            var i := Find(old(notes), title);
            a == Said("Note '" + title + "' has been deleted successfully.") && notes == old(notes)[..i] + old(notes)[i + 1..]
    {
      var parsed := decode(arguments);
      if parsed.Err? {
        return Said("Error parsing arguments: " + parsed.error);
      }
      var args := parsed.value;
      var invalid := ValidateInput(args);
      if invalid.Some? {
        return Said("Validation error: " + invalid.value);
      }
      var action := ToUpper(args.action);
      if action == "GET" {
        a := NoteList(notes);
      } else if action == "GET_DETAIL" {
        a := Detail(args.title);
      } else if action == "POST" {
        a := Save(args.title, args.content, now);
      } else if action == "PUT" {
        a := Update(args.title, args.content, now);
      } else if action == "DELETE" {
        a := Delete(args.title);
      } else if action == "SEARCH" {
        a := Search(args.search);
      } else if action == "GET_BY_DATE" {
        a := ByDate(args.startDate, args.endDate, parseDay);
      } else {
        a := Said(InvalidAction);
      }
    }
  }

  /** Validation looks at the action as spelled: a lower-case "post" or "put" is not checked for a title or content. */
  lemma LowerCaseSkipsValidation(title: string, content: string, search: string, startDate: string, endDate: string)
    ensures ValidateInput(NoteArgs("post", title, content, search, startDate, endDate)).None?
    ensures ValidateInput(NoteArgs("put", title, content, search, startDate, endDate)).None?
    ensures ToUpper("post") == "POST" && ToUpper("put") == "PUT"
  {
  }
}
