/**
 * The bot's text helpers: command parsing, the model watermark, the punctuation test used to
 * flush streamed text, and the numbered listings of models, Ollama tags and agents.
 */
module Utils {
  import opened Text
  import opened BotModel

  /* ---------------- commands ---------------- */

  /** Whether the text is a command, the command word, and its arguments. */
  datatype Parsed = Parsed(isCommand: bool, command: string, args: string)

  /**
   * `ParseCommand`: a text starting with `/` is a command; the command is what follows the slash
   * up to the first space, the arguments the trimmed rest after that space.
   */
  function ParseCommand(text: string): (r: Parsed)
    ensures !r.isCommand <==> text == [] || text[0] != '/'
    ensures !r.isCommand ==> r.command == "" && r.args == ""
    ensures ' ' !in r.command
    ensures r.isCommand && ' ' !in text ==> text == "/" + r.command && r.args == ""
    ensures r.isCommand && ' ' in text ==>
      |r.command| + 2 <= |text| && text[..|r.command| + 2] == "/" + r.command + " "
      && r.args == TrimSpace(text[|r.command| + 2..])
  {
    if text == [] || text[0] != '/' then Parsed(false, "", "")
    else
      var body := text[1..];
      if ' ' in body then
        var i := IndexOf(body, ' ');
        assert text == "/" + body;
        assert text[..i + 2] == "/" + body[..i] + " ";
        assert text[i + 2..] == body[i + 1..];
        Parsed(true, body[..i], TrimSpace(body[i + 1..]))
      else
        assert text == "/" + body;
        Parsed(true, body, "")
  }

  /** A slash and a word without spaces parse back to that word and no arguments. */
  lemma ParseBareCommand(c: string)
    requires ' ' !in c
    ensures ParseCommand("/" + c) == Parsed(true, c, "")
  {
    assert ("/" + c)[1..] == c;
  }

  /** A command word, a space and arguments parse back to the word and the trimmed arguments. */
  lemma ParseCommandWithArgs(c: string, args: string)
    requires ' ' !in c
    ensures ParseCommand("/" + c + " " + args) == Parsed(true, c, TrimSpace(args))
  {
    var text := "/" + c + " " + args;
    assert text[1..] == c + " " + args;
    assert (c + " " + args)[|c|] == ' ';
    assert IndexOf(text[1..], ' ') == |c|;
    assert text[1..][..|c|] == c;
    assert text[1..][|c| + 1..] == args;
  }

  /* ---------------- watermark ---------------- */

  /** What the watermark adds before the model name. */
  const WatermarkLead: string := "\n\n🤖 *"

  /** `Watermark`: when active, the model's name is appended in bold after a robot. */
  function Watermark(content: string, model: string, active: bool): (r: string)
    ensures !active ==> r == content
    ensures content <= r
    ensures active ==> r[|content|..] == WatermarkLead + model + "*"
    ensures active ==> |r| == |content| + |model| + 6
  {
    if active then content + WatermarkLead + model + "*" else content
  }

  /* ---------------- punctuation ---------------- */

  /** The marks after which streamed text is flushed. */
  const PunctuationMarks: seq<string> := [".", "\n", "!", "?"]

  /** Some punctuation mark occurs in the text. */
  predicate HasPunctuation(text: string) {
    exists k | 0 <= k < |PunctuationMarks| :: Contains(text, PunctuationMarks[k])
  }

  /** `ContainsPunctuation`: tries the marks in order and stops at the first one found. */
  method ContainsPunctuation(text: string) returns (found: bool)
    ensures found <==> HasPunctuation(text)
  {
    var k := 0;
    while k < |PunctuationMarks|
      invariant 0 <= k <= |PunctuationMarks|
      invariant forall j :: 0 <= j < k ==> !Contains(text, PunctuationMarks[j])
    {
      if Contains(text, PunctuationMarks[k]) {
        return true;
      }
      k := k + 1;
    }
    return false;
  }

  /** The test holds exactly when one of `.`, newline, `!`, `?` occurs in the text. */
  lemma PunctuationMeaning(text: string)
    ensures HasPunctuation(text) <==> '.' in text || '\n' in text || '!' in text || '?' in text
  {
    ContainsChar(text, '.');
    ContainsChar(text, '\n');
    ContainsChar(text, '!');
    ContainsChar(text, '?');
    assert PunctuationMarks[0] == ['.'] && PunctuationMarks[1] == ['\n'];
    assert PunctuationMarks[2] == ['!'] && PunctuationMarks[3] == ['?'];
    if '.' in text {
      assert Contains(text, PunctuationMarks[0]);
    } else if '\n' in text {
      assert Contains(text, PunctuationMarks[1]);
    } else if '!' in text {
      assert Contains(text, PunctuationMarks[2]);
    } else if '?' in text {
      assert Contains(text, PunctuationMarks[3]);
    }
  }

  /** The empty text has no punctuation. */
  lemma NoPunctuationInEmpty()
    ensures !HasPunctuation("")
  {
    PunctuationMeaning("");
  }

  /** Punctuation found in a piece of a text is found in the text. */
  lemma PunctuationInInfix(s: string, lo: int, hi: int)
    requires 0 <= lo <= hi <= |s| && HasPunctuation(s[lo..hi])
    ensures HasPunctuation(s)
  {
    var k :| 0 <= k < |PunctuationMarks| && Contains(s[lo..hi], PunctuationMarks[k]);
    ContainsInInfix(s, lo, hi, PunctuationMarks[k]);
  }

  /* ---------------- numbered listings ---------------- */

  /** One listing line without its newline: `i - item`. */
  function NumberedLine(i: nat, item: string): string {
    NatToString(i) + " - " + item
  }

  /** The lines `i - item` for the items, numbered from `start`, each ended by a newline. */
  function Numbered(items: seq<string>, start: nat): (r: string)
    ensures items == [] ==> r == ""
    decreases |items|
  {
    if items == [] then "" else NumberedLine(start, items[0]) + "\n" + Numbered(items[1..], start + 1)
  }

  /** Writing one more line continues the numbering. */
  lemma {:induction false} NumberedAppend(items: seq<string>, item: string, start: nat)
    ensures Numbered(items + [item], start) == Numbered(items, start) + NumberedLine(start + |items|, item) + "\n"
    decreases |items|
  {
    if items != [] {
      assert (items + [item])[1..] == items[1..] + [item];
      NumberedAppend(items[1..], item, start + 1);
    }
  }

  /** Splitting a text at its first newline, when the newline ends a newline-free head. */
  lemma SplitAtNewline(head: string, rest: string)
    requires '\n' !in head
    ensures Split(head + "\n" + rest, '\n') == [head] + Split(rest, '\n')
  {
    var s := head + "\n" + rest;
    assert s[|head|] == '\n';
    assert s[..|head|] == head;
    assert IndexOf(s, '\n') == |head|;
    assert s[|head| + 1..] == rest;
  }

  /** A numbered line of a newline-free item has no newline. */
  lemma LineHasNoNewline(i: nat, item: string)
    requires '\n' !in item
    ensures '\n' !in NumberedLine(i, item)
  {
    var digits := NatToString(i);
    assert '\n' !in digits;
    assert NumberedLine(i, item) == digits + " - " + item;
  }

  /** `lines` are the numbered lines of `items` from `start`, then the empty rest after the last newline. */
  predicate LinesOf(lines: seq<string>, items: seq<string>, start: nat) {
    |lines| == |items| + 1 && lines[|items|] == ""
    && forall k :: 0 <= k < |items| ==> lines[k] == NumberedLine(start + k, items[k])
  }

  /** One more line in front of the lines of the other items. */
  lemma LinesCons(tail: seq<string>, items: seq<string>, start: nat)
    requires items != [] && LinesOf(tail, items[1..], start + 1)
    ensures LinesOf([NumberedLine(start, items[0])] + tail, items, start)
  {
    var whole := [NumberedLine(start, items[0])] + tail;
    forall k | 0 <= k < |items|
      ensures whole[k] == NumberedLine(start + k, items[k])
    {
      if k > 0 {
        assert whole[k] == tail[k - 1];
        assert items[1..][k - 1] == items[k];
      }
    }
  }

  /**
   * The listing has exactly one line per item, line `k` being `start + k - item k`, followed by
   * the empty rest after the last newline (items containing no newline).
   */
  lemma {:induction false} NumberedLines(items: seq<string>, start: nat)
    requires forall k :: 0 <= k < |items| ==> '\n' !in items[k]
    ensures LinesOf(Split(Numbered(items, start), '\n'), items, start)
    decreases |items|
  {
    if items == [] {
      assert Split("", '\n') == [""];
    } else {
      var head := NumberedLine(start, items[0]);
      var rest := Numbered(items[1..], start + 1);
      LineHasNoNewline(start, items[0]);
      NumberedLines(items[1..], start + 1);
      SplitAtNewline(head, rest);
      assert Numbered(items, start) == head + "\n" + rest;
      LinesCons(Split(rest, '\n'), items, start);
    }
  }

  /** Builds a numbered listing line by line, the way the source's builders do. */
  method WriteNumbered(items: seq<string>) returns (text: string)
    ensures text == Numbered(items, 0)
  {
    text := "";
    var i := 0;
    while i < |items|
      invariant 0 <= i <= |items|
      invariant text == Numbered(items[..i], 0)
    {
      NumberedAppend(items[..i], items[i], 0);
      assert items[..i + 1] == items[..i] + [items[i]];
      text := text + NatToString(i) + " - " + items[i] + "\n";
      i := i + 1;
    }
    assert items[..i] == items;
  }

  /* ---------------- model listing ---------------- */

  const ActiveMarker: string := " ✅*Actived*"
  const ModelsFooter: string := "\n\nUsage: /models <number>\nExample: /models 0"

  /** A model name, marked when it is the user's model. */
  function Marked(name: string, active: string): (r: string)
    ensures name == active ==> r == name + ActiveMarker
    ensures name != active ==> r == name
  {
    if name == active then name + ActiveMarker else name
  }

  /** The listed items: every model name in order, the user's model marked. */
  function MarkedModels(models: seq<string>, active: string): (r: seq<string>)
    ensures |r| == |models|
    ensures forall k :: 0 <= k < |models| ==> r[k] == Marked(models[k], active)
  {
    seq(|models|, k requires 0 <= k < |models| => Marked(models[k], active))
  }

  /** Whether a character is an ASCII letter or digit (the inside of a word). */
  predicate IsWordChar(c: char) {
    'a' <= c <= 'z' || 'A' <= c <= 'Z' || '0' <= c <= '9'
  }

  /** Whether position `i` starts a word: the first character, or one after a non-word character. */
  predicate StartsWord(s: string, i: nat)
    requires i < |s|
  {
    i == 0 || !IsWordChar(s[i - 1])
  }

  /** `cases.Title`: the first letter of every word upper-case, the others lower-case (ASCII). */
  function TitleCase(s: string): (r: string)
    ensures |r| == |s|
    ensures forall i :: 0 <= i < |s| ==> r[i] == if StartsWord(s, i) then UpperChar(s[i]) else LowerChar(s[i])
  {
    seq(|s|, i requires 0 <= i < |s| => if StartsWord(s, i) then UpperChar(s[i]) else LowerChar(s[i]))
  }

  /** The provider names come out capitalised. */
  lemma TitleCaseOfProviders()
    ensures TitleCase("openai") == "Openai" && TitleCase("ollama") == "Ollama"
    ensures TitleCase("gemini") == "Gemini" && TitleCase("groq") == "Groq" && TitleCase("mistral") == "Mistral"
  {
  }

  /** The header naming the provider. */
  function ModelsHeader(provider: string): string {
    "🧠 " + TitleCase(provider) + " Available Models\n\n"
  }

  /**
   * `ListModels` of the model command: a header naming the provider, one numbered line per model
   * with the user's model marked, and the usage footer.
   */
  method ListModels(user: User, provider: string, models: seq<string>) returns (text: string)
    ensures text == ModelsHeader(provider) + Numbered(MarkedModels(models, user.model), 0) + ModelsFooter
  {
    var body := WriteNumbered(MarkedModels(models, user.model));
    text := ModelsHeader(provider) + body + ModelsFooter;
  }

  /**
   * The model listing has one line per model after the header's blank line: line `k` is
   * `k - name`, followed by the marker exactly when the name is the user's model.
   */
  lemma ModelListingLines(models: seq<string>, active: string)
    requires forall k :: 0 <= k < |models| ==> '\n' !in models[k]
    ensures |Split(Numbered(MarkedModels(models, active), 0), '\n')| == |models| + 1
    ensures forall k :: 0 <= k < |models| ==>
      Split(Numbered(MarkedModels(models, active), 0), '\n')[k]
        == NatToString(k) + " - " + models[k] + (if models[k] == active then ActiveMarker else "")
  {
    var items := MarkedModels(models, active);
    assert '\n' !in ActiveMarker;
    NumberedLines(items, 0);
  }

  /** Without models the listing is the header and the footer. */
  lemma EmptyModelListing(provider: string, active: string)
    ensures ModelsHeader(provider) + Numbered(MarkedModels([], active), 0) + ModelsFooter
         == ModelsHeader(provider) + ModelsFooter
  {
  }

  /** One labelled line of the `/me` reply. */
  function Labelled(field: string, value: string): string {
    "*" + field + ":* " + value + "\n"
  }

  const AboutTitle: string := "ℹ️ *About Me*\n"
  const ConfigTitle: string := "\n\n🛠️ *Config*\n"

  /** `CommandMe`: the user's id and name, then the system prompt and model, in that order. */
  function CommandMe(u: User): (r: string)
    ensures AboutTitle + Labelled("ID", IntToString(u.userId)) + Labelled("Name", u.name) <= r
    ensures var tail := ConfigTitle + Labelled("System", u.system) + Labelled("Model", u.model);
      |tail| <= |r| && r[|r| - |tail|..] == tail
  {
    var about := AboutTitle + Labelled("ID", IntToString(u.userId));
    var config := ConfigTitle + Labelled("System", u.system) + Labelled("Model", u.model);
    var r := about + Labelled("Name", u.name) + config;
    assert r == about + (Labelled("Name", u.name) + config);
    assert r[|r| - |config|..] == config;
    r
  }

  /** Newline-ended lines, one after the other. */
  function Lines(ls: seq<string>): string {
    if ls == [] then "" else ls[0] + "\n" + Lines(ls[1..])
  }

  /** Splitting newline-ended, newline-free lines gives them back, and an empty last piece. */
  lemma {:induction false} SplitLines(ls: seq<string>)
    requires forall k :: 0 <= k < |ls| ==> '\n' !in ls[k]
    ensures Split(Lines(ls), '\n') == ls + [""]
    decreases |ls|
  {
    if ls == [] {
      assert Split("", '\n') == [""];
    } else {
      var rest := ls[1..];
      assert forall k :: 0 <= k < |rest| ==> rest[k] == ls[k + 1];
      SplitLines(rest);
      assert '\n' !in ls[0];
      SplitAtNewline(ls[0], Lines(rest));
      calc {
        Split(Lines(ls), '\n');
        Split(ls[0] + "\n" + Lines(rest), '\n');
        [ls[0]] + Split(Lines(rest), '\n');
        [ls[0]] + (rest + [""]);
        { assert [ls[0]] + rest == ls; }
        ls + [""];
      }
    }
  }

  lemma LinesOfCons(line: string, rest: seq<string>)
    ensures Lines([line] + rest) == line + "\n" + Lines(rest)
  {
    assert ([line] + rest)[1..] == rest;
  }

  /** Eight lines, spelled out. */
  lemma LinesOfEight(a: string, b: string, c: string, d: string, e: string, f: string, g: string, h: string)
    ensures Lines([a, b, c, d, e, f, g, h])
         == a + "\n" + (b + "\n" + (c + "\n" + (d + "\n" + (e + "\n" + (f + "\n" + (g + "\n" + (h + "\n")))))))
  {
    assert [a, b, c, d, e, f, g, h] == [a] + ([b] + ([c] + ([d] + ([e] + ([f] + ([g] + [h]))))));
    LinesOfCons(h, []);
    LinesOfCons(g, [h]);
    LinesOfCons(f, [g] + [h]);
    LinesOfCons(e, [f] + ([g] + [h]));
    LinesOfCons(d, [e] + ([f] + ([g] + [h])));
    LinesOfCons(c, [d] + ([e] + ([f] + ([g] + [h]))));
    LinesOfCons(b, [c] + ([d] + ([e] + ([f] + ([g] + [h])))));
    LinesOfCons(a, [b] + ([c] + ([d] + ([e] + ([f] + ([g] + [h]))))));
  }

  /** The config part of the `/me` reply, written as its lines. */
  lemma MeConfigAsLines(system: string, model: string)
    ensures ConfigTitle + Labelled("System", system) + Labelled("Model", model)
         == "" + "\n" + ("" + "\n" + ("🛠️ *Config*" + "\n" + ("*System:* " + system + "\n"
            + ("*Model:* " + model + "\n"))))
  {
  }

  /** The `/me` reply, written as its lines. */
  lemma MeAsLines(u: User)
    ensures CommandMe(u)
         == Lines(["ℹ️ *About Me*", "*ID:* " + IntToString(u.userId), "*Name:* " + u.name, "", "",
                   "🛠️ *Config*", "*System:* " + u.system, "*Model:* " + u.model])
  {
    var id := "*ID:* " + IntToString(u.userId);
    var name := "*Name:* " + u.name;
    LinesOfEight("ℹ️ *About Me*", id, name, "", "", "🛠️ *Config*", "*System:* " + u.system, "*Model:* " + u.model);
    MeConfigAsLines(u.system, u.model);
    var tail := ConfigTitle + Labelled("System", u.system) + Labelled("Model", u.model);
    assert "ℹ️ *About Me*" + "\n" + (id + "\n" + (name + "\n" + tail))
        == AboutTitle + Labelled("ID", IntToString(u.userId)) + Labelled("Name", u.name) + tail;
  }

  /**
   * For one-line fields, the `/me` reply reads line by line: the title, the ID, the name, two blank
   * lines, the config title, the system prompt and the model, each line ended by a newline.
   */
  lemma MeLines(u: User)
    requires '\n' !in u.name && '\n' !in u.system && '\n' !in u.model
    ensures Split(CommandMe(u), '\n')
         == ["ℹ️ *About Me*", "*ID:* " + IntToString(u.userId), "*Name:* " + u.name, "", "",
             "🛠️ *Config*", "*System:* " + u.system, "*Model:* " + u.model, ""]
  {
    var id := IntToString(u.userId);
    assert '\n' !in id by {
      if u.userId < 0 {
        assert id == "-" + NatToString(-u.userId);
      }
    }
    var ls := ["ℹ️ *About Me*", "*ID:* " + id, "*Name:* " + u.name, "", "",
               "🛠️ *Config*", "*System:* " + u.system, "*Model:* " + u.model];
    MeAsLines(u);
    SplitLines(ls);
  }

  /* ---------------- Ollama tags listing ---------------- */

  const TagsHeader: string := "Available Models\n\n"
  const TagsFooter: string := "\n\nUsage: /models <number>\nexample: /models 0"

  /** `ListModels` over an Ollama tags reply: a header, one numbered line per tag name, a footer. */
  method ListTags(names: seq<string>) returns (text: string)
    ensures text == TagsHeader + Numbered(names, 0) + TagsFooter
  {
    var body := WriteNumbered(names);
    text := TagsHeader + body + TagsFooter;
  }

  /** The tags listing has as many body lines as there are tags, line `k` naming tag `k`. */
  lemma TagListingLines(names: seq<string>)
    requires forall k :: 0 <= k < |names| ==> '\n' !in names[k]
    ensures |Split(Numbered(names, 0), '\n')| == |names| + 1
    ensures forall k :: 0 <= k < |names| ==> Split(Numbered(names, 0), '\n')[k] == NatToString(k) + " - " + names[k]
  {
    NumberedLines(names, 0);
  }
}
