# teo, modelled in Dafny

teo is a Telegram chat bot written in Go. A Telegram webhook delivers a message; the bot finds or
creates the sender's record, answers a slash command (`/system`, `/reset`, `/models`, `/agents`,
`/me`, …) or passes the conversation to a large-language-model provider (Ollama, OpenAI, Groq,
Mistral or Gemini), and sends the answer back. When a model asks for a function call, the
provider adapter runs the named tool (weather, scraping, notes, file system, web search, cash
flow, calendar, unit converter, Python, shell), appends one `tool` message per call to the
conversation and asks the model again. The tools keep their own data: notes, schedules, a
cash-flow ledger, files.

This project models that core and proves what it promises:

- **Provider adapters** (`provider`, `streams`, `openai`, `completions`, `groq`, `mistral`,
  `ollama`, `gemini`). Choosing an adapter and its default model. The tool-call continuation.
  Each vendor's chat call, which re-sends the conversation while the model keeps asking for
  tools, with a fuel bound. Each vendor's streaming loop: event-stream `data: ` lines,
  newline-delimited JSON, or Gemini's buffer that grows until it decodes. The model catalogues.
  The streaming loops are methods proved against stream specification functions. Lemmas state
  what each stream delivers, in which order, and when it stops.
- **Bot service** (`service`, `commands`, `conversation`, `incoming`, `user_message`, `utils`,
  `agents`, `middleware`, `repository`). Command parsing and dispatch. The effect of every
  command on the user store and the model cache, with the index validation of `/models` and
  `/agents`. The history update of a conversation turn. The routing of an incoming message to
  its message factory. The text builders. The owner guard of a private bot. The user store and
  the model cache are classes; each handler is a method whose new state equals a specification
  function of the old one.
- **Tools** (`tools`, `bash`, `converter`, `filesystem`, `notes`, `calendar`, `cashflow`). The
  registry lookup. The shell blacklist. The unit table with its round trips. The path guard and
  the line splice of `edit_file`. The notes rules. The calendar and cash-flow stores, with
  find-first, replace, delete and search semantics and the analytics totals.

Shared helpers: `wrappers` (Option and Result), `text` (the parts of Go's `strings` and `strconv`
used here), `json` (a decoded JSON value), `messages` (the chat message shapes), `botmodel`
(the user record) and `replies` (the bot's answers).

Everything outside the process is a parameter of the functions and methods that need it:

- HTTP replies, as a status and the lines of the body;
- JSON decoding and encoding;
- `filepath.Abs`;
- time parsing and clock readings;
- Telegram's file API;
- speech-to-text;
- the tools' own execution.

Two behaviours of the code worth knowing:

- **Stream end marker.** The event-stream loops end on a line that trims to `[DONE]`, checked
  before the `data: ` prefix is removed. So `data: [DONE]` is handed to the decoder like any
  other payload. `Streams.PrefixedDoneIsAPayload` and
  `OpenAI.PrefixedDoneAfterNonStopIsADecodeError` state this.
- **OpenAI default model.** The OpenAI adapter takes two constructor arguments and has no
  default model, so it sends the model name as given.

## Model

| member | source | states |
|---|---|---|
| Agents.Titles | internal/utils/agent_prompts.go:116-120 | the listed titles are the table's titles, one per agent, in table order |
| Agents.Listing | internal/utils/agent_prompts.go:114-122 | the listing is the header, then `i - title` per agent numbered from 0, then the usage footer |
| Agents.ListAgents | internal/utils/agent_prompts.go:8-123 | returns the seventeen-agent table together with the listing that numbers exactly that table |
| Utils.ParseCommand | internal/utils/parse_command.go:5-20 | a text is a command iff it starts with `/`; the command is the text after the slash up to the first space and never contains a space; the arguments are the trimmed rest after that space, empty when there is no space; a non-command yields empty command and arguments |
| Utils.ParseBareCommand | internal/utils/parse_command.go:10-19 | a slash followed by a space-free word parses back to that word with no arguments |
| Utils.ParseCommandWithArgs | internal/utils/parse_command.go:10-19 | `/word args` parses back to the word and the trimmed arguments |
| Utils.Watermark | internal/utils/watermark.go:3-8 | inactive leaves the content unchanged; active keeps the content as a prefix and appends a blank line, a robot and the model name in bold |
| Utils.ContainsPunctuation | internal/utils/punctuation.go:5-13 | the loop answers true exactly when one of the marks occurs in the text |
| Utils.PunctuationMeaning | internal/utils/punctuation.go:6-12 | punctuation is found iff `.`, a newline, `!` or `?` occurs in the text |
| Utils.NoPunctuationInEmpty | internal/utils/punctuation.go:5-13 | the empty text has no punctuation |
| Utils.PunctuationInInfix | internal/utils/punctuation.go:5-13 | punctuation in any piece of a text is punctuation in the whole text |
| Utils.Numbered | internal/utils/parse_data.go:16-22 | no items give the empty body |
| Utils.NumberedAppend | internal/utils/parse_data.go:16-22 | writing one more item continues the numbering at the item count |
| Utils.SplitAtNewline | internal/utils/list_models.go:12-14 | splitting at a newline that ends a newline-free line yields that line first, then the split rest |
| Utils.LineHasNoNewline | internal/utils/list_models.go:13 | a numbered line of a newline-free item holds no newline |
| Utils.LinesCons | internal/utils/parse_data.go:16-22 | one numbered line in front of the lines for the remaining items gives the lines for all items |
| Utils.NumberedLines | internal/utils/parse_data.go:16-22 | the body splits into exactly one line `start+k - item k` per item, then an empty rest |
| Utils.WriteNumbered | internal/utils/agent_prompts.go:114-121 | the builder loop writes exactly the numbered body of all items |
| Utils.Marked | internal/utils/parse_data.go:17-21 | the user's model is followed by the active marker, every other name is left as is |
| Utils.MarkedModels | internal/utils/parse_data.go:16-22 | one listed item per model, in order, each marked iff it is the user's model |
| Utils.TitleCase | internal/utils/parse_data.go:14 | same length; a letter that starts a word is upper-cased, every other letter lower-cased |
| Utils.TitleCaseOfProviders | internal/utils/parse_data.go:14 | the five provider names come out as Openai, Ollama, Gemini, Groq, Mistral |
| Utils.ListModels | internal/utils/parse_data.go:12-25 | the listing is the title-cased provider header, the numbered marked models, then the usage footer |
| Utils.ModelListingLines | internal/utils/parse_data.go:16-22 | the model listing has one line per model, line k reading `k - name` plus the marker exactly when the name is the user's model |
| Utils.EmptyModelListing | internal/utils/parse_data.go:12-25 | without models the listing is only header and footer |
| Utils.CommandMe | internal/utils/parse_data.go:27-37 | the reply opens with the about title, the user id line and the name line, and ends with the config title, the system prompt line and the model line |
| Utils.SplitLines | internal/utils/parse_data.go:27-37 | newline-ended, newline-free lines split back into exactly those lines and an empty last piece |
| Utils.LinesOfCons | internal/utils/parse_data.go:27-37 | one line in front of the rest gives that line, a newline, then the rest's lines |
| Utils.LinesOfEight | internal/utils/parse_data.go:27-37 | eight lines are each line followed by a newline, in order |
| Utils.MeConfigAsLines | internal/utils/parse_data.go:33-36 | the config part is two blank lines, the config title, the system prompt line and the model line |
| Utils.MeAsLines | internal/utils/parse_data.go:27-37 | the `/me` reply is the lines title, ID, name, two blank lines, config title, system prompt and model |
| Utils.MeLines | internal/utils/parse_data.go:27-37 | for one-line name, prompt and model, the `/me` reply splits into exactly those eight lines and an empty rest |
| Utils.ListTags | internal/utils/list_models.go:9-17 | the Ollama tags listing is the header, one numbered line per tag name, then its footer |
| Utils.TagListingLines | internal/utils/list_models.go:12-14 | the tags listing has one line per tag, line k reading `k - name` |
| Middleware.Protected | internal/middleware/protected.go:13-34 | a request passes iff its body does not parse, the bot is not private, or the owner id parses to the sender's id; an unparsable owner id is rejected with "Invalid owner id", any other sender with "Only the owner is allowed to chat" |
| Middleware.OnlyTheOwnerPasses | internal/middleware/protected.go:20-31 | in private mode with a numeric owner id, a sender passes exactly when it is the owner |
| Provider.CreateLLMProvider | internal/provider/provider.go:56-88 | fails with "unknown llm provider" exactly for names outside the five registered ones; otherwise builds that name's adapter with that name's non-empty default model |
| Provider.FactoryNamesAreDistinct | internal/provider/provider.go:56-70 | each registered name has its own adapter, and the names with an adapter are exactly the names with a default model |
| Provider.DefaultModel | internal/provider/ollama.go:62-67 | an empty model name falls back to the configured default, any other name is kept |
| Provider.CreatedModelIsNeverEmpty | internal/provider/provider.go:80-88 | an adapter built by the factory never resolves to an empty model name, and an empty choice resolves to the name's default |
| Provider.ArgsToString | internal/provider/provider.go:100-111 | a string argument is passed as it is; anything else is its JSON encoding, or its `%v` text when encoding fails |
| Provider.ToolCalls | internal/provider/provider.go:113-133 | the loop appends the response and then one answer per requested call, giving exactly the continued history |
| Provider.ToolMessagesAt | internal/provider/provider.go:115-130 | one answer per call, the k-th answer built from the k-th call |
| Provider.ContinuedHistoryShape | internal/provider/provider.go:113-133 | the old history is kept unchanged, then the response, then one `tool` message per call in call order carrying the call's id, its function name and the registry's answer to its arguments |
| Provider.NoCallsOnlyAppendsResponse | internal/provider/provider.go:114-115 | a response with a nil or empty call list only appends itself |
| Streams.ClassifyMeaning | internal/provider/openai.go:135-144 | after trimming, exactly `[DONE]` ends the stream, exactly the lines without the `data: ` prefix are skipped, and a payload is the trimmed line minus the prefix |
| Streams.PrefixedDoneIsAPayload | internal/provider/openai.go:135-144 | `data: [DONE]` is not recognised as the end (its payload `[DONE]` goes to the decoder) while a bare `[DONE]` line is |
| Streams.PrefixedDone | internal/provider/openai.go:140-144 | `data: [DONE]` classifies as the payload `[DONE]` |
| Streams.DataLine | internal/provider/openai.go:135-144 | a `data: ` line whose payload does not end in white space carries exactly that payload |
| Streams.BareDone | internal/provider/openai.go:135-138 | `[DONE]` followed by a newline ends the stream |
| OpenAI.Chat | internal/provider/openai.go:77-100 | a transport error is returned; a reply without choices panics on the index; otherwise the first choice's message is the answer |
| OpenAI.ChatStream | internal/provider/openai.go:102-163 | the line loop delivers and ends exactly as the stream specification does, a transport error being returned before any read |
| OpenAI.ScanStep | internal/provider/openai.go:126-160 | one read either moves on having delivered that line's delta or stops with what was delivered; a well-behaved, accepted line always moves on |
| OpenAI.ScanDeliversEveryDataLine | internal/provider/openai.go:126-160 | when the callback accepts everything and no line ends the stream, exactly one delta per data line is delivered, in order, none for skipped lines, and the run ends with the body |
| OpenAI.ScanDeliversAPrefixOfTheData | internal/provider/openai.go:126-160 | whatever happens, what is delivered extends what was delivered before and is a prefix of the data lines' deltas |
| OpenAI.PrefixedDoneAfterNonStopIsADecodeError | internal/provider/openai.go:135-158 | a frame finishing with `length` followed by `data: [DONE]` is delivered and the run then fails with a decode error |
| OpenAI.DataStep | internal/provider/openai.go:144-159 | a decodable, accepted data line that does not finish with `stop` delivers its delta and moves on to the next line |
| OpenAI.DecodeFailureStep | internal/provider/openai.go:146-149 | a data line that does not decode ends the run with a decode error and nothing more delivered |
| OpenAI.Models | internal/provider/openai.go:165-177 | a transport error is returned; otherwise the catalogue ids, one per entry, in order |
| Completions.MakeRequest | internal/provider/groq.go:97-103 | the request carries the tool list with `tool_choice` auto, the given history and stream flag, and the resolved model name (the given one, or the default when empty) |
| Completions.AnsweringHistory | internal/provider/groq.go:117-120 | the history of the answering request extends the given history |
| Completions.ChatAnswerFinishedWithoutTools | internal/provider/groq.go:93-123 | whatever the chat answers is the first-choice message of the reply to the answering history, and that reply did not finish with `tool_calls` |
| Completions.ChatStatusError | internal/provider/groq.go:113-115 | a non-200 reply ends the chat with "error fetching response: " and the body, whatever the body decoded to |
| Groq.Normalised | internal/provider/groq.go:178-181 | the delivered delta never has nil content; a delta with content is delivered unchanged; role and tool calls are kept |
| Groq.ChatStream | internal/provider/groq.go:125-199 | the outer loop (the source's tail call) produces exactly the stream specification's deliveries and end |
| Groq.ReadStream | internal/provider/groq.go:146-198 | the read loop over one reply either finishes exactly as the specification's scan does, or hands over a continued history whose stream equals that scan |
| Groq.ReadLine | internal/provider/groq.go:162-195 | the loop body computes exactly one specification step for a line of a healthy stream |
| Groq.FailedRequestPanics | internal/provider/groq.go:137-144 | a request that gets no response at all panics on the missing body, after what was delivered before |
| Groq.StreamStatusError | internal/provider/groq.go:149-153 | a non-200 status fails on the first read, carrying that read's text, before any callback |
| Groq.ToolCallDeltaContinues | internal/provider/groq.go:178-191 | a delta with tool calls is delivered first; the stream then carries on as a new request for the history continued by that delta with role `assistant` |
| Groq.ExtendsWithContentTransitive | internal/provider/groq.go:178-182 | extending with content-bearing messages is transitive |
| Groq.StreamNeverDeliversNilContent | internal/provider/groq.go:178-182 | across all continued requests, the stream only appends to what was delivered and never delivers a message with nil content |
| Groq.ScanNeverDeliversNilContent | internal/provider/groq.go:148-198 | the same from any read of one reply on |
| Groq.ReadNeverDeliversNilContent | internal/provider/groq.go:162-192 | the same for a successful read: one step, then the rest of the stream |
| Groq.StepKeepsContent | internal/provider/groq.go:178-182 | one line delivers at most one message, and never one with nil content |
| Groq.Models | internal/provider/groq.go:201-234 | a transport error or non-200 status is an error with its message; otherwise the catalogue ids, one per entry, in order |
| Mistral.ChatStream | internal/provider/mistral.go:130-201 | the outer loop (the source's tail call) produces exactly the stream specification's deliveries and end |
| Mistral.ReadStream | internal/provider/mistral.go:151-200 | the read loop over one reply either finishes exactly as the specification's scan does, or hands over a continued history whose stream equals that scan |
| Mistral.ReadLine | internal/provider/mistral.go:167-197 | the loop body computes exactly one specification step for a line of a healthy stream |
| Mistral.FailedRequestPanics | internal/provider/mistral.go:142-149 | a request that gets no response at all panics on the missing body, after what was delivered before |
| Mistral.StreamStatusError | internal/provider/mistral.go:154-158 | a non-200 status fails on the first read, carrying that read's text, before any callback |
| Mistral.ToolCallsFinishContinues | internal/provider/mistral.go:183-193 | a chunk finishing with `tool_calls` is delivered first; the stream then carries on as a new request for the history continued by that delta with role `assistant` |
| Mistral.ToolCallsWithoutFinishAreOnlyDelivered | internal/provider/mistral.go:183-197 | tool calls in a chunk that does not finish with `tool_calls` are not run: the delta is delivered as it is and the stream reads on |
| Mistral.Models | internal/provider/mistral.go:203-232 | a non-200 status is "error fetching mistral models: " with the body; otherwise the catalogue ids, one per entry, in order |
| Ollama.ChatRequest | internal/provider/ollama.go:74-79 | the chat request is not streamed, carries the tool list and the given history, and names the resolved model |
| Ollama.StreamRequest | internal/provider/ollama.go:105-109 | the stream request is streamed, carries no tool list, and names the resolved model |
| Ollama.ChatStatusError | internal/provider/ollama.go:88-90 | a non-200 reply ends the chat with "error fetching response: " and the body, whatever the body decoded to |
| Ollama.AnsweringHistory | internal/provider/ollama.go:92-95 | the history of the answering request extends the given history |
| Ollama.ChatAnswerHasNoToolCalls | internal/provider/ollama.go:69-98 | any answer has a nil tool-call list (tool requests are always resolved first) and is the message of the reply to the answering history |
| Ollama.ChatStream | internal/provider/ollama.go:100-153 | the read loop delivers and ends exactly as the stream specification does |
| Ollama.FailedRequestPanics | internal/provider/ollama.go:111-117 | a request that gets no response at all panics on the missing body, with nothing delivered |
| Ollama.StreamStatusError | internal/provider/ollama.go:123-127 | a non-200 status fails on the first read, before anything is decoded or delivered |
| Ollama.Frames | internal/provider/ollama.go:122-150 | at most one decoded frame per remaining line |
| Ollama.ScanDeliversLinesInOrder | internal/provider/ollama.go:122-150 | one callback per line in arrival order: the run only appends, at most one message per decodable line, the k-th new message being the k-th decoded frame's message |
| Ollama.DoneStopsTheStream | internal/provider/ollama.go:141-149 | a frame marked done is delivered and ends the stream; nothing after it is read |
| Ollama.Models | internal/provider/ollama.go:155-183 | a non-200 status is "error fetching ollama models: " with the body; otherwise the tag names, one per tag, in order |
| Gemini.ContentOf | internal/provider/gemini.go:115-164 | a system message is skipped; any other message becomes one content under its Gemini role; the conversion panics exactly for a non-empty text whose image list is non-nil but empty |
| Gemini.ModelRole | internal/provider/gemini.go:123-125 | `assistant` is sent as `model`, every other role as it is |
| Gemini.ChatRole | internal/provider/gemini.go:171-174 | `model` comes back as `assistant`, every other role as it is |
| Gemini.MessagesToContents | internal/provider/gemini.go:113-168 | the conversion loop yields exactly the contents of the messages in order, or the panic |
| Gemini.PanicPersists | internal/provider/gemini.go:138-144 | once one message makes the conversion panic, the whole conversion panics |
| Gemini.ContentsHaveGeminiRoles | internal/provider/gemini.go:118-125 | no content sent to Gemini has the role `system` or `assistant` |
| Gemini.PartsContent | internal/provider/gemini.go:236-243 | the rebuilt content is nil exactly when there are no parts |
| Gemini.AsMessages | internal/provider/gemini.go:227-253 | one message per content, in order, each rebuilt from its content |
| Gemini.ContentsToMessages | internal/provider/gemini.go:227-253 | the conversion loops build exactly one rebuilt message per content |
| Gemini.PlainMessagesRoundTrip | internal/provider/gemini.go:113-253 | plain chat messages survive the trip to Gemini contents and back unchanged |
| Gemini.ImageMessageLosesItsText | internal/provider/gemini.go:138-143 | a user message with a text and an image comes back with an empty text and no image |
| Gemini.ContentToMessage | internal/provider/gemini.go:170-187 | defined exactly when there are parts; the role is mapped back; a function call in the first part gives an empty text and an empty, non-nil call list, otherwise the first part's text |
| Gemini.HasFunctionCall | internal/provider/gemini.go:216-225 | true exactly when some part of some candidate carries a function call |
| Gemini.GeminiToolCalls | internal/provider/gemini.go:255-290 | the loop appends the answering turns of every call to the contents and converts back, giving exactly the continued conversation |
| Gemini.ToolTurnShape | internal/provider/gemini.go:256-286 | one answered call adds a `model` turn repeating all the parts and a `user` turn holding the function response; a part without a call, or whose arguments do not encode, adds nothing |
| Gemini.PairedAppend | internal/provider/gemini.go:285 | appending one such pair, or nothing, keeps the turns paired |
| Gemini.ToolTurnsArePairs | internal/provider/gemini.go:256-287 | the answering turns are pairs of a `model` turn and a function-response `user` turn, at most one pair per part |
| Gemini.ContinuationDropsTheSystemPrompt | internal/provider/gemini.go:255-290 | the continued conversation holds no system message, so the system prompt is not sent again after a function call |
| Gemini.ToolTurnRoles | internal/provider/gemini.go:266-284 | every answering turn is a `model` or a `user` turn |
| Gemini.Declarations | internal/provider/gemini.go:200-214 | at most one declaration per registry entry, each an object |
| Gemini.GetToolsTransform | internal/provider/gemini.go:200-214 | the loop keeps exactly the `function` objects of the registry entries, in order |
| Gemini.Prepare | internal/provider/gemini.go:296-319 | the request is sent with function calling `AUTO`, the resolved model and the messages' contents, and carries a system instruction exactly when the first message is a system message |
| Gemini.BuildRequest | internal/provider/gemini.go:344-371 | the request building code yields exactly the prepared request, or the panic |
| Gemini.ChatAnswerIsText | internal/provider/gemini.go:292-342 | any answer carries a text and a nil call list: a reply with a function call is always answered by asking again |
| Gemini.ChatSafetyStop | internal/provider/gemini.go:337-339 | a reply without function calls whose first candidate stopped for safety is the error `SAFETY` |
| Gemini.NonStringSystemPromptPanics | internal/provider/gemini.go:310-319 | a leading system message whose content is not a string makes the call panic |
| Gemini.ChatStream | internal/provider/gemini.go:344-423 | the outer loop (the source's tail call) produces exactly the stream specification's deliveries and end |
| Gemini.FailedRequestPanics | internal/provider/gemini.go:373-379 | a request that gets no response at all panics on the missing body, after what was delivered before |
| Gemini.Round | internal/provider/gemini.go:344-383 | one request of the stream either finishes exactly as the specification does, or hands over the continued conversation whose stream equals it |
| Gemini.ReadStream | internal/provider/gemini.go:381-422 | the read loop over one reply either finishes exactly as the specification's scan does, or hands over the continued conversation whose stream equals that scan |
| Gemini.ReadLine | internal/provider/gemini.go:393-419 | the loop body computes exactly one specification step for one line |
| Gemini.UndecodableReplyEndsQuietly | internal/provider/gemini.go:399-406 | a reply whose lines never decode ends without error, whatever its status |
| Gemini.StatusErrorOnFirstElement | internal/provider/gemini.go:399-406 | the first element that decodes from a non-200 reply is the error carrying the buffer, and nothing is delivered |
| Gemini.SeparatorIsDropped | internal/provider/gemini.go:393-398 | the `,` separator line adds nothing to the buffer |
| Gemini.OpeningBracketIsDropped | internal/provider/gemini.go:393-398 | the opening `[` of the streamed array is removed from the first element |
| Gemini.FunctionCallContinues | internal/provider/gemini.go:408-419 | an element with a function call is delivered first; the stream then carries on as a new request for the conversation continued by the first candidate's calls |
| Gemini.GenerateCount | internal/provider/gemini.go:434-438 | the count is positive exactly when `generateContent` is among the methods |
| Gemini.OfferedNames | internal/provider/gemini.go:433-439 | an excluded model contributes nothing, any other its name once per `generateContent` method |
| Gemini.PerGenerateMethod | internal/provider/gemini.go:434-438 | the inner loop adds the name once for every `generateContent` method |
| Gemini.Models | internal/provider/gemini.go:425-463 | a transport error or non-200 status is an error with its message; otherwise the offered catalogue |
| Gemini.ListedAreExactlyTheOffered | internal/provider/gemini.go:431-440 | every listed name is the name of a model that is not excluded and supports `generateContent`, and every such model is listed |
| Service.ReplacingARecord | internal/services/bot/service/service.go:128 | replacing one present record keeps the same users and changes no other record |
| Service.SystemCommand | internal/services/bot/service/service.go:124-133 | always a command; the prompt is set exactly for a non-empty prompt, a working store and a stored sender, and then the sender's system prompt becomes the prompt and nothing else changes; otherwise nothing changes and the answer asks for a prompt, reports the store failure, or is the crash of a sender without a record |
| Service.ResetCommand | internal/services/bot/service/service.go:135-141 | always handled as a command, and no record but the sender's can change |
| Service.SystemSetsThePrompt | internal/services/bot/service/service.go:124-133 | for a stored sender and a non-empty prompt, `/system p` answers that the prompt is set, makes p the sender's system prompt and keeps the same users |
| Service.TagNames | internal/utils/list_models.go:12-14 | one listed name per tag, in order |
| Service.ModelsCommand | internal/services/bot/service/service.go:143-164 | always handled as a command, and no record but the sender's can change |
| Service.CommandEffect | internal/services/bot/service/service.go:166-186 | the text is handled as a command exactly when it parses as one, and no record but the sender's can change |
| Service.NonCommandChangesNothing | internal/services/bot/service/service.go:167-170 | text not starting with `/` changes nothing and is left to the conversation |
| Service.UnknownCommandIsHandled | internal/services/bot/service/service.go:183-184 | an unknown command word is answered as not found, counts as handled and changes nothing |
| Service.SystemNeedsAPrompt | internal/services/bot/service/service.go:125-127 | `/system` without a prompt asks for one and changes nothing |
| Service.ResetEmptiesHistory | internal/services/bot/service/service.go:135-141 | a successful reset empties the sender's history and keeps the rest of the record |
| Service.StoredSenderNeverPanics | internal/services/bot/service/service.go:166-186 | a command crashes only for a working store and a sender without a record, and then changes nothing |
| Service.ModelsPanicOnlyWithoutRecord | internal/services/bot/service/service.go:143-164 | `/models` crashes only for a working store and a sender without a record, and then changes nothing |
| Service.ModelIndexValidation | internal/services/bot/service/service.go:149-163 | `/models n` sets the model exactly for an integer 0 <= n < number of tags, and then to that tag's model id; any other argument is refused without a change |
| Service.CheckUser | internal/services/bot/service/service.go:101-122 | a failing store is an error; a stored sender is returned unchanged; a new sender is created from its id and first name and stored |
| Service.HandleSystem | internal/services/bot/service/service.go:124-133 | the store afterwards and the answer are exactly the `/system` effect |
| Service.HandleReset | internal/services/bot/service/service.go:135-141 | the store afterwards and the answer are exactly the `/reset` effect |
| Service.HandleModels | internal/services/bot/service/service.go:143-164 | the store afterwards and the answer are exactly the `/models` effect |
| Service.Command | internal/services/bot/service/service.go:166-186 | the store afterwards and the answer are exactly the command's effect |
| Service.WithSender | internal/services/bot/service/service.go:101-122 | the sender is stored afterwards, the users are those before plus the sender, and a stored sender leaves the users as they were |
| Service.Bot | internal/services/bot/service/service.go:220-248 | a failing store is an error that changes nothing; a command is answered with its effect's reply and leaves exactly its effect's users; a conversation turn answers the model's reply and stores the history grown by the user's text and that reply, or fails with the model's error, the sender only registered; the outcome is what sending the answer gave, delivered only when Telegram accepted it |
| Conversation.RequestMessages | internal/services/bot/service/conversation.go:6-18 | the request is the system prompt, then the stored history unchanged, then the new user text |
| Conversation.PersistedGrowsByTwo | internal/services/bot/service/conversation.go:26-27 | the stored history grows by exactly the user's text and the reply, the system prompt not being stored |
| Conversation.Converse | internal/services/bot/service/conversation.go:5-35 | a model error is returned with nothing stored; otherwise the sender's history becomes the persisted history and the reply is returned, unless storing fails, where the turn yields neither reply nor error, or the sender has no record, where storing crashes; the model is called with the sender's model |
| Commands.SystemEffect | internal/services/bot/service/command.go:13-22 | an empty prompt is refused and changes nothing; a failing store changes nothing; a missing user is the crash and changes nothing; otherwise exactly the sender's system prompt becomes the prompt |
| Commands.ResetEffect | internal/services/bot/service/command.go:24-30 | a failing store changes nothing; a missing user is the crash and changes nothing; otherwise exactly the sender's history becomes empty |
| Commands.ModelsEffect | internal/services/bot/service/command.go:32-65 | always handled as a command, and the user store changes only when the store works and the sender is stored |
| Commands.ModelsChosen | internal/services/bot/service/command.go:50-64 | once the list is chosen the cache stays as given, the answer is a command's, and the user store changes only when the store works and the sender is stored |
| Commands.Dispatch | internal/services/bot/service/command.go:97-114 | the parsed text is answered as a command exactly when it parsed as one |
| Commands.CommandEffect | internal/services/bot/service/command.go:91-115 | the text is handled as a command exactly when it parses as one |
| Commands.NonCommandChangesNothing | internal/services/bot/service/command.go:92-95 | text not starting with `/` changes neither the store nor the cache and is left to the conversation |
| Commands.UnknownCommandIsHandled | internal/services/bot/service/command.go:112-113 | an unknown command word is answered as not found, counts as handled and changes nothing |
| Commands.CachedModelsWin | internal/services/bot/service/command.go:35-48 | a non-empty cached list is used whatever the provider would answer; without one the fetched list is used and cached |
| Commands.EmptyCacheIsFetchedAgain | internal/services/bot/service/command.go:35-48 | an empty cached list counts as nothing cached: a fetched list gives the same effect as with no entry, and a failing provider makes the command fail |
| Commands.EmptyCatalogueIsNotRemembered | internal/services/bot/service/command.go:35-48 | after a `/models` that fetched an empty catalogue, the next `/models` asks the provider again and fails when it fails |
| Commands.ModelIndexValidation | internal/services/bot/service/command.go:54-64 | `/models n` sets the model exactly for an integer 0 <= n < number of models, and then to model n; any other argument is refused without a change |
| Commands.AgentChoice | internal/services/bot/service/command.go:67-89 | a non-integer is refused, an integer outside the table is not found, and a valid agent leaves the user with an empty history and that agent's prompt |
| Commands.HandleSystem | internal/services/bot/service/command.go:13-22 | the store afterwards and the answer are exactly the `/system` effect |
| Commands.HandleReset | internal/services/bot/service/command.go:24-30 | the store afterwards and the answer are exactly the `/reset` effect |
| Commands.HandleModels | internal/services/bot/service/command.go:32-65 | the store, the cache and the answer afterwards are exactly the `/models` effect, an empty cached list being fetched again |
| Commands.HandleAgent | internal/services/bot/service/command.go:67-89 | the store afterwards and the answer are exactly the `/agents` effect |
| Commands.Command | internal/services/bot/service/command.go:91-115 | the store, the cache and the answer afterwards are exactly the command's effect |
| Commands.StoredSenderNeverPanics | internal/services/bot/service/command.go:91-115 | a command crashes only for a working store and a sender without a record, and then changes nothing |
| Commands.DispatchPanicsOnlyWithoutRecord | internal/services/bot/service/command.go:97-114 | the dispatched command crashes only for a working store and a sender without a record, and then changes nothing |
| Commands.ModelsPanicOnlyWithoutRecord | internal/services/bot/service/command.go:32-65 | `/models` crashes only for a working store and a sender without a record, and then changes nothing |
| Commands.AgentPanicOnlyWithoutRecord | internal/services/bot/service/command.go:67-89 | `/agents` crashes only for a working store and a sender without a record, and then changes nothing |
| Commands.DispatchCommand | internal/services/bot/service/command.go:97-114 | the switch leaves the store, the cache and the answer exactly as the dispatch specifies |
| Incoming.Route | internal/services/bot/service/message.go:195-219 | audio goes to transcription (or the fixed notice without a provider) whatever else is attached; otherwise an image goes as URL parts exactly for openai, mistral and groq and base64 for every other provider; otherwise a reply goes to the reply factory, and anything else is text |
| Incoming.ImageFileId | internal/services/bot/service/message.go:82-86 | the last photo size when photos are listed, else the document, and none (the crash) exactly for an empty photo list |
| Incoming.TextMessage | internal/services/bot/service/message.go:150-155 | a user message whose content is the text |
| Incoming.ReplyMessage | internal/services/bot/service/message.go:163-171 | the content is exactly the text, then the context marker, then the replied-to text |
| Incoming.UrlParts | internal/services/bot/service/message.go:128-139 | two parts: the caption as text, then the image URL |
| Incoming.ImagePartsMessage | internal/services/bot/service/message.go:112-142 | crashes exactly on an empty photo list; the zero message when the file path lookup fails; otherwise the caption part and the URL of the found path |
| Incoming.ImageBase64Message | internal/services/bot/service/message.go:78-104 | crashes exactly on an empty photo list; any non-zero message has the caption as text and exactly the base64 of the found file as its only image |
| Incoming.AudioMessage | internal/services/bot/service/message.go:27-70 | always a user text message, empty when neither voice nor audio is present |
| Incoming.NewMessage | internal/services/bot/service/message.go:176-222 | can crash only on the image routes |
| Incoming.AudioTakesPriority | internal/services/bot/service/message.go:201-209 | with voice or audio, the message is the fixed notice without a speech-to-text provider and the transcription otherwise |
| Incoming.TranscriptionFailure | internal/services/bot/service/message.go:60-65 | a failed transcription becomes the fixed error text |
| Incoming.ImageRouting | internal/services/bot/service/message.go:211-214 | without audio, an image is built as URL parts for openai, mistral and groq and as base64 for any other provider |
| Incoming.PlainText | internal/services/bot/service/message.go:150-155 | a message with nothing attached and no reply becomes a user message holding the text |
| UserMessage.Caption | internal/services/bot/service/user_message.go:86-91 | the caption when given, else the default question; never empty |
| UserMessage.Choose | internal/services/bot/service/user_message.go:96-106 | URL parts exactly for an image sent to openai, base64 exactly for an image sent to any other provider, text otherwise |
| UserMessage.MessageHandler | internal/services/bot/service/user_message.go:93-109 | crashes exactly on an empty photo list; a message without image is the text |
| UserMessage.ImageMessages | internal/services/bot/service/user_message.go:15-75 | with a found file path, openai gets [caption, image URL] and every other provider the caption with the base64 image attached |
| BotModel.Registered | internal/services/bot/repository/user_repository.go:67-81 | a created user keeps id, name, model and history, gets the default system prompt, and has the owner role exactly when its id is the owner's (the user role otherwise) |
| Repository.UserStore.constructor | internal/services/bot/repository/user_repository.go:36-38 | the store starts with the given users, failure mode and owner id |
| Repository.UserStore.GetUserById | internal/services/bot/repository/user_repository.go:40-65 | an error exactly when the store fails; otherwise the stored user, and none exactly when the id is not stored |
| Repository.UserStore.CreateUser | internal/services/bot/repository/user_repository.go:67-96 | an unparsable owner id and a failing store refuse and change nothing; otherwise the registered user is stored under its id and returned |
| Repository.UserStore.UpdateSystem | internal/services/bot/repository/user_repository.go:105-147 | a failing store refuses; a working store with the id stored changes only that user's system prompt; with the id missing the re-read user is nil and the update crashes, changing nothing; the failure mode and owner stay |
| Repository.UserStore.UpdateMessages | internal/services/bot/repository/user_repository.go:105-142 | a failing store refuses; a working store with the id stored changes only that user's history; with the id missing the re-read user is nil and the update crashes, changing nothing; the failure mode and owner stay |
| Repository.UserStore.UpdateModel | internal/services/bot/repository/user_repository.go:105-152 | a failing store refuses; a working store with the id stored changes only that user's model; with the id missing the re-read user is nil and the update crashes, changing nothing; the failure mode and owner stay |
| Repository.ModelCache.constructor | internal/pkg/redis.go:65-99 | the cache starts with the given lists and failure mode |
| Repository.ModelCache.Get | internal/pkg/redis.go:81-99 | an error exactly when the cache fails; otherwise the cached list for the provider, and none exactly when nothing or an empty list (cached as `null`, read back as nil) is cached |
| Repository.ModelCache.Save | internal/pkg/redis.go:65-79 | a working cache then holds exactly the list under the provider (an empty one reads back as nothing cached); a failing one keeps what it had |
| Tools.NewTools | internal/tools/tools.go:61-89 | an unregistered name gives the not-available message; a registered name gives exactly its tool's result on the arguments |
| Tools.RegistryIsExactlyTen | internal/tools/tools.go:62-75 | the registry's keys are exactly the ten names, and names and tools correspond one to one |
| Tools.UnknownNameInvokesNothing | internal/tools/tools.go:78-83 | for an unregistered name the answer does not depend on any tool |
| Tools.LookupIsCaseSensitive | internal/tools/tools.go:78 | a capitalised registered name is not found, while the exact name is |
| Bash.IsCommandSafe | internal/tools/bash/bash.go:36-44 | safe exactly when the trimmed command contains none of the blacklisted substrings |
| Bash.ScanList | internal/tools/bash/bash.go:38-42 | the scan answers clean exactly when no entry of the list occurs in the text |
| Bash.TimeoutOf | internal/tools/bash/bash.go:60-64 | a positive requested timeout is used as given, anything else becomes 60 seconds |
| Bash.Precheck | internal/tools/bash/bash.go:46-64 | undecodable arguments, a missing command and a blacklisted command are answered at once with their error texts; only a safe command runs, with a positive timeout |
| Bash.OccurrenceSurvivesTrim | internal/tools/bash/bash.go:37-39 | an occurrence of a needle that neither starts nor ends with white space is still found after trimming |
| Bash.SurvivesTrimLeft | internal/tools/bash/bash.go:37 | trimming leading white space keeps an occurrence that starts with a non-space |
| Bash.SurvivesTrimRight | internal/tools/bash/bash.go:37 | trimming trailing white space keeps an occurrence that ends with a non-space |
| Bash.InnerOccurrenceBlocks | internal/tools/bash/bash.go:19-44 | a blacklisted entry without white space at its ends blocks every command it occurs in, wherever it occurs |
| Converter.UnitOf | internal/tools/converter/converter.go:63-78 | a name is recognised only as the unit it spells |
| Converter.UnitOfName | internal/tools/converter/converter.go:63-78 | every unit of the table is recognised by its own name |
| Converter.TemperatureNames | internal/tools/converter/converter.go:64 | every temperature unit is recognised by its name |
| Converter.DistanceNames | internal/tools/converter/converter.go:66 | every distance unit is recognised by its name |
| Converter.MassNames | internal/tools/converter/converter.go:68 | every mass unit is recognised by its name |
| Converter.VolumeNames | internal/tools/converter/converter.go:70 | every volume unit is recognised by its name |
| Converter.TimeNames | internal/tools/converter/converter.go:72 | every time unit is recognised by its name |
| Converter.SpeedNames | internal/tools/converter/converter.go:74 | every speed unit is recognised by its name |
| Converter.Convert | internal/tools/converter/converter.go:59-333 | names are trimmed and lower-cased; an unknown source unit is refused naming it; the conversion succeeds exactly when both units are known and the source's family lists the target, with the table's value, and otherwise fails with that family's not-supported message |
| Converter.Run | internal/tools/converter/converter.go:37-57 | a missing or non-numeric value, and a missing or empty unit name, are refused in that order; a success carries the value and the unit names as given and the converted value |
| Converter.CallTool | internal/tools/converter/converter.go:339-352 | undecodable arguments and a failed run are answered with their error prefixes, and a success with the formatted conversion |
| Converter.TargetsShareTheFamily | internal/tools/converter/converter.go:81-333 | a conversion never leaves its family and never maps a unit to itself |
| Converter.OneWayUnits | internal/tools/converter/converter.go:130-136 | kilometres convert only to metres, and millilitres only to litres |
| Converter.CelsiusFahrenheitRoundTrip | internal/tools/converter/converter.go:83-100 | Celsius to Fahrenheit and back, and the reverse, return the starting value exactly |
| Converter.RoundTrip | internal/tools/converter/converter.go:81-333 | wherever both directions use the same constant, converting there and back returns the starting value |
| Converter.TemperatureRoundTrip | internal/tools/converter/converter.go:81-113 | there and back is the identity between temperature units |
| Converter.DistanceRoundTrip | internal/tools/converter/converter.go:115-171 | there and back is the identity between distance units with reciprocal constants |
| Converter.MassRoundTrip | internal/tools/converter/converter.go:173-222 | there and back is the identity between mass units with reciprocal constants |
| Converter.VolumeRoundTrip | internal/tools/converter/converter.go:224-265 | there and back is the identity between volume units with reciprocal constants |
| Converter.TimeRoundTrip | internal/tools/converter/converter.go:267-299 | there and back is the identity between time units |
| Converter.SpeedRoundTrip | internal/tools/converter/converter.go:301-333 | there and back is the identity between speed units |
| Converter.HoursAndSeconds | internal/tools/converter/converter.go:267-299 | an hour is 3600 seconds in both directions |
| FileSystem.Guard | internal/tools/filesystem/filesystem.go:57-74 | a path that cannot be made absolute is refused with that error; otherwise it is accepted exactly when some allowed directory, made absolute, is a string prefix of its absolute path, and then the absolute path is returned; a refusal names the path and its absolute form |
| FileSystem.IsAllowed | internal/tools/filesystem/filesystem.go:57-74 | the scan over the allowed directories answers exactly the guard |
| FileSystem.SiblingPrefixPasses | internal/tools/filesystem/filesystem.go:63-73 | the comparison is by string prefix: `/ab` passes when only `/a` is allowed |
| FileSystem.FirstRefusal | internal/tools/filesystem/filesystem.go:83-90 | no refusal exactly when every non-empty path passes the guard |
| FileSystem.Dispatch | internal/tools/filesystem/filesystem.go:92-137 | the call is answered at once exactly for edit_file without path, start line or new content, for delete_path without path, and for an unknown tool name; every other name runs its operation |
| FileSystem.CallTool | internal/tools/filesystem/filesystem.go:76-138 | undecodable arguments are answered with the parse error; the first refused non-empty path among path, old path and new path gives a security error; otherwise the tool name is dispatched |
| FileSystem.InvokedPathsAreAllowed | internal/tools/filesystem/filesystem.go:83-90 | an operation runs only when each of its non-empty paths passed the guard |
| FileSystem.RangeError | internal/tools/filesystem/filesystem.go:430-447 | the range is accepted exactly when the start lies in 1..count+1 and the last replaced line exists, unless the edit appends at the end |
| FileSystem.Spliced | internal/tools/filesystem/filesystem.go:454-477 | an in-range edit gives the lines before the start, the new lines, then the lines after the end; an edit one past the last line appends |
| FileSystem.Marked | internal/tools/filesystem/filesystem.go:501-507 | every line gains the marker in front, and nothing else changes |
| FileSystem.Disk.constructor | internal/tools/filesystem/filesystem.go:417-513 | the disk starts with the given files |
| FileSystem.Disk.EditFile | internal/tools/filesystem/filesystem.go:417-513 | a refused path, a missing file and a bad range each give their error and write nothing; otherwise the file holds exactly the spliced lines and the reply carries the diff |
| FileSystem.SpliceLines | internal/tools/filesystem/filesystem.go:454-477 | the three-way splice builds exactly the spliced lines |
| FileSystem.DiffLines | internal/tools/filesystem/filesystem.go:486-507 | the loops build exactly the headers, the replaced lines marked `-` and the new lines marked `+` |
| FileSystem.EndBeforeStartReplacesOneLine | internal/tools/filesystem/filesystem.go:433-436 | an end line below the start line is accepted and replaces just the start line |
| FileSystem.EditPastTheEndAppends | internal/tools/filesystem/filesystem.go:438-447 | a start one past the last line is accepted whatever the end line, and appends the new lines |
| FileSystem.SplicePreservesTheRest | internal/tools/filesystem/filesystem.go:454-467 | the lines before the range stay in place, the new lines follow, and the lines after the range keep their order shifted by the change in length |
| FileSystem.DiffContents | internal/tools/filesystem/filesystem.go:497-507 | the diff has the two headers, exactly the replaced lines marked `-`, then every new line marked `+` |
| Notes.ValidateInput | internal/tools/notes/notes.go:81-96 | an empty action is refused with "action is required"; input passes exactly when the action is non-empty and, for the exact spellings POST and PUT, title and content are both given |
| Notes.Find | internal/tools/notes/notes.go:123-136 | the position of the first note with the title |
| Notes.Matching | internal/tools/notes/notes.go:215-241 | never more notes than stored |
| Notes.MatchingMeaning | internal/tools/notes/notes.go:228-229 | a note is returned by SEARCH exactly when it is stored and its title or content contains the query ignoring case |
| Notes.Created | internal/tools/notes/notes.go:243-278 | never more notes than stored |
| Notes.CreatedMeaning | internal/tools/notes/notes.go:266 | a note is returned by GET_BY_DATE exactly when it is stored and created strictly after the start and strictly before the end day plus 24 hours |
| Notes.NoteStore.constructor | internal/tools/notes/notes.go:17-33 | the note directory starts empty, with distinct titles |
| Notes.NoteStore.Save | internal/tools/notes/notes.go:152-176 | an existing title is refused and nothing is written; otherwise the new note, both times now, is added and titles stay distinct |
| Notes.NoteStore.Update | internal/tools/notes/notes.go:178-199 | a missing title is refused; otherwise only that note's content and update time change |
| Notes.NoteStore.Delete | internal/tools/notes/notes.go:201-213 | a missing title is refused; otherwise exactly that note is removed and titles stay distinct |
| Notes.NoteStore.Search | internal/tools/notes/notes.go:215-241 | the loop returns exactly the matching notes in directory order |
| Notes.NoteStore.ByDate | internal/tools/notes/notes.go:243-278 | a bad start date, then a bad end date, is refused with its parse error; otherwise exactly the notes created in the window, in order |
| Notes.NoteStore.Detail | internal/tools/notes/notes.go:138-150 | the stored note with the title, or the read error when there is none |
| Notes.NoteStore.CallTool | internal/tools/notes/notes.go:51-79 | undecodable and invalid input are refused without a write; an action outside the seven (after upper-casing) gives the fixed message; the queries answer the notes, the one note, the matching notes or the notes of the date without a change; POST, PUT and DELETE answer and change the notes exactly as saving, updating and deleting do; titles stay distinct |
| Notes.LowerCaseSkipsValidation | internal/tools/notes/notes.go:61 | lower-case post and put pass validation without title or content, yet are dispatched as POST and PUT |
| Calendar.FirstOwned | internal/tools/calendar/calendar.go:101-102 | the first position holding a schedule with this id and this user, and none exactly when no schedule has both |
| Calendar.Hits | internal/tools/calendar/calendar.go:147-154 | never more hits than query tags |
| Text.Repeat | internal/tools/calendar/calendar.go:147-154 | exactly n copies of the value, as the tag search appends a schedule once per matching tag and the Gemini catalogue a name once per generating method |
| Calendar.CalendarManager.constructor | internal/tools/calendar/calendar.go:28-52 | the calendar starts without schedules |
| Calendar.CalendarManager.AddSchedule | internal/tools/calendar/calendar.go:95-98 | the schedule is appended after all existing ones |
| Calendar.CalendarManager.UpdateSchedule | internal/tools/calendar/calendar.go:100-108 | without a schedule of this id and user, the not-found error and no change; otherwise exactly the first such schedule is replaced |
| Calendar.CalendarManager.DeleteSchedule | internal/tools/calendar/calendar.go:110-118 | without a schedule of this id and user, the not-found error and no change; otherwise exactly the first such schedule is removed and the rest keep their order |
| Calendar.CalendarManager.SearchByDateRange | internal/tools/calendar/calendar.go:120-128 | the loop returns the user's schedules within the range, in order |
| Calendar.CalendarManager.SearchByTitle | internal/tools/calendar/calendar.go:130-139 | the loop returns the user's schedules whose lower-cased title contains the lower-cased query, in order |
| Calendar.CalendarManager.SearchByTags | internal/tools/calendar/calendar.go:141-157 | the loops return each of the user's schedules once per query tag it carries, in order |
| Calendar.Carries | internal/tools/calendar/calendar.go:148-153 | the inner scan finds a tag exactly when the schedule lists it |
| Calendar.FirstOwnedIsFirst | internal/tools/calendar/calendar.go:101-105 | the schedule a left-to-right scan stops at is the first one with this id and user |
| Calendar.InRangeMeaning | internal/tools/calendar/calendar.go:123 | a schedule is found by date exactly when it is stored, is the user's, starts no earlier than the start and ends no later than the end |
| Calendar.TitledMeaning | internal/tools/calendar/calendar.go:134 | a schedule is found by title exactly when it is stored, is the user's, and its title contains the query ignoring case |
| Calendar.HitsMeaning | internal/tools/calendar/calendar.go:147-154 | a schedule is hit at least once exactly when it carries some query tag |
| Calendar.TaggedAreTheUsers | internal/tools/calendar/calendar.go:144-150 | the tag search returns only stored schedules of the user that carry a query tag |
| Calendar.UsersTaggedAreReturned | internal/tools/calendar/calendar.go:144-150 | every stored schedule of the user that carries a query tag is returned |
| Calendar.DuplicateQueryTags | internal/tools/calendar/calendar.go:147-151 | a query listing a tag twice returns a schedule carrying it twice |
| Calendar.StringsOf | internal/tools/calendar/calendar.go:244-250 | a tag list exists exactly when every item is a string, and then holds those strings in order |
| Calendar.TagsOf | internal/tools/calendar/calendar.go:244-250 | the conversion loop gives exactly the string items, or fails at a non-string |
| Calendar.StringsOfAppend | internal/tools/calendar/calendar.go:245-249 | one more item keeps the list convertible exactly when it is a string, and adds its text at the end |
| Calendar.StringsOfPrefix | internal/tools/calendar/calendar.go:247-248 | a prefix with a non-string item makes the whole list unconvertible |
| Calendar.ReadFields | internal/tools/calendar/calendar.go:212-250 | the checks of title, description, start and end times and tags, in that order, give the first error or all the fields |
| Calendar.UserOf | internal/tools/calendar/calendar.go:202-205 | a user id is accepted only as a non-empty string |
| Calendar.CalendarTool.constructor | internal/tools/calendar/calendar.go:163-170 | the tool works on the given calendar |
| Calendar.CalendarTool.HandleAdd | internal/tools/calendar/calendar.go:201-267 | the calendar and the answer afterwards are exactly the add effect: nothing added on any refusal, otherwise one schedule with the clock reading as id |
| Calendar.CalendarTool.HandleUpdate | internal/tools/calendar/calendar.go:269-340 | the calendar and the answer afterwards are exactly the update effect |
| Calendar.CalendarTool.HandleDelete | internal/tools/calendar/calendar.go:342-358 | the calendar and the answer afterwards are exactly the delete effect |
| Calendar.CalendarTool.HandleSearch | internal/tools/calendar/calendar.go:360-444 | the answer is exactly the search answer for the action, and nothing changes |
| Calendar.CalendarTool.CallTool | internal/tools/calendar/calendar.go:172-199 | undecodable arguments and a missing action change nothing; each action has exactly its handler's effect; an unknown action is refused without a change |
| Calendar.RejectedAddsNothing | internal/tools/calendar/calendar.go:202-250 | an add without a usable user id or with an invalid schedule adds nothing and answers with a text |
| CashFlow.UserOf | internal/tools/cashflow/cashflow.go:192-195 | a user id is accepted exactly when it is a non-empty string |
| CashFlow.ReadFields | internal/tools/cashflow/cashflow.go:201-239 | validated fields have type income or expense, a positive amount, one of the five currencies (IDR when absent), a readable date and a non-empty lower-cased category name; a missing or other type is refused first |
| CashFlow.LowerIsIdempotent | internal/tools/cashflow/cashflow.go:139-141 | lower-casing twice is lower-casing once and keeps the length |
| CashFlow.FirstTransaction | internal/tools/cashflow/cashflow.go:384-385 | the first position holding a transaction with this id and user, and none exactly when there is none |
| CashFlow.FirstCategory | internal/tools/cashflow/cashflow.go:256-262 | the first position holding a category of this name, and none exactly when there is none |
| CashFlow.Selected | internal/tools/cashflow/cashflow.go:304-308 | never more transactions than stored |
| CashFlow.SelectedMeaning | internal/tools/cashflow/cashflow.go:305 | a transaction is selected exactly when it is stored, is the user's, and is dated from the start to the end inclusive |
| CashFlow.Tally | internal/tools/cashflow/cashflow.go:500-522 | the count is the number of selected transactions and the balance is income less expense |
| CashFlow.TallyTotals | internal/tools/cashflow/cashflow.go:505-516 | the income and expense totals are the sums of the income and the non-income amounts, and only categories that occur get a per-category entry |
| CashFlow.AddRequest | internal/tools/cashflow/cashflow.go:191-239 | a missing user is refused first; an accepted request carries the user, the transaction object and its validated fields |
| CashFlow.UpdateRequest | internal/tools/cashflow/cashflow.go:328-380 | a missing user is refused first; an accepted request carries the user, the id, the transaction object and its validated fields |
| CashFlow.DeleteRequest | internal/tools/cashflow/cashflow.go:444-452 | accepted exactly when the user and the transaction id are both given |
| CashFlow.Period | internal/tools/cashflow/cashflow.go:283-301 | a period is read only for a given user; a start or end that is not a string crashes, and one that does not read is refused |
| CashFlow.CategoryRequest | internal/tools/cashflow/cashflow.go:540-562 | an accepted name is the lower-cased given name and is non-empty |
| CashFlow.CategoryFor | internal/tools/cashflow/cashflow.go:249-265 | the category keeps the requested name and is the stored one when that name exists |
| CashFlow.CategoriesAfter | internal/tools/cashflow/cashflow.go:255-265 | an existing name leaves the categories alone, a new name appends exactly its category |
| CashFlow.CategoriesStayDistinct | internal/tools/cashflow/cashflow.go:255-265 | giving a transaction its category never makes two categories share a name |
| CashFlow.NewNameKeepsDistinct | internal/tools/cashflow/cashflow.go:553-566 | appending a category whose name is new keeps names distinct |
| CashFlow.BalanceIsIncomeLessExpense | internal/tools/cashflow/cashflow.go:521 | the reported balance is the income total less the expense total |
| CashFlow.CashFlowTool.constructor | internal/tools/cashflow/cashflow.go:70-76 | the ledger starts without transactions and categories |
| CashFlow.CashFlowTool.FindCategory | internal/tools/cashflow/cashflow.go:256-262 | the scan finds exactly the first category of the name |
| CashFlow.CashFlowTool.AssignCategory | internal/tools/cashflow/cashflow.go:249-265 | the transactions stay; the category returned and the categories afterwards are the ones the name calls for |
| CashFlow.CashFlowTool.AddTransaction | internal/tools/cashflow/cashflow.go:186-275 | a refused request or a non-string description changes nothing; otherwise exactly one transaction with the clock-made id is appended, with the category of its name, added when new |
| CashFlow.CashFlowTool.FindTransaction | internal/tools/cashflow/cashflow.go:384-385 | the scan finds exactly the first transaction with this id and user |
| CashFlow.CashFlowTool.UpdateTransaction | internal/tools/cashflow/cashflow.go:322-436 | a refused request, no matching transaction, or a non-string description changes nothing; otherwise exactly the first match is rewritten, keeping its id and user, with the category of its name |
| CashFlow.CashFlowTool.DeleteTransaction | internal/tools/cashflow/cashflow.go:438-472 | the categories stay; without a match the not-found error and no change; otherwise exactly the first match is removed and the rest keep their order |
| CashFlow.CashFlowTool.Select | internal/tools/cashflow/cashflow.go:304-308 | the loop returns exactly the selected transactions in ledger order |
| CashFlow.CashFlowTool.GetTransactions | internal/tools/cashflow/cashflow.go:277-320 | a bad period gives its error or crash; otherwise exactly the user's transactions in the period |
| CashFlow.CashFlowTool.GetAnalytics | internal/tools/cashflow/cashflow.go:474-533 | a bad period gives its error or crash; otherwise the loop's figures are exactly the tally of the selected transactions |
| CashFlow.CashFlowTool.AddCategory | internal/tools/cashflow/cashflow.go:535-576 | the transactions stay; a refused request or an existing name changes nothing; otherwise one category with the given id, else a clock-made one, is appended |
| CashFlow.CashFlowTool.GetCategories | internal/tools/cashflow/cashflow.go:578-590 | every stored category, in order |
| CashFlow.CashFlowTool.CallTool | internal/tools/cashflow/cashflow.go:155-184 | undecodable arguments and a missing action change nothing; add, update and delete transaction and add category answer and change the data exactly as their effects; the queries answer as their handlers; an unknown action is refused |
| CashFlow.WritesKeepNamesDistinct | internal/tools/cashflow/cashflow.go:186-576 | each of the four writing actions keeps the category names distinct |
| CashFlow.FirstCategoryIsFirst | internal/tools/cashflow/cashflow.go:256-262 | the category a left-to-right scan stops at is the first of that name |
| CashFlow.FirstTransactionIsFirst | internal/tools/cashflow/cashflow.go:384-385 | the transaction a left-to-right scan stops at is the first with this id and user |
| Text.Atoi | internal/services/bot/service/command.go:54-57 | a number is read only from non-empty text and always lies in the signed 64-bit range |
| Text.AtoiOfNatToString | internal/services/bot/service/command.go:54 | a printed non-negative number within that range reads back as itself |
| Text.AtoiRejectsNonNumeric | internal/services/bot/service/command.go:54-57 | text starting with neither a sign nor a digit is not a number |
| Text.TrimSpace | internal/tools/bash/bash.go:37 | the trimmed text is no longer than the input and neither starts nor ends with white space |
| Text.TrimSpaceOfPadded | internal/tools/bash/bash.go:37 | trimming white space around a core that does not start or end with white space gives the core |
| Text.ToLower | internal/tools/converter/converter.go:60-61 | the text keeps its length and every character is mapped to lower case |
| Text.Split | internal/tools/filesystem/filesystem.go:427 | there is always at least one piece, and no piece holds the separator |
| Text.JoinSplit | internal/tools/filesystem/filesystem.go:427-479 | joining the split lines gives the text back |
| Text.SplitJoin | internal/tools/filesystem/filesystem.go:427-479 | splitting joined pieces that hold no separator gives the pieces back |

## Left out

- Network calls: HTTP request building and execution, the Telegram Bot API, the text-to-speech provider, and the weather, scraping, web-search and Python tools. Their replies are parameters (a status and the body's lines, or a result).
- JSON encoding and decoding: a decoder is a function parameter, so malformed JSON is whatever that function says; rendering results as JSON text is kept as values (`NoteList`, `TransactionList`, `Report`, `Found`).
- Persistence: MongoDB, Redis, the RabbitMQ queue and the data files of the notes, calendar and cash-flow tools are in-memory state. Only the user store and the model cache can fail, as a whole (`failing`). File write failures after an accepted change (`Error saving data`, `Error writing updated content`) are not modelled.
- Tool store reads: `Notes.NoteStore`, `Calendar.CalendarManager`, `CashFlow.CashFlowTool` and `FileSystem.Disk` never fail to read. So the model leaves out `Error loading data` at the start of every cash-flow handler (internal/tools/cashflow/cashflow.go:76-102, 187-190), `Error reading notes directory` when listing, searching or filtering notes by date (internal/tools/notes/notes.go:99-102, 216-219, 254-257), a corrupt calendar or cash-flow data file being skipped with a warning (internal/tools/calendar/calendar.go:54-70, internal/tools/cashflow/cashflow.go:95-98), and `edit_file` read errors other than a missing file (internal/tools/filesystem/filesystem.go:424-426).
- Repository.ModelCache: entries never expire. The source caches each list for 24 hours (internal/pkg/redis.go:71-73) and fetches it again after that.
- Floating point: converter formulas and cash-flow sums are over `real`; IEEE-754 rounding and the `%.2f` formatting are not claimed.
- Time: clock readings and RFC 3339 / `YYYY-MM-DD` parsing are parameters, and times are integers (seconds; nanoseconds for the clock-made ids).
- Strings are sequences of Unicode code points rather than Go's bytes; `strings.ToLower`/`ToUpper` and the title-casing of provider names follow ASCII rules.
- The shell tool's process execution with its timeout race, and every other file-system operation than `edit_file` (read, write, list, tree, move, search, info, delete), are left at the point where they would touch the system: `FileSystem.Dispatch` names the operation and its arguments.
- Concurrency: the bot handles one update at a time in the model.
- Fuel: the adapters' chat calls and streaming loops recurse without bound in the source while the model keeps asking for tools. Here each takes a `fuel` count and ends with an out-of-fuel outcome when it is used up; what happens after that many rounds is not modelled.
- Replies: the fixed answer texts live in a package that is not part of this model, so each fixed answer is a constructor of `Replies.Reply`; listings and conversation replies carry their text.
- Agents.ListAgents: the agents' descriptions and prompt texts are not reproduced; the table keeps each agent's title and category, and a prompt is a parameter where a command uses it.
- Notes.NoteStore: the note directory is kept in creation order, while reading a directory in Go lists files by name; searches return the same notes, possibly in another order.
- Incoming.AudioMessage: its contract says only that the answer is a user text message, empty without voice or audio. The messages for a failed file-path lookup or download appear in its definition but in no contract. `Incoming.TranscriptionFailure` states the transcription error.
- Older variants: the file-only note tool in `internal/tools/notes.go` and the repository variant in `internal/services/bot/repository/repository.go` are not part of this model; `Repository.UserStore` follows `user_repository.go`.
- Web-server glue, routing, CORS, the mini-app script, configuration loading and connection retries are not part of this model.
