# Ricardo, the real-estate sales assistant — a verified model

The system is a conversational sales assistant for a real-estate broker ("Ricardo").
Clients talk to it over Telegram or WhatsApp. A two-node LangGraph state graph answers
each message. The agent node refreshes the system prompt with a temporal annex (today
and the next seven days, in Spanish) and calls the language model. The tools node runs
the tool calls the model asks for: searching the property sheet, registering a lead, and
booking, listing, moving or cancelling 30-minute appointments in the calendar. A
finished reply is cut into chat bubbles, which each front end delivers. A separate
serverless text processor validates an input, runs the model on it and answers over
REST.

The Dafny model covers:

- `Agent` (agent.dfy): bubble splitting (`format_bot_response`), the temporal annex,
  the agent node, the router, the tools node and the graph's run.
  - `Run` is the graph's loop with a fuel bound; `Invoke` is the same loop written
    imperatively and proved equal to it.
  - The model, the clock and the tool node are function parameters.
- `Sessions` (session.dfy): the per-chat `MEMORY_STORAGE` and how a message is
  admitted into it.
- `Telegram` (telegram.dfy): the bot as a class over its memory and an outbox of sent
  events; the Markdown-then-plain fallback of the delivery loop.
- `WhatsApp` (whatsapp.dfy): phone normalisation; the image regex `!\[(.*?)\]\((.*?)\)`
  as a leftmost-match search; the post plan of `send_whatsapp_message`; webhook
  verification; the webhook payload walk; the bot as a class over its memory and the
  posts it makes.
- `SalesTools` (sales_tools.dfy): the six tools.
  - The Sheets and Calendar APIs are inputs: sheet metadata, cell values, search
    results and failures.
  - The workbook's appended rows and the calendar's events are object state that the
    tool methods update.
- `Validator` (validator.dfy): `validate_input`, `process_data` and `process_endpoint`.
- `Text`, `CivilCalendar`, `Messages`, `Wrappers`: Python's string operations the code
  relies on (`strip`, `split`, `join`, `replace`, `in`, `lower`, `isdigit`, `int`,
  `str`), the proleptic Gregorian calendar behind `datetime.weekday()` and
  `timedelta(days=…)`, and the message and state types.

Where the design text and the code differ, the model follows the code:

- A message is appended to the stored history before the graph runs. When the graph
  raises, the appended human turn stays in memory and nothing is delivered.
- The tools node receives only the last model message. Its results are appended to
  the whole history.
- `format_bot_response` splits on blank lines only. It never splits at full stops, and
  it returns the unsplit text when every piece is blank.
- The two bots differ in what they do before the graph runs:
  - The WhatsApp bot sends no greeting.
  - The Telegram `/start` command resets the chat's state.

## Model

| member | source | states |
|---|---|---|
| Agent.FormatBotResponse | scripts/main.py:20-25 | there is always at least one bubble to send |
| Agent.BubblesAreTrimmedParagraphs | scripts/main.py:20-25 | a blank reply is sent unchanged as its only bubble; otherwise every bubble is non-empty with no whitespace at either end; a reply without a blank line is one bubble, the reply stripped |
| Agent.FragmentsInOrder | scripts/main.py:20-25 | every bubble occurs verbatim in the reply, in order, without overlapping: bubbles are cut from the reply, never rewritten |
| Agent.NonBlankStripped | scripts/main.py:24 | the comprehension keeps no more bubbles than there are pieces |
| Agent.NonBlankStrippedShape | scripts/main.py:24 | every non-blank piece is kept, stripped, and everything kept is a stripped non-blank piece; nothing kept has whitespace at either end; nothing is kept exactly when every piece is blank |
| Agent.BlankIffPiecesBlank | scripts/main.py:24-25 | a reply is blank exactly when every piece of its split at blank lines is blank, so the fallback `[response_text]` is taken only for a blank reply |
| Agent.TemporalAnnex | scripts/main.py:33-49 | the loop over `range(1, 8)` builds the annex of the specification function: header, seven day lines, footer |
| Agent.AnnexListsNextSevenDays | scripts/main.py:41-48 | the annex is the header for today followed by one line for each of the seven dates after it, then the footer |
| Agent.ProjectedDates | scripts/main.py:42-43 | the projected dates are valid dates, exactly 1 to 7 days after today |
| Agent.ProjectedWeekdays | scripts/main.py:36-44 | the i-th projected day is named after the weekday i+1 days after today's, Monday first |
| Agent.ProjectionIsLinesFor | scripts/main.py:42-46 | after k rounds the annex holds exactly the lines of the first k projected dates |
| Agent.TwoDigits | scripts/main.py:41 | each field of `%H:%M:%S` is two decimal digits |
| Agent.SystemSlot | scripts/main.py:51-57 | slot 0 holds the fresh system prompt: it is created for an empty history, replaced when it is a system message, and inserted in front otherwise; the rest of the conversation is unchanged |
| Agent.AgentStep | scripts/main.py:27-70 | the agent node leaves the lead data and the phase alone and leaves a non-empty history |
| Agent.AgentStepReply | scripts/main.py:59-70 | the node fails exactly when the model call fails; otherwise the history is the prompt-refreshed one plus the model's turn, and the buffer is empty for a tool-call turn and the turn's bubbles otherwise |
| Agent.AgentStepConversation | scripts/main.py:51-69 | after a visit, slot 0 is the new prompt and the conversation is the old one plus exactly the model's turn |
| Agent.AgentNode | scripts/main.py:27-70 | the graph's agent node, built from the model, clock and persona, leaves a non-empty history and keeps the lead data and the phase whenever it does not raise |
| Agent.AgentNodeWellBehaved | scripts/main.py:27-70 | every visit of the graph's agent node, whatever the model, clock and persona, keeps the conversation and appends one model turn whose bubbles are in the buffer when it asks for no tools |
| Agent.RouteAfterAgent | scripts/main.py:72-79 | the graph goes to the tools node exactly when the last message carries tool calls |
| Agent.ToolsStep | scripts/main.py:86-97 | the tools node appends the tool node's answer to the last message after the whole history, and changes nothing else |
| Agent.ToolResultsMatchCalls | scripts/main.py:90-97 | with a tool node that answers each call, one tool message per call is appended, in call order, carrying the call's id |
| Agent.Run | scripts/main.py:99-109 | a run that finishes does so on a non-empty history whose last message routes to END |
| Agent.RunAdvances | scripts/main.py:104-106 | a visit that routes to the tools leaves the rest of the run to the state after the tools node, at the next visit |
| Agent.ReasoningStep | scripts/main.py:27-70 | the imperative agent node (in-place slot update, annex loop, one model call) computes the agent node of the graph |
| Agent.Invoke | scripts/main.py:99-109 | `graph.invoke` run as a loop of agent and tools visits gives the outcome of the graph's run |
| Agent.RunEndsOnPlainReply | scripts/main.py:72-79 | a finished run ends on a model turn that asks for no tools, its bubbles are in the buffer, the earlier conversation is kept as a prefix, and lead data and phase are unchanged |
| Agent.RunFuelIrrelevant | scripts/main.py:104-109 | once a run has finished or raised, more fuel gives the same outcome |
| Agent.AgentNodeAlwaysToTools | scripts/main.py:72-79 | with a model that always asks for tools, every visit routes to the tools node |
| Agent.NoBoundOnTheCycle | scripts/main.py:104-106 | the agent-tools cycle has no bound of its own: such a model never finishes, with any amount of fuel |
| Sessions.NonBlank | scripts/bot_telegram.py:63-64 | the delivery loop acts on the non-blank bubbles only |
| Sessions.Current | scripts/bot_telegram.py:38-46 | a chat without stored state starts from the fresh state |
| Sessions.Admitted | scripts/bot_telegram.py:46-49 | after admission the history ends with the human turn |
| Sessions.AdmittedKeepsExisting | scripts/bot_whatsapp.py:158-170 | an existing state gains exactly the human turn at the end and keeps its lead data, phase and buffer; a new chat starts with that one turn, no lead data, phase `Nueva` and an empty buffer |
| Sessions.HumanTurnClosesConversation | scripts/bot_telegram.py:49 | the human turn is the last turn of the conversation behind the system prompt, after the earlier turns |
| Sessions.FinishedRunAnswersMessage | scripts/bot_telegram.py:46-62 | when the graph finishes on an admitted message, the conversation holds the earlier turns, then the message, and ends on a model turn without tool calls whose bubbles are in the buffer |
| Telegram.TelegramMarkdown | scripts/bot_telegram.py:74 | `**` becomes `*`: never longer, and unchanged when there is no `**` |
| Telegram.BubbleAttempt | scripts/bot_telegram.py:63-79 | a blank bubble sends nothing; otherwise typing, then the Markdown reply, then a plain reply exactly when Markdown is refused; it raises exactly when the plain reply is refused too |
| Telegram.Delivery | scripts/bot_telegram.py:62-79 | delivery sends at most three events (typing, Markdown reply, plain reply) per non-blank bubble, all to the chat being answered |
| Telegram.DeliveryShowsNonBlankInOrder | scripts/bot_telegram.py:62-79 | when delivery does not raise, the chat shows one reply per non-blank bubble, in order, each in Markdown when accepted and plain otherwise, with one typing action each |
| Telegram.BlankBufferSendsNothing | scripts/bot_telegram.py:63-64 | a buffer of blank bubbles sends nothing at all |
| Telegram.RaiseEndsOnRefusedPlainSend | scripts/bot_telegram.py:75-79 | a delivery that raises ends on a refused Markdown reply followed by a refused plain reply |
| Telegram.DeliveryStopsAtRaise | scripts/bot_telegram.py:62-79 | once a bubble raises, no later bubble is sent |
| Telegram.AcceptedTextsAppend | scripts/bot_telegram.py:62-79 | the shown texts of two event logs in sequence are the shown texts of each, in order |
| Telegram.TelegramBot.Start | scripts/bot_telegram.py:20-30 | `/start` resets the chat's state to the fresh state and sends the greeting |
| Telegram.TelegramBot.Deliver | scripts/bot_telegram.py:62-79 | the delivery loop appends exactly the delivery's events and leaves memory alone |
| Telegram.TelegramBot.HandleMessage | scripts/bot_telegram.py:32-79 | a finished run is stored and its buffer delivered; a run that raises leaves the admitted state in memory and sends nothing |
| WhatsApp.NormalizePhone | scripts/bot_whatsapp.py:135-136 | a 13-character number starting `549` loses its `9`; any other number is unchanged |
| WhatsApp.NormalizePhoneIdempotent | scripts/bot_whatsapp.py:135-136 | normalising twice is normalising once |
| WhatsApp.CloseParen | scripts/bot_whatsapp.py:40 | the lazy url group ends at the first `)` with no line break before it |
| WhatsApp.AltEnd | scripts/bot_whatsapp.py:40 | the lazy alt group ends at the first `](` with no line break before it that is followed by a url group |
| WhatsApp.ImageAt | scripts/bot_whatsapp.py:40 | a match found at a position is a well-formed `![alt](url)` with no line break inside |
| WhatsApp.FindImage | scripts/bot_whatsapp.py:40 | `re.search` gives a match and no match starts earlier |
| WhatsApp.FindImageIsLeftmost | scripts/bot_whatsapp.py:40-42 | whenever the text contains an image pattern, the search finds one, at or before it |
| WhatsApp.Whole | scripts/bot_whatsapp.py:47 | `match.group(0)` occurs in the text where the match starts |
| WhatsApp.WhatsAppMarkdown | scripts/bot_whatsapp.py:81 | the `**` to `*` rewrite never lengthens the text |
| WhatsApp.Caption | scripts/bot_whatsapp.py:47-48 | the caption is shorter than the text, since the image block is removed |
| WhatsApp.SendPlan | scripts/bot_whatsapp.py:27-93 | every post goes from the configured phone id to the recipient; with a token and a phone id at least one post is made |
| WhatsApp.NoCredentialsNoPosts | scripts/bot_whatsapp.py:29-31 | without a token or a phone id nothing is posted |
| WhatsApp.SendPlanCases | scripts/bot_whatsapp.py:39-93 | without an image a single text post carries the rewritten text; with one, the first post is the image at its url, with the caption when it fits in 1000 characters, and otherwise without it and followed by the plan for the caption cut to 4096 characters |
| WhatsApp.CaptionsFit | scripts/bot_whatsapp.py:50-51 | no image is ever posted with a caption over 1000 characters |
| WhatsApp.TextPostOnlyLast | scripts/bot_whatsapp.py:59-63 | only the last post of a plan can be a text post |
| WhatsApp.TextAfterImageFits | scripts/bot_whatsapp.py:62 | a text post that follows an image has at most 4096 characters |
| WhatsApp.TextPostBounded | scripts/bot_whatsapp.py:81-87 | a text-only plan's body is no longer than the text |
| WhatsApp.ExpectedVerifyToken | scripts/bot_whatsapp.py:18 | the verify token is the configured one, or the built-in default |
| WhatsApp.VerifyWebhook | scripts/bot_whatsapp.py:95-108 | the challenge is echoed exactly when the mode is `subscribe` and the token matches; otherwise 403 |
| WhatsApp.DefaultTokenVerifies | scripts/bot_whatsapp.py:18 | with no token configured, only `ricardo_broker_secreto_2026` verifies |
| WhatsApp.Get | scripts/bot_whatsapp.py:123-126 | `dict.get` gives the value under the key, else the default |
| WhatsApp.Items | scripts/bot_whatsapp.py:124-125 | iterating a list gives its items |
| WhatsApp.ChangeOutcome | scripts/bot_whatsapp.py:126-145 | a change that starts a task starts it for a normalised phone number |
| WhatsApp.ScanChanges | scripts/bot_whatsapp.py:125-145 | a change starts at most one task |
| WhatsApp.WalkChanges | scripts/bot_whatsapp.py:125-145 | the inner loop collects the tasks of an entry's changes, in order, until one raises |
| WhatsApp.WalkEntries | scripts/bot_whatsapp.py:123-147 | the outer loop collects the tasks of every entry, in order, until one raises |
| WhatsApp.EntryScan | scripts/bot_whatsapp.py:124-147 | an entry that is not an object raises; an entry starts at most one task per change |
| WhatsApp.ScanEntries | scripts/bot_whatsapp.py:122-148 | the walk over the entries raises exactly when some entry raises |
| WhatsApp.InboundTasks | scripts/bot_whatsapp.py:122-148 | every task started carries a normalised phone number; a body that is not a WhatsApp business payload starts nothing |
| WhatsApp.HandleWebhook | scripts/bot_whatsapp.py:110-151 | a body that is not JSON is answered 400; anything else is answered 200 `ok`, starting the payload's tasks |
| WhatsApp.StopScan | scripts/bot_whatsapp.py:122-148 | an exception ends the walk: no later entry starts a task |
| WhatsApp.ScanChangesStop | scripts/bot_whatsapp.py:122-148 | an exception ends the walk: no later change starts a task |
| WhatsApp.ChangesNormalized | scripts/bot_whatsapp.py:133-145 | the tasks of a run of changes carry normalised numbers |
| WhatsApp.EntriesNormalized | scripts/bot_whatsapp.py:133-145 | the tasks of a run of entries carry normalised numbers |
| WhatsApp.TextPayloadStartsOneTask | scripts/bot_whatsapp.py:123-145 | a text message from Meta starts exactly one task, for the normalised sender and the text |
| WhatsApp.StatusUpdateStartsNothing | scripts/bot_whatsapp.py:128-129 | a status update (no `messages`) starts nothing |
| WhatsApp.PlansForSnoc | scripts/bot_whatsapp.py:181-189 | the posts for one more bubble are the earlier posts followed by that bubble's plan |
| WhatsApp.DeliveryIsPlansOfNonBlank | scripts/bot_whatsapp.py:180-189 | delivery posts the plans of the non-blank bubbles, in order |
| WhatsApp.NoCredentialsNoDelivery | scripts/bot_whatsapp.py:29-31 | without a token nothing in a buffer is posted |
| WhatsApp.WaDelivery | scripts/bot_whatsapp.py:180-189 | a buffer of blank bubbles posts nothing |
| WhatsApp.WhatsAppBot.Deliver | scripts/bot_whatsapp.py:180-189 | the delivery loop appends exactly the plans of the non-blank bubbles and leaves memory alone |
| WhatsApp.WhatsAppBot.Process | scripts/bot_whatsapp.py:153-189 | a finished run is stored and its buffer posted; a run that raises leaves the admitted state and posts nothing |
| SalesTools.FirstWith | scripts/tools.py:49-53 | the chosen sheet is the first whose lower-cased title contains the word |
| SalesTools.FirstWithIs | scripts/tools.py:49-53 | the first such sheet is unique: any index with that property is the one chosen |
| SalesTools.ChooseSheet | scripts/tools.py:49-53 | the loop with `break` finds the first sheet whose title contains the word, or none |
| SalesTools.ListingSheet | scripts/tools.py:47-53 | the listing sheet is the first sheet whose lower-cased title contains `propiedades`, or `propiedades` when no title does |
| SalesTools.LeadsSheet | scripts/tools.py:109-120 | the missing-tab error comes exactly when no title mentions `lead` and there is at most one sheet; otherwise the first sheet whose lower-cased title contains `lead`, or, when there is none, the second sheet's title |
| SalesTools.Padded | scripts/tools.py:70 | a short row is padded with empty cells to the header's width; a long row is kept |
| SalesTools.FieldsWithDefaults | scripts/tools.py:70-77 | after padding, a column inside the header reads the row's cell or an empty one |
| SalesTools.CleanPrice | scripts/tools.py:80-81 | a price without digits counts as 0 |
| SalesTools.CleanPriceOfDecimal | scripts/tools.py:80-81 | the digits of a written number read back as that number |
| SalesTools.ZoneMatchesIff | scripts/tools.py:84 | a row matches when no zone is asked, or when the lower-cased zone occurs somewhere in the lower-cased row zone |
| SalesTools.Found | scripts/tools.py:67-89 | no more entries than rows |
| SalesTools.FoundSnoc | scripts/tools.py:67-89 | one more row adds its entry exactly when it matches |
| SalesTools.ListRows | scripts/tools.py:67-89 | the loop over the rows builds the listing of the specification function |
| SalesTools.MatchIndices | scripts/tools.py:67-89 | the matching positions are rows of the sheet |
| SalesTools.FoundIsListedMatches | scripts/tools.py:84-88 | the k-th entry is the formatted k-th matching row |
| SalesTools.MatchIndicesIncrease | scripts/tools.py:67-88 | entries keep the order of the sheet |
| SalesTools.MatchIndicesComplete | scripts/tools.py:67-88 | every matching row is listed |
| SalesTools.ListingReply | scripts/tools.py:61-93 | an empty read answers that there is no data; a read with no matching row answers that there is nothing in the zone; otherwise the answer opens with the preamble and contains every matching entry |
| SalesTools.SomethingListedIffSomeMatch | scripts/tools.py:90-93 | the listing answer comes exactly when some row matches; otherwise the no-properties answer |
| SalesTools.NoZoneListsEveryRow | scripts/tools.py:84 | without a zone every data row is listed |
| SalesTools.HeaderOnlyListsNothing | scripts/tools.py:64-93 | a sheet with only a header answers that there are no properties in the zone |
| SalesTools.ConsultarPropiedades | scripts/tools.py:37-97 | an API failure becomes the database error message; otherwise the answer for the chosen sheet's values |
| SalesTools.LeadRow | scripts/tools.py:125-130 | the row is name, contact, zone, budget, the qualified status and the note with urgency and zone |
| SalesTools.Workbook.constructor | scripts/tools.py:99-107 | a workbook with the given sheets and nothing appended |
| SalesTools.Workbook.RegistrarLead | scripts/tools.py:99-144 | the missing-tab error appends nothing; a failure appends nothing and is reported; otherwise exactly the lead row is appended to the chosen sheet's A:F range |
| SalesTools.HalfHourAfter | scripts/tools.py:159 | the end is exactly 1800 seconds after the start, rolling over to the next day |
| SalesTools.NewAppointment | scripts/tools.py:158-181 | a new appointment lasts exactly 30 minutes, starts when asked and invites the client |
| SalesTools.Calendar.constructor | scripts/tools.py:184-188 | an empty calendar |
| SalesTools.Calendar.AgendarCita | scripts/tools.py:146-194 | a failure adds nothing and returns the error with the date hint; otherwise exactly the new 30-minute event is added; every event stays 30 minutes long |
| SalesTools.Calendar.ReagendarCita | scripts/tools.py:242-278 | a failed search or update changes nothing; no event found changes nothing; otherwise only the first event found is moved to the new start and 30 minutes later; every event stays 30 minutes long |
| SalesTools.Calendar.CancelarCita | scripts/tools.py:280-306 | a failed search or deletion changes nothing; no event found changes nothing; otherwise only the first event found is deleted; every event stays 30 minutes long |
| SalesTools.WorkingDaysHaveHours | scripts/tools.py:212-221 | every weekday has its own hours, named for the day; the `09:00 a 18:00` fallback is never used |
| SalesTools.BusyLines | scripts/tools.py:232-236 | one `De … a …` line per busy event, in order |
| SalesTools.HoursReply | scripts/tools.py:196-240 | a failure getting the service or parsing the date is reported first, weekend or not; a weekend day is turned away; a calendar failure is reported; otherwise the answer names the day, its working hours and every busy slot |
| SalesTools.WeekendIgnoresCalendar | scripts/tools.py:201-209 | on Saturday and Sunday the answer does not depend on the calendar, and it is an error report exactly when the service or the date failed |
| Validator.ValidateInput | scripts/modal_example.py:60-76 | an input is accepted exactly when it is not blank and has at most 10000 characters; a blank input is refused as empty whatever its length |
| Validator.ErrorReply | scripts/modal_example.py:184-188 | an error reply has status `error` and no data |
| Validator.Caught | scripts/modal_example.py:214-228 | a ValueError is reported as a validation error, anything else as a processing error, both without data |
| Validator.ProcessData | scripts/modal_example.py:155-228 | validation errors and a missing key come first; a failing model call, then a failing save, is reported through the except clauses with its own text; success comes exactly when the input is valid, the key present, the model call succeeds and (when asked) the file is saved; a success carries the model's output and token count, and a file path exactly when saving was asked |
| Validator.MissingKeyBeforeAi | scripts/modal_example.py:181-192 | a missing key is reported before the model is called: the reply does not depend on the model |
| Validator.ValidationBeforeKey | scripts/modal_example.py:177-188 | an invalid input is reported as a validation error whatever the key |
| Validator.EndpointAsWritten | scripts/modal_example.py:266-280 | as written, an error reply becomes a 500 whose detail is `400: ` and the message; any other reply is returned as it is |
| Validator.BlankRequestIsServerError | scripts/modal_example.py:266-280 | as written, a blank request is answered 500 with detail `400: Error de validación: …` |
| Validator.Endpoint | scripts/modal_example.py:266-280 | as intended, an error reply becomes a 400 whose detail is the message; any other reply is returned as it is |
| Validator.EndpointAnswers | scripts/modal_example.py:274-277 | as intended, a failed request is a 400 carrying the message, and a successful one returns the reply |
| Text.StripTrims | scripts/main.py:24 | `strip()` is empty exactly for a blank string; otherwise it is the string between the first and last non-space characters, and what it cuts off is blank |
| Text.StripIdempotent | scripts/main.py:24 | stripping twice is stripping once |
| Text.SplitJoin | scripts/main.py:24 | joining the pieces of a split with the separator gives the string back |
| Text.SplitPiecesFree | scripts/main.py:24 | no piece of a split contains the separator |
| Text.ReplaceIsJoinOfSplit | scripts/bot_telegram.py:74 | `replace` is the split at the pattern joined with the replacement |
| Text.Replace | scripts/bot_whatsapp.py:47-48 | replacing with something no longer never lengthens, and changes nothing when the pattern is absent |
| Text.ContainsIff | scripts/tools.py:84 | `in` holds exactly when the pattern occurs at some position |
| Text.JoinContains | scripts/tools.py:90-91 | a joined text contains each of its parts |
| Text.Find | scripts/bot_whatsapp.py:47 | the leftmost occurrence, and none before it |
| Text.Lower | scripts/tools.py:51 | `lower()` maps character by character |
| Text.DigitsOf | scripts/tools.py:80 | keeps digits only, and keeps an all-digit string unchanged |
| Text.DecimalRoundTrip | scripts/tools.py:80-81 | a number written in decimal reads back as itself |
| CivilCalendar.NextDate | scripts/main.py:43 | the next day is a valid date one day later |
| CivilCalendar.AddDays | scripts/main.py:43 | adding n days gives a valid date n days later |
| CivilCalendar.WeekdayAfter | scripts/main.py:43-44 | the weekday n days later is n steps further round the week |
| CivilCalendar.Weekday | scripts/tools.py:208 | `weekday()` lies in 0..6 |
| CivilCalendar.OrdinalMonotone | scripts/main.py:42-43 | a later date has a larger day number |
| CivilCalendar.OrdinalInjective | scripts/main.py:42-43 | two dates with the same day number are the same date |

## Left out

- The language model, the clock, the Google Sheets and Calendar services and the tool node's dispatch by name are parameters (oracles). Their network calls, credentials and authentication are not modelled.
- The LangGraph runtime has its own recursion limit. The model stops after a fuel bound instead, and treats running out of fuel like an exception.
- The `add_messages` reducer declared on the history (scripts/state.py:17) is not modelled: the model replaces the state's fields with what the node functions return. The reducer merges by message id and appends messages without one. The agent node's fresh system prompt has no id, so the reducer puts it after the stored history instead of at slot 0. Slot 0 of a stored history then holds the first human turn, every later visit takes the insert-in-front branch, and a new prompt accumulates on every visit. Agent.AgentStepConversation, Agent.RunEndsOnPlainReply, Sessions.HumanTurnClosesConversation and Sessions.FinishedRunAnswersMessage therefore describe the node functions' own results, not the history the runtime stores.
- Concurrency is not modelled: asyncio tasks, the interleaving of two chats, and the random 1–3 second delays. Each message is handled to completion.
- `datetime.fromisoformat` parsing is not modelled. The tools take already parsed dates and times, and a date that does not parse is one of the failures passed in: for SalesTools.HoursReply, the `setup` outcome, which is checked before the weekend test as in the source. Time zones and UTC offsets are not modelled; the GMT-3 annex and the `timeZone` fields of events are left out.
- Years are written in plain decimal without padding, as `{ahora.year}` does in the annex header. `strftime('%Y')`, used for the dates in tool answers, pads years below 1000 on some platforms; that padding is not modelled.
- Text.Lower: lower-cases ASCII and Latin-1 letters only, because full Unicode case mapping is out of scope.
- Text.DigitsOf: counts only ASCII digits. Python's `isdigit` also accepts characters such as `²`, on which `int()` then raises.
- JSON numbers other than integers are not modelled. A webhook body that is valid JSON but not an object is treated like any other payload that raises inside the walk.
- The price filter `presupuesto_maximo` is not modelled, because the source computes the clean price and never uses it.
- WhatsApp.SendPlan: the HTTP responses of the WhatsApp API are not modelled, and a post never fails. In the source a refused post is only logged, but a `requests.post` that raises ends delivery of the rest of the buffer, and the status of the image-only post is never checked.
- WhatsApp.WhatsAppBot.Deliver: posts every non-blank bubble's plan, because posts never raise in the model.
- Telegram.BubbleAttempt: the typing action never fails in the model. In the source a `send_chat_action` that raises ends delivery, like a refused plain reply.
- `KeyError` inside `obtener_horarios_disponibles` (an event without `start`) is one of the failures passed in.
- `process_with_ai`, `save_result_to_file`, the health endpoint and the local entry point are not modelled. The first two are outcomes passed to `process_data`.
- The interactive Google authorisation script is not part of this model.

## Findings

| source | as written | input that shows it | evidently intended | confidence | as-written member | corrected member |
|---|---|---|---|---|---|---|
| scripts/modal_example.py:274-280 | the `HTTPException(400)` for an error reply is raised inside the `try` block, so `except Exception` catches it and raises a 500 whose detail is `400: <message>` | a request whose `input_data` is blank | a 400 whose detail is the reply's message | medium, not executed | Validator.BlankRequestIsServerError | Validator.EndpointAnswers |
