# taiga_to_bpm, modelled in Dafny

The system is a Telegram bot over a Taiga project tracker and the Creatio CRM. It has three parts:

* **The report bot** (`bot_interface`). A per-chat conversation state machine. It offers the
  reports and commands a role is granted, and edits report queries and grants. It renders a report
  as a raw text, Markdown or PDF reply. Its `/commands` menu holds a receipt sub-machine that closes
  a project's tasks into a CRM receipt.
* **The CRM client** (`taiga_to_bpm`). It builds the Creatio OData URLs, classifies the CRM's
  answers, maps task rows into receipt items and pushes them.
* **The notification listener** (`notification_listener`). It turns a Taiga event payload into
  event, item, project and user records. It lets every claiming handler screen the event, formats an
  HTML message and sends it to the scrum masters. The older `telegram_sender.py` does the same job in
  one function, and is modelled separately.

Modelling choices:

* One Dafny module per source file. The helper modules are `Wrappers` (Option/Result), `Text`,
  `Json` (payload values with Python's `get`/`in`/`int`/truthiness) and `Storage`.
* Code that changes state is imperative Dafny:
  * The session store (`Sessions.SessionStore`) is a class over a map from `str(chat_id)` to the
    JSON dump of a `User`, plus the upsert table of bot users.
  * The report, grant and project tables (`Storage.Tables`) are a map, a set of (role, report)
    pairs and a list.
  * The Telegram bots (`BotInstance.Bot`, `NotificationSender.HtmlBot`) record the messages they
    send as a trace.
  * The CRM receipt service (`TopayCloser.ReceiptService`) records the calls made to it. It
    stands for a `Receipt` class the repository imports but does not define (see "Left out").
* Every bot handler has two parts:
  * a pure specification function that returns the turn it takes: the replies, the new
    database snapshot, the CRM calls and what it raises;
  * a method that takes that turn on the classes, proved against the function through the
    predicate `Handlers.Took`.

  The lemmas in `Handlers` state the transition table, fall-through cases included, on the
  functions.
* Query answers from Postgres are parameters of the handlers (`Handlers.World`). So are other
  answers from the outside world, such as a CRM response, the result of a JSON decode, or a Taiga
  user row.

Several behaviours of the code are kept as written:

* `edit_report_query` stores the *command value* 4 as the report id
  (bot_interface/handlers.py:345-346). The query that is edited is therefore report 4's, whatever
  report was selected. `Handlers.QueryEditTargetsCommandValue` states this.
* The bare-number buttons that `edit_report` and `edit_report_permissions` build are claimed by
  neither callback filter. Both filters want a `main#` or `topay_closer#` prefix
  (`TopayCloser.MainButtonsAreNotClaimed`, `TopayCloser.ProjectButtonsAreClaimed`).
* `get_object_collection` joins every option with `?`. OData's query-string syntax (section 5.1
  of OData Version 4.0 Part 2: URL Conventions) joins the second and later options with `&`
  (`Creatio.QueryStringIsNotOdata51`).
* The legacy sender may get a payload whose `data` has no `project`. Line 224 then fails inside the
  `try`, and line 463 reads an unbound `user`. The call raises and nobody is messaged
  (`LegacySender.MissingProjectIsRaised`).
* The listener claims an event by its type prefix (`tasks.task.` or `userstories.userstory.`). It
  does not stop at the first handler that claims it.

## Model

| member | source | states |
|---|---|---|
| BotInstance.ListButtons | bot_interface/bot_instance.py:20-37 | one row per entry, in order, each button showing the entry's name and carrying `prefix + str(id)` |
| BotInstance.CallbackValue | bot_interface/handlers.py:165 | `int(data.split("#")[1])`: a payload without `#` raises `list index out of range`, and a non-integer part raises `invalid literal for int() with base 10: ` followed by that part's `repr`; the round-trip lemmas below give the value of every button the bot builds |
| BotInstance.CallbackValueOfButton | bot_interface/bot_instance.py:34-35 | parsing the payload of a button built with a `#`-terminated prefix gives back the entry's id |
| BotInstance.MainButtonsRoundTrip | bot_interface/bot_instance.py:34-35 | every `main#` button of a menu parses back to its row's id |
| BotInstance.ReplaceReservedCharactersIsEscape | bot_interface/bot_instance.py:40-60 | the chain of `replace` calls equals the per-character MarkdownV2 escape map |
| BotInstance.EscapeLength | bot_interface/bot_instance.py:40-60 | the escaped text is longer by exactly the number of reserved characters |
| BotInstance.EscapeWithoutReserved | bot_interface/bot_instance.py:40-60 | a text without reserved characters is returned unchanged |
| BotInstance.EscapeAppend | bot_interface/bot_instance.py:40-60 | escaping distributes over concatenation |
| BotInstance.Bot.SendMessage | bot_interface/handlers.py:217-238 | a message (with or without buttons) is appended to the trace of sent messages |
| BotInstance.Bot.SendDocument | bot_interface/report_generator.py:130-136 | a document is appended to the trace |
| BotInstance.Bot.DeleteMessage | bot_interface/handlers.py:162 | a deletion is appended to the trace |
| BotInstance.Bot.RegisterNextStep | bot_interface/handlers.py:376-378 | the wait for the chat's next message is appended to the trace |
| Sessions.NewUser | core/models.py:22-28 | a fresh user keeps its chat id, names and state, with the pending value, last message and report `None` |
| Sessions.LoadDumpUser | core/models.py:31-41 | loading the JSON dump of a user gives back the same user, every field equal |
| Sessions.KeysDiffer | core/models.py:41 | distinct chat ids have distinct store keys |
| Sessions.LookupAfterStore | core/models.py:31-41 | after saving a user, getting its chat id returns that user |
| Sessions.LookupOtherAfterStore | core/models.py:41 | saving one user leaves every other chat id's entry unchanged |
| Sessions.LookupWellFormed | core/models.py:31-35 | in a store of valid dumps, a chat id finds a user exactly when its key is present, and that user is valid and carries the chat id |
| Sessions.SetStatePreserves | core/models.py:59-65 | the chat's user gets the new state (a new user holding only that state when none was stored), and other chats are unchanged |
| Sessions.SessionStore.GetFromRedis | core/models.py:31-35 | `None` when nothing is stored under `str(chat_id)`, otherwise the stored user |
| Sessions.SessionStore.SaveToRedis | core/models.py:37-41 | the entry under the user's own key becomes its dump; the rest is unchanged |
| Sessions.SessionStore.SaveToDb | core/models.py:43-57 | upsert keyed by `telegram_id`: the row gets the name, full name and dump; the session entries are untouched |
| Sessions.SessionStore.SetState | core/models.py:59-65 | load-modify-store of `bot_state`; an unknown chat gets a new user holding only that state; the bot-user table is untouched |
| Storage.WithQuery | bot_interface/handlers.py:381-399 | only the selected report's query changes, and the set of reports stays the same |
| Storage.Tables.UpdateQuery | bot_interface/handlers.py:392-395 | the `UPDATE` of one report's query; grants and finished projects are untouched |
| Storage.Tables.InsertGrant | bot_interface/handlers.py:591-597 | the (role, report) grant is added; nothing else changes |
| Storage.Tables.DeleteGrant | bot_interface/handlers.py:610-616 | the (role, report) grant is removed; nothing else changes |
| Storage.Tables.FinishProject | bot_interface/topay_closer.py:133-146 | the project is marked finished; nothing else changes |
| Handlers.UnhandledStates | bot_interface/handlers.py:68-129 | any state outside the dispatch table replies "Error: unknown state" and changes nothing |
| Handlers.QueryStateIsUnhandled | bot_interface/handlers.py:124-129 | the query-editing state has no router case and falls through to "Error: unknown state" |
| Handlers.CommandChoice | bot_interface/handlers.py:78-95 | in the commands menu, value 1 enters the receipt flow in state STARTED, value 2 opens report editing, anything else is "Error: unknown command" |
| Handlers.EditorChoices | bot_interface/handlers.py:102-118 | an unknown value on the report card is "Error: unknown command"; on the permissions card it falls through to "Error: unknown state" |
| Handlers.CardChoices | bot_interface/handlers.py:102-112 | the report card dispatches value 3 to the permissions editor and value 4 to the query editor |
| Handlers.MenusOfferGrantedRows | bot_interface/handlers.py:211-263 | an empty menu changes nothing; otherwise one button per granted row and the chat moves to the menu's output state |
| Handlers.MainButtonsNameTheirRows | bot_interface/handlers.py:220-224 | each menu button shows its row's name and its payload parses back to the row's id |
| Handlers.NothingSelectedChangesNothing | bot_interface/handlers.py:266-293 | every editor handler answers "No report selected" and changes nothing when no report value is pending |
| Handlers.EditReportSavesOnlyFound | bot_interface/handlers.py:288-336 | a missing report is "Error: report not found"; a found one becomes the session's report and the card state, and the tables are untouched |
| Handlers.GrantEdits | bot_interface/handlers.py:585-620 | adding puts exactly that grant in the set, removing takes it out, and the sessions are untouched |
| Handlers.QueryEditTargetsCommandValue | bot_interface/handlers.py:339-378 | the query editor stores the command value 4 as the report id, so the next message rewrites report 4's query |
| Handlers.NextStepAfterStore | bot_interface/handlers.py:381-399 | the next message becomes the stored report's query, and "Query updated" is replied |
| Handlers.OnlyReportsRaise | bot_interface/handlers.py:68-129 | only the report-output state can raise; every other route completes |
| Handlers.CommandsRaiseNothing | bot_interface/handlers.py:78-95 | the commands-menu routes never raise |
| Handlers.EditorRaisesNothing | bot_interface/handlers.py:100-122 | the editor routes never raise |
| Handlers.ShowAllowedReports | bot_interface/handlers.py:211-238 | the reports menu turn is taken on the store, bot and tables |
| Handlers.ShowAllowedCommands | bot_interface/handlers.py:241-263 | the commands menu turn is taken |
| Handlers.EditReports | bot_interface/handlers.py:266-285 | the report-list turn of the editor is taken |
| Handlers.EditReport | bot_interface/handlers.py:288-336 | the report-card turn is taken |
| Handlers.EditReportQuery | bot_interface/handlers.py:339-378 | the query-prompt turn is taken, including the wait for the next message |
| Handlers.EditReportPermissions | bot_interface/handlers.py:402-477 | the permissions-card turn is taken: the allowed and other roles printed as `str()` of one-column rows, each name by its `repr` |
| Handlers.EditReportPermissionsAdd | bot_interface/handlers.py:480-531 | the turn offering unallowed roles is taken |
| Handlers.EditReportPermissionsRemove | bot_interface/handlers.py:534-582 | the turn offering allowed roles is taken |
| Handlers.EditReportPermissionsAddRole | bot_interface/handlers.py:585-601 | the grant insert turn is taken |
| Handlers.EditReportPermissionsRemoveRole | bot_interface/handlers.py:604-620 | the grant delete turn is taken |
| Handlers.GenerateReport | bot_interface/handlers.py:98-99 | the report turn is taken and the method raises exactly what the turn raises |
| Handlers.CloseTopay | bot_interface/handlers.py:86-88 | entering the receipt flow takes the receipt router's turn |
| Handlers.Router | bot_interface/handlers.py:68-129 | `router` takes the turn of the whole dispatch table and raises what it raises |
| Handlers.CommandRouter | bot_interface/handlers.py:78-95 | the commands-menu branch of the router |
| Handlers.EditorRouter | bot_interface/handlers.py:100-122 | the editor branches of the router |
| Handlers.CardRouter | bot_interface/handlers.py:102-112 | the report-card branch |
| Handlers.PermissionsRouter | bot_interface/handlers.py:113-118 | the permissions-card branch |
| Handlers.GrantRouter | bot_interface/handlers.py:119-122 | the add-role and remove-role branches |
| Handlers.Session | bot_interface/handlers.py:137-144 | an existing session is reused; otherwise a new user for the sender is created and saved |
| Handlers.CommandStart | bot_interface/handlers.py:173-182 | `/start` upserts the bot user, starts the reports menu and takes its turn |
| Handlers.MenuCommand | bot_interface/handlers.py:136-147 | a menu command loads or creates the session, sets the menu state and routes |
| Handlers.CommandReports | bot_interface/handlers.py:136-147 | `/reports` routes in state REPORTS_I |
| Handlers.CommandCommands | bot_interface/handlers.py:198-208 | `/commands` routes in state COMMANDS_I |
| Handlers.CommandMyId | bot_interface/handlers.py:189-191 | `/myid` replies the sender's id as text |
| Handlers.CallbackQuery | bot_interface/handlers.py:150-166 | a `main#` button press deletes the menu, stores the parsed value and routes |
| Handlers.EditReportQueryNextStep | bot_interface/handlers.py:381-399 | the awaited message updates the stored report's query |
| TopayCloser.ProjectButtonsAreClaimed | bot_interface/topay_closer.py:70-86 | every `topay_closer#` project button is claimed by the receipt callback filter and parses back to its project id |
| TopayCloser.MainButtonsAreNotClaimed | bot_interface/topay_closer.py:70 | no `main#` payload is claimed by the receipt filter |
| TopayCloser.ReceiptService.New | bot_interface/topay_closer.py:104 | `Receipt.new` is recorded and answers the service's given outcome |
| TopayCloser.ReceiptService.Push | bot_interface/topay_closer.py:119 | `push_to_creatio` is recorded and answers the service's given outcome |
| TopayCloser.PushesAllGoThrough | bot_interface/topay_closer.py:117-130 | when no push fails every task is pushed, in order, each announced, and the loop completes |
| TopayCloser.PushesStopAtFirstFailure | bot_interface/topay_closer.py:117-130 | the pushes up to and including the first failing task are made, its error is reported, and no later task is pushed |
| TopayCloser.PushesCompleteIffNoneFails | bot_interface/topay_closer.py:117-130 | the push loop completes exactly when no task fails |
| TopayCloser.ReceiptFlowAnnouncesFirst | bot_interface/topay_closer.py:92-100 | the flow first replies "Creating receipt" and always replies at least once more |
| TopayCloser.NoProjectNoWork | bot_interface/topay_closer.py:92-100 | a project id `None` or 0 requests the reply "Error: project_id is None", with no CRM call and no project finished |
| TopayCloser.NoTasksNoCrm | bot_interface/topay_closer.py:101-115 | a failed or empty task fetch reports its error (`list index out of range` for none) with no CRM call |
| TopayCloser.FinishedOnlyAfterAllPushes | bot_interface/topay_closer.py:117-151 | the project is marked finished exactly when it exists, has tasks, the receipt was created and every push went through; the last reply is then the escaped receipt URL |
| TopayCloser.ReceiptBeforePushes | bot_interface/topay_closer.py:101-130 | the first CRM call creates the receipt; the pushes follow only when it was created |
| TopayCloser.PushAll | bot_interface/topay_closer.py:117-130 | the `for task in tasks` loop sends the specified replies and makes the specified calls, and reports whether it completed |
| TopayCloser.CreateNewReceipt | bot_interface/topay_closer.py:89-151 | `create_new_receipt` sends, calls and finishes exactly what the receipt flow specifies, and leaves reports and grants alone |
| TopayCloser.ProjectListOffersEveryProject | bot_interface/topay_closer.py:154-179 | nothing is saved exactly when there are no projects; otherwise the user is saved in PROJECT_SELECTED and each project gets one button, in order |
| TopayCloser.ShowProjectList | bot_interface/topay_closer.py:154-179 | `show_project_list` sends the list and saves the session as specified |
| TopayCloser.RouteTransitions | bot_interface/topay_closer.py:54-67 | STARTED shows the projects, PROJECT_SELECTED creates the receipt, anything else is "Error: unknown state" |
| TopayCloser.Router | bot_interface/topay_closer.py:54-67 | the receipt router sends, saves, calls and finishes exactly what its table specifies |
| TopayCloser.CallbackQuery | bot_interface/topay_closer.py:70-86 | an unknown conversation gets "Error: conversation not found, restart your command"; an unparsable payload raises after the list is deleted; otherwise the pressed value is stored and routed |
| Creatio.ServiceLink | taiga_to_bpm/creatio.py:15 | the OData service link starts with the host |
| Creatio.KeyUrlInjective | taiga_to_bpm/creatio.py:77-86 | an object URL names one id: equal URLs mean equal ids |
| Creatio.OptionTexts | taiga_to_bpm/creatio.py:98-100 | each option becomes `$` followed by it, one per option, in order |
| Creatio.BuildQueryString | taiga_to_bpm/creatio.py:98-120 | the `_params` loop builds the specified query string |
| Creatio.SingleOptionAgrees | taiga_to_bpm/creatio.py:98-120 | with one option the query string is the OData one |
| Creatio.SecondOptionStartsWithQuestionMark | taiga_to_bpm/creatio.py:98-120 | the second option is introduced by `?` |
| Creatio.QueryStringIsNotOdata51 | taiga_to_bpm/creatio.py:98-120 | with two or more options the query string differs from the OData form, which joins them with `&` |
| Creatio.CreateResultCases | taiga_to_bpm/creatio.py:53-73 | `None` exactly for a v3 body without `d`; an undecodable answer gives the error record with url, headers, data, version and status; v4 returns the body |
| Creatio.FormsAuthSucceedsIffCodeIsZero | taiga_to_bpm/creatio.py:24-38 | login is authenticated exactly when the answer's `Code` is 0, and then keeps the cookies |
| Creatio.Client.Connect | taiga_to_bpm/creatio.py:12-38 | the test version, whose headers are the text "test" (taiga_to_bpm/creatio_constants.py:38), raises "'str' object has no attribute 'items'" before any request; otherwise a refused login raises the server's message, a login without the `BPMCSRF` cookie raises, and a successful one returns the connected client and writes the cookie into the shared headers, which change in no other case |
| Creatio.Client.Make | taiga_to_bpm/creatio.py:12-22 | the client keeps host, version, headers and cookies, has the version's service link and has made no request |
| Creatio.Client.CreateObject | taiga_to_bpm/creatio.py:40-73 | one POST of the data to the collection URL, and its answer classified |
| Creatio.Client.DeleteObject | taiga_to_bpm/creatio.py:75-93 | the test version is refused with "ODATA version is not supported" and no request; otherwise one DELETE to the object URL |
| Creatio.Client.GetObjectCollection | taiga_to_bpm/creatio.py:95-121 | the test version answers `[None]` with no request; v3 fetches `…Collection` plus the query string and reads `d.results`; v4 fetches `…` plus the query string and reads `value` |
| Creatio.Client.GetObjectById | taiga_to_bpm/creatio.py:123-146 | the test version answers `None` with no request; otherwise one fetch of the object URL, read from `d` for v3 |
| Creatio.Client.GetCreatioContactId | taiga_to_bpm/creatio.py:156-183 | one request to the ContactCommunication collection filtered by channel and number, and the first contact's id |
| Creatio.Client.PostReceipt | taiga_to_bpm/creatio.py:185-190 | one POST of `SLTrelloDeskId` to the SLReceipt collection, and its answer classified |
| Creatio.ContactIdCases | taiga_to_bpm/creatio.py:176-183 | the test answer gives no contact; a v4 answer gives its first contact's `ContactId` |
| Creatio.ContactFilterGuidOnlyForV3 | taiga_to_bpm/creatio.py:162-175 | v3 compares the channel as `guid'…'`, v4 compares it bare |
| CreatioWorker.RowToTask | taiga_to_bpm/creatio_worker.py:148-161 | a row maps to a task exactly when it has at least nine columns |
| CreatioWorker.RowsToTasksMapsColumns | taiga_to_bpm/creatio_worker.py:146-162 | rows of nine columns map to as many tasks, in order, column by column |
| CreatioWorker.GetTasks | taiga_to_bpm/creatio_worker.py:114-162 | a missing database URL is an error; otherwise the tasks are the row mapping |
| CreatioWorker.ErrorStays | taiga_to_bpm/creatio_worker.py:146-162 | once a prefix of the rows fails, the whole mapping fails with that error |
| CreatioWorker.ApiVersion | taiga_to_bpm/creatio_worker.py:23-33 | accepted exactly for "v3", "v4" and "v4core"; otherwise "Unknown API version: <name>" |
| CreatioWorker.ItemsAllAccepted | taiga_to_bpm/creatio_worker.py:49-70 | when the CRM accepts every item there is one POST per task, in order, and "Success" |
| CreatioWorker.ItemsStopAtFirstRefusal | taiga_to_bpm/creatio_worker.py:49-64 | the items up to and including the first refused one are posted, and the run fails with its refusal: for a falsy answer "Task not created: data=" and the item's `repr`, its keys in the literal's order (`CreatioWorker.ItemRepr`) |
| Json.StrReprPlain | taiga_to_bpm/creatio_worker.py:64 | `repr` of a text without quotes, backslashes or control characters is that text between single quotes |
| Json.EscapedHasNoBareQuote | taiga_to_bpm/creatio_worker.py:64 | inside a string's `repr`, every occurrence of the chosen quote is preceded by a backslash |
| Json.First | taiga_to_bpm/creatio.py:176-179 | `x[0]` succeeds exactly on a non-empty list (its first item) or a non-empty string (its first character) |
| CreatioWorker.NoTasksNoRequests | taiga_to_bpm/creatio_worker.py:15-18 | no tasks means no CRM request and nothing to close |
| CreatioWorker.UnknownVersionNoRequests | taiga_to_bpm/creatio_worker.py:29-33 | an unknown version fails with "Unknown API version" before any CRM request |
| CreatioWorker.ReceiptBeforeItems | taiga_to_bpm/creatio_worker.py:41-64 | the receipt is posted before any item, and a failed receipt stops everything |
| CreatioWorker.PushItems | taiga_to_bpm/creatio_worker.py:49-65 | the item loop makes exactly the specified requests and ends with the specified outcome |
| CreatioWorker.Submit | taiga_to_bpm/creatio_worker.py:41-70 | the receipt and then its items are posted as specified |
| CreatioWorker.CreateReceipt | taiga_to_bpm/creatio_worker.py:15-70 | `create_receipt` makes exactly the specified requests and ends with the specified outcome |
| CreatioWorker.ConnectAndSubmit | taiga_to_bpm/creatio_worker.py:35-70 | login, then the submission, as specified |
| Decimals.ParseToString | bot_interface/report_generator.py:94-100 | parsing the text of a plain-notation decimal gives it back |
| Decimals.AddValue | bot_interface/report_generator.py:97-98 | decimal addition is exact: the value of the sum is the sum of the values |
| Decimals.RescaleValue | bot_interface/report_generator.py:97-98 | aligning exponents keeps the value |
| ReportGenerator.RewriteCells | bot_interface/report_generator.py:83-117 | the nested loops rewrite each cell in place to its converted form |
| ReportGenerator.ConvertedKeepsTruthiness | bot_interface/report_generator.py:83-89 | converting a cell keeps whether it is truthy, and a truthy cell becomes text |
| ReportGenerator.ConvertedIdempotent | bot_interface/report_generator.py:83-89 | converting twice is converting once |
| ReportGenerator.UrlBecomesLink | bot_interface/report_generator.py:107-117 | a URL cell becomes `[link](url)` |
| ReportGenerator.TextIsEscaped | bot_interface/report_generator.py:107-117 | a non-URL text cell is MarkdownV2-escaped |
| ReportGenerator.FalsyCellUnchanged | bot_interface/report_generator.py:107-117 | a falsy non-text cell is left as it is |
| ReportGenerator.TotalIsSum | bot_interface/report_generator.py:94-100 | the total is the exact sum of the cells that parse as decimals |
| ReportGenerator.TotalHasFraction | bot_interface/report_generator.py:94-100 | the total starts from `Decimal("0.0")`, so it keeps at least one decimal place |
| ReportGenerator.NothingToAdd | bot_interface/report_generator.py:94-100 | when no last cell parses the footer total reads "0.0" |
| ReportGenerator.NoSummands | bot_interface/report_generator.py:94-100 | when no last cell parses the total is the starting zero |
| ReportGenerator.ComputeTotal | bot_interface/report_generator.py:94-100 | the `total +=` loop computes the specified sum |
| ReportGenerator.FooterShape | bot_interface/report_generator.py:101-104 | the footer exists exactly when there are columns; it has one cell per column, "Total" first, the total last, "-" between |
| ReportGenerator.BuildFooter | bot_interface/report_generator.py:101-104 | the footer mutation by index builds that row |
| ReportGenerator.RawTextAppend | bot_interface/report_generator.py:155-165 | the raw text of two row runs is their texts in turn |
| ReportGenerator.RawLineEndsWithBreak | bot_interface/report_generator.py:155-165 | each raw line ends with a line break |
| ReportGenerator.BuildRawText | bot_interface/report_generator.py:155-165 | the raw loop builds exactly that text |
| ReportGenerator.ReplyGuards | bot_interface/report_generator.py:43-77 | no selected report, a report missing from the database and an empty result each give their fixed reply |
| ReportGenerator.NoColumnsRaises | bot_interface/report_generator.py:101-104 | a non-empty result with no columns raises `list assignment index out of range` |
| ReportGenerator.ReplyGoesToChat | bot_interface/report_generator.py:37-167 | the reply is a message or a document to the requesting chat |
| ReportGenerator.PdfReport | bot_interface/report_generator.py:120-136 | the PDF engine fails without a slug; otherwise pandoc converts a source that opens with the front matter and the title, the report succeeds exactly when that conversion does and then sends `<slug>.pdf` holding pandoc's output, and pandoc's error is the report's error |
| ReportGenerator.PandocSourceOpens | bot_interface/report_generator.py:120-136 | the pandoc source opens with the front matter and the title heading |
| ReportGenerator.MdReport | bot_interface/report_generator.py:138-153 | the MD engine sends the rendered table of names, rows and footer inside a code block |
| ReportGenerator.GenerateReport | bot_interface/report_generator.py:37-167 | `generate_report` sends the specified reply, or nothing when it raises |
| PdfOutput.AppendLine | bot_interface/pdf_output.py:56-61 | the `table +=` loop over cells adds the specified line |
| PdfOutput.AppendRule | bot_interface/pdf_output.py:62-68 | the loop over headers adds the specified rule line |
| PdfOutput.ArrayToMdTable | bot_interface/pdf_output.py:47-89 | `array_to_md_table` builds the specified table |
| PdfOutput.RuleLength | bot_interface/pdf_output.py:56-68 | the rule is as long as the header line |
| PdfOutput.RuleFollowsBars | bot_interface/pdf_output.py:62-68 | the rule has `|` where the header line has one, and its fill character elsewhere |
| PdfOutput.LineOverBars | bot_interface/pdf_output.py:56-61 | the header line's separators stand exactly at its bar positions |
| PdfOutput.LineFollowsBars | bot_interface/pdf_output.py:56-68 | the bar positions lie within the line and each holds `|` |
| PdfOutput.TableOpensWithHeaderLine | bot_interface/pdf_output.py:55-61 | the table starts with a line break, then the header line and a line break |
| PdfOutput.ReportOpensWithTitle | bot_interface/pdf_output.py:20 | the report starts with `# title` and a blank line |
| PdfOutput.TableEndsWithFooter | bot_interface/pdf_output.py:84-89 | the table ends with a line break followed by the footer line |
| NotificationModels.EventDataField | notification_listener/domain/event/models.py:17-27 | a missing or falsy `data` is empty; a string is decoded, empty when it does not decode; anything else is kept |
| NotificationModels.EventFromDict | notification_listener/domain/event/models.py:12-32 | a dict gives the event, with type "unknown" when `event_type` is absent; anything else raises |
| NotificationModels.MemberFromDict | notification_listener/domain/common/models.py:14-25 | a `None` id raises "User ID cannot be None"; otherwise the member with its id, username (default empty), full name and Telegram id |
| NotificationModels.ProjectFromDict | notification_listener/domain/project/models.py:14-25 | a `None` id raises "Project ID cannot be None"; otherwise the project with its id, name (default "Проект"), slug and description |
| NotificationModels.TaigaUserFromDict | notification_listener/domain/user/models.py:14-27 | a `None` id raises "TaigaUser ID cannot be None"; otherwise the user, with its Telegram id converted when present |
| NotificationModels.DisplayName | notification_listener/domain/user/models.py:29-35 | full name, else username, else "Пользователь #id" |
| NotificationModels.PartyOf | notification_listener/domain/task/models.py:25-33 | a member only for a truthy dict under the key; otherwise none |
| NotificationModels.MilestoneOf | notification_listener/domain/task/models.py:35-40 | none for a falsy milestone, its `name` when it is a dict with one, its text otherwise |
| NotificationModels.ProjectIdOf | notification_listener/domain/task/models.py:51-58 | the id of a `project` dict, else `project_id`, else none |
| NotificationModels.ItemFromDict | notification_listener/domain/task/models.py:22-70 | assignee, owner, id and reference errors in that order; otherwise the item with its fields and defaults |
| NotificationEvents.CreateEvent | notification_listener/infrastructure/event_factory.py:17-34 | the parsed event, or the "unknown" event when parsing raises |
| NotificationEvents.FallbackIsEmptyPayload | notification_listener/infrastructure/event_factory.py:31-34 | the fallback is exactly what an empty payload parses to |
| NotificationEvents.FallbackIsUnclaimed | notification_listener/infrastructure/handlers/task_handler.py:44 | neither handler claims the fallback event |
| NotificationEvents.ClaimingMembership | notification_listener/domain/event/usecases.py:26-28 | a handler runs exactly when it is listed and claims the event |
| NotificationEvents.ClaimingExtremes | notification_listener/domain/event/usecases.py:26-28 | no claimer means nothing runs; all claiming means all run, in order |
| NotificationEvents.ProcessEventUseCase.Execute | notification_listener/domain/event/usecases.py:20-28 | the claiming handlers run in list order; a non-text event type raises exactly when there is a handler to ask, and then nothing runs |
| NotificationEvents.EventProcessor.Process | notification_listener/application/event_processor.py:28-44 | one event, one run of the use case, and nothing escapes |
| NotificationEvents.UnreadablePayloadRunsNothing | notification_listener/infrastructure/event_factory.py:31-34 | a payload that does not parse runs no handler |
| NotificationHandlers.CanHandle | notification_listener/infrastructure/handlers/task_handler.py:35-44 | claimed exactly when the event type is text starting with the kind's prefix; a non-text type raises |
| NotificationHandlers.ClaimsAreDisjoint | notification_listener/infrastructure/handlers/task_handler.py:35-44 | no event is claimed by both kinds |
| NotificationHandlers.Screen | notification_listener/infrastructure/handlers/task_handler.py:52-87 | accepted exactly when item, project and user are present and parse and the user is found; the outcome then carries them |
| NotificationHandlers.MissingDataBeforeParsing | notification_listener/infrastructure/handlers/task_handler.py:57-76 | a missing item, project or user is warned about, before any parsing |
| NotificationHandlers.ServiceCallOf | notification_listener/infrastructure/handlers/task_handler.py:89-95 | create, change and delete events call their service method; other types call none |
| NotificationHandlers.EventHandler.Handle | notification_listener/infrastructure/handlers/task_handler.py:46-100 | `handle` makes exactly the specified service calls and deliveries |
| NotificationHandlers.AcceptedIsNotified | notification_listener/infrastructure/handlers/task_handler.py:98 | an accepted event other than a change is notified with the author skipped; types other than create and delete call no service |
| NotificationHandlers.RejectedIsSilent | notification_listener/infrastructure/handlers/task_handler.py:57-87 | a rejected event calls no service and sends nothing |
| NotificationHandlers.ServiceLog.Record | notification_listener/infrastructure/handlers/task_service.py:14-56 | the call is appended to the log and its error is the service's answer |
| NotificationUseCases.AudienceMembership | notification_listener/domain/task/usecases.py:52-59 | a recipient is messaged exactly when it is not the skipped author |
| NotificationUseCases.AudienceEveryone | notification_listener/domain/task/usecases.py:52-59 | without skipping, or with an author lacking a Telegram id, everyone is messaged |
| NotificationUseCases.NotifyChangeUseCase.Execute | notification_listener/domain/task/usecases.py:28-59 | format once, then one delivery per messaged recipient |
| NotificationUseCases.NotifyChangeUseCase.SendToRecipients | notification_listener/domain/task/usecases.py:55-59 | the loop with its `continue` delivers to exactly the audience |
| NotificationUseCases.ExecuteMessages | notification_listener/domain/userstory/usecases.py:29-60 | every delivery carries the one message; a chat gets it exactly when it is a non-skipped recipient and the bot accepts that message for it |
| NotificationSender.Recipients | notification_listener/infrastructure/telegram/notification_sender.py:42-44 | only truthy Telegram ids, no more than there are users |
| NotificationSender.RecipientsMembership | notification_listener/infrastructure/telegram/notification_sender.py:42-44 | an id is a recipient exactly when it is truthy and some user carries it |
| NotificationSender.TelegramNotificationSender.GetRecipients | notification_listener/infrastructure/telegram/notification_sender.py:31-45 | the filtered ids of the scrum masters, empty when there are none |
| NotificationSender.TelegramNotificationSender.SendMessage | notification_listener/infrastructure/telegram/notification_sender.py:47-60 | at most one delivery, and a failure is swallowed |
| NotificationSender.HtmlBot.SendMessage | notification_listener/infrastructure/telegram/notification_sender.py:55 | delivered exactly when the bot accepts this text for this chat; a refused send is recorded as not sent and adds nothing to the trace |
| NotificationSender.SentDeliveries | notification_listener/infrastructure/telegram/notification_sender.py:47-60 | every delivery carries the text; a chat gets it exactly when it is sent to and the bot accepts that text for it |
| NotificationFormatter.EventDescription | notification_listener/infrastructure/telegram/notification_formatter.py:45-54 | the fixed text of a known type, "Событие: <type>" for another scalar, and a raise for a list or dict |
| NotificationFormatter.GenerateUrl | notification_listener/infrastructure/telegram/notification_formatter.py:56-71 | base URL, then `/project/<slug>` when there is a slug, then `/<type>/<ref>` when there is also a reference |
| NotificationFormatter.FormatNotification | notification_listener/infrastructure/telegram/notification_formatter.py:73-159 | `format_*_notification` returns the specified text |
| NotificationFormatter.FormatChangesDescription | notification_listener/infrastructure/telegram/notification_formatter.py:161-313 | `format_changes_description` returns the specified lines |
| NotificationFormatter.CollectAttributeLines | notification_listener/infrastructure/telegram/notification_formatter.py:277-311 | the custom-attribute loop returns the specified lines |
| NotificationFormatter.CustomAttributeLines | notification_listener/infrastructure/telegram/notification_formatter.py:277-311 | the custom-attribute block returns the specified lines |
| NotificationFormatter.AttributeLinesStop | notification_listener/infrastructure/telegram/notification_formatter.py:277-311 | the first custom attribute that raises makes the whole block raise with its error |
| NotificationFormatter.MessageLayout | notification_listener/infrastructure/telegram/notification_formatter.py:99-115 | the message opens with the bold project name and ends with the "Открыть в Taiga" link; when the description or changes raise it is "Событие в Taiga: <type>" |
| NotificationFormatter.LayoutShape | notification_listener/infrastructure/telegram/notification_formatter.py:99-115 | every layout opens with the bold project line and ends with the link |
| NotificationFormatter.DiffLinesNeedValuesDiff | notification_listener/infrastructure/telegram/notification_formatter.py:203-270 | without `values_diff` only the author and comment lines appear |
| NotificationFormatter.ChangeOrder | notification_listener/infrastructure/telegram/notification_formatter.py:173-313 | author, comment, status, milestone, assignee, description, backlog and custom-attribute lines, in that order |
| NotificationFormatter.FixedOrder | notification_listener/infrastructure/telegram/notification_formatter.py:173-313 | status, milestone, assignee, description and backlog lines, in that order |
| NotificationProcessor.AllErrorsIndex | notification_listener/processor.py:39-43 | one logged error slot per sender, holding what that sender raised |
| NotificationProcessor.RaisingSenderIsIsolated | notification_listener/processor.py:39-43 | a sender's deliveries sit between its neighbours', and one that raises adds none without stopping the rest |
| NotificationProcessor.DefaultNotificationProcessor.Process | notification_listener/processor.py:30-43 | every sender is tried in order; their deliveries are made and what they raise is logged |
| UserRepository.UsersByRole | notification_listener/infrastructure/repositories/user_repository.py:22-35 | the storage's users of the role, empty when there are none |
| UserRepository.UsersByRoleIsStorage | notification_listener/infrastructure/repositories/user_repository.py:22-35 | exactly the storage's answer |
| UserRepository.TaigaUserById | notification_listener/infrastructure/repositories/user_repository.py:37-81 | a direct row gives id, username and full name, with the Telegram id from the second lookup; without one, the second lookup's user if it parses |
| UserRepository.DirectRowDecidesIdentity | notification_listener/infrastructure/repositories/user_repository.py:57-70 | the same direct row gives the same user, Telegram id aside |
| UserRepository.TelegramIdFromSecondLookup | notification_listener/infrastructure/repositories/user_repository.py:65-68 | a user with a Telegram id was found by the second lookup |
| LegacySender.ScrumMasterIds | notification_listener/telegram_sender.py:58-70 | the ids exactly when every row has `telegram_id`, then one per row in order; otherwise a raise |
| LegacySender.ScrumMasters | notification_listener/telegram_sender.py:58-70 | `get_scrum_masters` gives the ids of the storage's scrum masters, none when there are none |
| LegacySender.LegacyTimeline | notification_listener/telegram_sender.py:93-109 | the timeline is empty or truthy |
| LegacySender.TimelinesAgree | notification_listener/telegram_sender.py:93-109 | the legacy timeline is the event model's `data` when truthy, else empty |
| LegacySender.RowName | notification_listener/telegram_sender.py:232-304 | no row gives the fallback; otherwise full name, else username, else "Пользователь #id" |
| LegacySender.ActingUserName | notification_listener/telegram_sender.py:232-304 | the payload's `name` when truthy; else the `get_taiga_user_by_id` answer for the id; else the unknown-user text |
| LegacySender.CreationLines | notification_listener/telegram_sender.py:137-183 | no creator or assignee lines unless the event is "tasks.task.create" |
| LegacySender.ObjectPart | notification_listener/telegram_sender.py:128-196 | the content type follows the event prefix (us, task, epic, milestone, issue, else unknown); only task events add lines |
| LegacySender.LegacyFrame | notification_listener/telegram_sender.py:86-225 | a timeline without `project` fails |
| LegacySender.LegacyCommentLines | notification_listener/telegram_sender.py:310-315 | no comment line without a truthy `comment_html` |
| LegacySender.Attempted | notification_listener/telegram_sender.py:86-459 | the attempt leaves `user` unbound exactly when the frame fails; otherwise it carries the timeline's user |
| LegacySender.LegacyPlan | notification_listener/telegram_sender.py:72-84 | a scrum-master lookup error propagates, and nothing happens exactly when there are no scrum masters |
| LegacySender.PlanFrom | notification_listener/telegram_sender.py:455-468 | raises exactly when `user` is unbound or the author lookup fails; otherwise broadcasts the message or the `<code>` payload dump |
| LegacySender.MissingProjectIsRaised | notification_listener/telegram_sender.py:120-122 | a payload without `project` raises once there are scrum masters, so nobody is messaged |
| LegacySender.LegacyRecipientsAgree | notification_listener/telegram_sender.py:69 | with truthy ids on every row, the legacy ids are the new sender's recipients |
| LegacySender.FormattedShape | notification_listener/telegram_sender.py:440-454 | a formatted message opens with the bold project name and ends with the "Открыть в Taiga" link |
| LegacySender.BroadcastAudience | notification_listener/telegram_sender.py:471-485 | every delivery carries the message, and a chat gets it exactly when it is a recipient, not the author, and the bot accepts that message for it |
| LegacySender.LegacyTelegramSender.SendNotification | notification_listener/telegram_sender.py:72-485 | `send_notification` makes exactly the planned deliveries and raises what the plan raises |
| LegacySender.LegacyTelegramSender.FormatAttempt | notification_listener/telegram_sender.py:86-459 | the `try` block yields the specified attempt |
| LegacySender.LegacyTelegramSender.SendToScrumMasters | notification_listener/telegram_sender.py:471-485 | the loop delivers to the recipients other than the author, skipping refused chats |
| LegacySender.LegacyTelegramSender.Raised | notification_listener/telegram_sender.py:463 | raises exactly when the plan fails |

## Left out

- SQL semantics. The answers of the Postgres queries are parameters of the handlers. The tables are abstract: a report map, a set of (role, report) grants and a list of finished projects.
- Sessions.SessionStore.SaveToDb, Storage.Tables.UpdateQuery, Storage.Tables.InsertGrant, Storage.Tables.DeleteGrant, Storage.Tables.FinishProject, ReportGenerator.GenerateReport: `db/db_worker.py` (lines 13-40) defines only `get_one`, `get_first` and `get_all`. It defines no `execute_query`, which core/models.py:11, bot_interface/handlers.py:29-33 and bot_interface/topay_closer.py:23-26 import, and no `query_columns`, which bot_interface/report_generator.py:18-22 imports, so those modules fail at import as written. The model assumes `execute_query` runs its one statement and commits it: the upsert of `save_to_db`, the `UPDATE` of a report's query, the `INSERT` and `DELETE` of one grant, and the `UPDATE` that finishes a project. It assumes `query_columns` returns the column names of the report's query; those names are the `columns` parameter of `ReportGenerator.GenerateReport` and of the report handlers.
- Whether a duplicate grant insert fails. That is a table constraint the code does not show, so an insert of an existing grant leaves the set as it was.
- The hard-coded role id 1 in the menus is part of the query parameters, not modelled separately.
- The Redis and Postgres drivers, and connection handling.
- Telegram transport: keyboards, documents and message deletions are entries of a trace. `SendFile` is modelled only as a document entry in that trace (`TopayCloser.Failure` sends its error as "temp.txt"); the in-memory file object is left out. Every send of the report bot succeeds in the model (see the next line); only the notification bot (`NotificationSender.HtmlBot`) can refuse a send.
- BotInstance.Bot.SendMessage: MarkdownV2 refusals are not modelled. The report bot is created with `parse_mode="MarkdownV2"` (bot_interface/bot_instance.py:17), so Telegram refuses a text with a bare reserved character, and `send_message` then raises and ends the handler. The model appends every message to the trace instead. Two texts the code sends are affected:
  - "Error: project_id is None" (bot_interface/topay_closer.py:97-100) has a bare `_`. `TopayCloser.NoProjectNoWork` states the reply the code requests; in Telegram that reply is refused and `create_new_receipt` raises.
  - The RAW report text (bot_interface/report_generator.py:155-165) prints a falsy cell such as `Decimal("0.00")` unconverted, with a bare `.`.
- `notification_listener/listener.py`: socket polling, the reconnect loop and the signal-driven stop are I/O and concurrency.
- HTTP and JSON decoding in the CRM client. The decoder and the responses are parameters.
- pypandoc, PrettyTable and `validators.url` are functions passed in as parameters (`ReportGenerator.Renderers`). The pandoc function returns either the PDF's content or the error pandoc raises, and that error is the report's error. Writing the PDF to a file in the working directory and opening it again to send it is left out: the document carries pandoc's output directly.
- Decimal parsing covers plain notation only. Not modelled: exponent input, whitespace, underscores, 28-digit context rounding, NaN and Infinity.
- Report cells are null, boolean, integer, decimal or text. Floats and dates are not modelled.
- TopayCloser.ReceiptService: it stands for code the repository does not contain. bot_interface/topay_closer.py:27-30 imports `Receipt` from `taiga_to_bpm.creatio_worker`, which defines no `Receipt`, so that import raises ImportError, and bot_interface/handlers.py:22 imports the module at start-up, so the bot as written never starts. The `Task` of `creatio_worker.py` has no `push_to_creatio` method either (used at bot_interface/topay_closer.py:119). `TopayCloser` therefore models the intended receipt flow, with `Receipt.new` and `push_to_creatio` as outcomes given to the service.
- The logging services are recorded as a trace of service calls.
- Protocol interface files, the wiring factory, the `__main__` modules and configuration, `bot_interface/user_roles.py` and the `TUser` harness are not modelled.
- Creatio `get_contact_by_id`, `create_message_log_sms` and `post_phone_book` are thin wrappers over the URL builders and are not modelled.
- Printing and logging output.
- CreatioWorker.ConnectAndSubmit, CreatioWorker.Submit: `creatio_worker.py` imports `Creatio` and `ODATA_version` from the external `sl_creatio_connector` package (taiga_to_bpm/creatio_worker.py:11-12), whose code is not part of this model. The model assumes that client behaves like the repository's own `taiga_to_bpm/creatio.py` and uses module `Creatio` for it.
- Json.Show: a non-empty dict is shown as the fixed text "{...}". Dafny maps have no order, and Python prints a dict in insertion order, so the text of `str(dict)` is not modelled. Lists, strings, numbers, booleans and None are shown as Python shows them.
- Json.StrRepr: non-ASCII characters that Python counts as non-printable (for example U+0085 or U+00A0) are kept as they are instead of being written as `\x`/`\u` escapes.
- NotificationModels.MilestoneOf: a truthy milestone that is a dict without `name` becomes "{...}" rather than Python's `str` of that dict, for the reason given under Json.Show.
- CreatioWorker.ItemRefusal: the line item is rendered with its keys in the literal's order, but a value that is itself a non-empty dict (a receipt id the CRM returned as an object) is shown as "{...}", and the float hours and minutes of a task are values as the row gives them, so a float's `repr` is not modelled.
- Text.ParseInt: `int()` also accepts underscores between digits and non-ASCII decimal digits. These are not modelled and give None.
- Time normalisation of the task hours. The code passes SLHours and SLMinutes to the CRM unchanged, and so does the model.
- Callback payloads are `main#` or `topay_closer#` prefixed. The bare-number payloads some conversations assume are claimed by neither callback filter.
