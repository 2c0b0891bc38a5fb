/**
 * bot_interface/handlers.py: the bot's main conversation. A session's `bot_state` names where the
 * conversation is and its `bot_state_value` the last pressed button; `router` picks the one
 * handler for that pair. Handlers read the grant and report tables, may move the session to a new
 * state and save it, may add or remove a (role, report) grant, and reply.
 *
 * What the SQL queries return (allowed reports and commands, all reports, roles, report data) is
 * given as the query's answer in a `World`; the reports and grants are the tables of `Storage`.
 */
module Handlers {
  import opened Wrappers
  import opened Text
  import opened Sessions
  import opened Storage
  import opened BotInstance
  import opened Json
  import ReportGenerator
  import CreatioWorker
  import TopayCloser

  // The states, saved as their names in `bot_state`.
  const CommandsI: string := "COMMANDS_I"
  const CommandsO: string := "COMMANDS_O"
  const ReportsI: string := "REPORTS_I"
  const ReportsO: string := "REPORTS_O"
  const EditReportsState: string := "COMMAND_EDIT_REPORTS"
  const EditReportState: string := "COMMAND_EDIT_REPORT"
  const EditPermissionsState: string := "COMMAND_EDIT_REPORTS_PERMISSIONS"
  const PermissionsAddState: string := "COMMAND_EDIT_REPORTS_PERMISSIONS_ADD"
  const PermissionsRemoveState: string := "COMMAND_EDIT_REPORTS_PERMISSIONS_REMOVE"
  const EditQueryState: string := "COMMAND_EDIT_REPORTS_QUERY"

  // The command values, as they come back in `bot_state_value`.
  const CommandCloseTopay: int := 1
  const CommandEditReports: int := 2
  const CommandEditPermissions: int := 3
  const CommandEditQuery: int := 4
  const CommandPermissionsAdd: int := 5
  const CommandPermissionsRemove: int := 6

  /** The prefix of this conversation's buttons, and the only callback data it claims. */
  const Prefix: string := "main#"

  /** The stored state one turn reads and writes. */
  datatype Db = Db(entries: map<string, string>, reports: map<int, Report>, grants: set<Grant>, finished: seq<int>)

  /** What one turn does: its replies, the state after it, its CRM calls, and the error it raises, if any. */
  datatype Turn = Turn(replies: seq<Outgoing>, db: Db, calls: seq<TopayCloser.CrmCall>, raised: Option<string>)

  /** What the outside world answers during one turn. */
  datatype World = World(
    allowedReports: seq<Row>,
    allowedCommands: seq<Row>,
    allReports: seq<Row>,
    allowedRoleNames: seq<string>,
    unallowedRoleNames: seq<string>,
    allowedRoles: seq<Row>,
    unallowedRoles: seq<Row>,
    columns: seq<ReportGenerator.Column>,
    result: seq<seq<ReportGenerator.Cell>>,
    renderers: ReportGenerator.Renderers,
    topay: TopayCloser.World)

  function Say(chatId: int, text: string): Outgoing {
    Message(chatId, text, [])
  }

  /** A turn that only replies. */
  function Only(db: Db, reply: Outgoing): Turn {
    Turn([reply], db, [], None)
  }

  /** A turn that saves `u` and replies. */
  function Saving(db: Db, u: User, replies: seq<Outgoing>): Turn {
    Turn(replies, db.(entries := Store(db.entries, u)), [], None)
  }

  /** No value pending: `not user.bot_state_value`. */
  predicate Unselected(v: Option<int>) {
    v.None? || v.value == 0
  }

  const NoReportSelected: string := "Error: no report selected"

  // ---------------------------------------------------------------------------------------------
  // The handlers, as functions of the session, the stored state and the query answers.

  /** A menu of granted rows: the chat's state is set and the rows are offered as buttons. */
  function MenuTurn(chatId: int, db: Db, title: string, rows: seq<Row>, state: string): Turn
    requires chatId > 0
  {
    Turn([Message(chatId, title, Buttons(rows, Prefix))], db.(entries := StateSet(db.entries, chatId, state)), [], None)
  }

  /** `show_allowed_reports(chat_id)`. */
  function AllowedReportsTurn(chatId: int, db: Db, rows: seq<Row>): Turn
    requires chatId > 0
  {
    if |rows| == 0 then
      Only(db, Say(chatId, "You have no allowed reports\nsend you id to administrator:\n`" + IntToString(chatId) + "`"))
    else MenuTurn(chatId, db, "Доступные отчеты", rows, ReportsO)
  }

  /** `show_allowed_commands(chat_id)`. */
  function AllowedCommandsTurn(chatId: int, db: Db, rows: seq<Row>): Turn
    requires chatId > 0
  {
    if |rows| == 0 then Only(db, Say(chatId, "You have no allowed commands"))
    else MenuTurn(chatId, db, "Доступные команды", rows, CommandsO)
  }

  /** `edit_reports(user)`: every report as a button. */
  function EditReportsTurn(user: User, db: Db, rows: seq<Row>): Turn {
    if Unselected(user.botStateValue) then Only(db, Say(user.chatId, NoReportSelected))
    else if |rows| == 0 then Only(db, Say(user.chatId, "No reports found"))
    else Saving(db, user.(botState := Some(EditReportsState)),
                [Message(user.chatId, "Редактировать отчет", Buttons(rows, Prefix))])
  }

  /** The two buttons of a report's card; their data are bare command values. */
  const CardKeyboard: seq<Button> :=
    [Button("Редактировать разрешения", "3"), Button("Редактировать запрос", "4")]

  function ReportCard(report: Report): string {
    "\nОтчет: `" + report.name + "`\n```sql\n" + report.query + "\n```\n    "
  }

  /** `edit_report(user)`: the pressed value is the report id. */
  function EditReportTurn(user: User, db: Db): Turn {
    if Unselected(user.botStateValue) then Only(db, Say(user.chatId, NoReportSelected))
    else
      var id := user.botStateValue.value;
      if id !in db.reports then Only(db, Say(user.chatId, "Error: report not found"))
      else Saving(db, user.(reportId := Some(id), botState := Some(EditReportState)),
                  [Message(user.chatId, ReportCard(db.reports[id]), CardKeyboard)])
  }

  function QueryPrompt(report: Report): string {
    "Редактировать запрос\nОтчет: `" + report.name + "`\n\n```sql\n" + report.query + "\n```\n\nВведите новый запрос\n    "
  }

  /** `edit_report_query(user)`: the pressed value becomes the report id, and the next message is awaited. */
  function EditQueryTurn(user: User, db: Db): Turn {
    if Unselected(user.botStateValue) then Only(db, Say(user.chatId, NoReportSelected))
    else
      var id := user.botStateValue.value;
      if id !in db.reports then Only(db, Say(user.chatId, "Error: report not found"))
      else Saving(db, user.(reportId := Some(id), botState := Some(EditQueryState)),
                  [Say(user.chatId, QueryPrompt(db.reports[id])), AwaitsReply(user.chatId)])
  }

  /** The report the session has chosen: `report_id` NULL matches no row. */
  function Chosen(user: User, db: Db): Option<Report> {
    if user.reportId.Some? && user.reportId.value in db.reports then Some(db.reports[user.reportId.value]) else None
  }

  /** `str(rows)` of a one-column query result: a list of one-element tuples, each name shown by its `repr`. */
  function RoleList(names: seq<string>): string {
    "[" + Join(seq(|names|, i requires 0 <= i < |names| => "(" + StrRepr(names[i]) + ",)"), ", ") + "]"
  }

  const PermissionsKeyboard: seq<Button> := [Button("Добавить разрешение", "5"), Button("Удалить разрешение", "6")]

  function PermissionsText(name: string, allowed: seq<string>, unallowed: seq<string>): string {
    "\nРедактировать разрешения\n\nОтчет: `" + name + "`\n\nРазрешенные роли:\n```\n" + RoleList(allowed)
    + "\n```\n\nНеразрешенные роли:\n```\n" + RoleList(unallowed) + "\n```\n"
  }

  /** `edit_report_permissions(user)`: the chosen report's allowed and other roles. */
  function EditPermissionsTurn(user: User, db: Db, allowed: seq<string>, unallowed: seq<string>): Turn {
    if Unselected(user.botStateValue) then Only(db, Say(user.chatId, NoReportSelected))
    else match Chosen(user, db)
      case None => Only(db, Say(user.chatId, "Error: report not found"))
      case Some(report) =>
        Saving(db, user.(botState := Some(EditPermissionsState)),
               [Message(user.chatId, PermissionsText(report.name, allowed, unallowed), PermissionsKeyboard)])
  }

  /** `edit_report_permissions_add(user)`: the roles not yet allowed, as buttons. */
  function PermissionsAddTurn(user: User, db: Db, unallowed: seq<Row>): Turn {
    if Unselected(user.botStateValue) then Only(db, Say(user.chatId, NoReportSelected))
    else match Chosen(user, db)
      case None => Only(db, Say(user.chatId, "Error: report not found"))
      case Some(report) =>
        if |unallowed| == 0 then Only(db, Say(user.chatId, "All roles are allowed"))
        else Saving(db, user.(botState := Some(PermissionsAddState)),
                    [Message(user.chatId, "\nДобавить разрешение\n\nОтчет: `" + report.name + "`\n        ",
                             Buttons(unallowed, Prefix))])
  }

  /** `edit_report_permissions_remove(user)`: the allowed roles, as buttons. */
  function PermissionsRemoveTurn(user: User, db: Db, allowed: seq<Row>): Turn {
    if Unselected(user.botStateValue) then Only(db, Say(user.chatId, NoReportSelected))
    else match Chosen(user, db)
      case None => Only(db, Say(user.chatId, "Error: report not found"))
      case Some(report) =>
        if |allowed| == 0 then Only(db, Say(user.chatId, "All roles are unallowed"))
        else Saving(db, user.(botState := Some(PermissionsRemoveState)),
                    [Message(user.chatId, "\nУдалить разрешение\n\nОтчет: `" + report.name + "`\n        ",
                             Buttons(allowed, Prefix))])
  }

  /** `edit_report_permissions_add_role(user)`: the pressed value is the role id. */
  function AddRoleTurn(user: User, db: Db): Turn {
    if Unselected(user.botStateValue) then Only(db, Say(user.chatId, NoReportSelected))
    else Only(db.(grants := db.grants + {Grant(user.botStateValue.value, user.reportId)}),
              Say(user.chatId, "Permission added"))
  }

  /** `edit_report_permissions_remove_role(user)`; with no report chosen the DELETE matches nothing. */
  function RemoveRoleTurn(user: User, db: Db): Turn {
    if Unselected(user.botStateValue) then Only(db, Say(user.chatId, NoReportSelected))
    else
      var grants := if user.reportId.Some? then db.grants - {Grant(user.botStateValue.value, user.reportId)} else db.grants;
      Only(db.(grants := grants), Say(user.chatId, "Permission removed"))
  }

  /** `generate_report(user)`: its reply, or the error it raises. */
  function ReportTurn(user: User, db: Db, w: World): Turn {
    match ReportGenerator.Reply(user, db.reports, w.columns, w.result, w.renderers)
    case Ok(reply) => Only(db, reply)
    case Err(e) => Turn([], db, [], Some(e))
  }

  /** `topay_closer.router(user)`. */
  function TopayTurn(user: User, db: Db, w: World, newReceipt: Json -> Result<TopayCloser.Receipt>,
                     pushError: (CreatioWorker.Task, string) -> Option<string>): Turn
  {
    var e := TopayCloser.Route(user, w.topay, newReceipt, pushError);
    Turn(e.replies, db.(entries := TopayCloser.Saving(db.entries, e.saved), finished := db.finished + e.finished), e.calls, None)
  }

  function UnknownState(user: User, db: Db): Turn {
    Only(db, Say(user.chatId, "Error: unknown state"))
  }

  function UnknownCommand(user: User, db: Db): Turn {
    Only(db, Say(user.chatId, "Error: unknown command"))
  }

  /** `router(user)`: the handler for the session's state and pending value. */
  function Route(user: User, db: Db, w: World, newReceipt: Json -> Result<TopayCloser.Receipt>,
                 pushError: (CreatioWorker.Task, string) -> Option<string>): Turn
    requires ValidUser(user)
  {
    if user.botState == Some(CommandsI) then AllowedCommandsTurn(user.chatId, db, w.allowedCommands)
    else if user.botState == Some(CommandsO) then CommandRoute(user, db, w, newReceipt, pushError)
    else if user.botState == Some(ReportsI) then AllowedReportsTurn(user.chatId, db, w.allowedReports)
    else if user.botState == Some(ReportsO) then ReportTurn(user, db, w)
    else EditorRoute(user, db, w)
  }

  /** COMMANDS_O: the command pressed in the /commands menu. */
  function CommandRoute(user: User, db: Db, w: World, newReceipt: Json -> Result<TopayCloser.Receipt>,
                        pushError: (CreatioWorker.Task, string) -> Option<string>): Turn
  {
    var v := user.botStateValue;
    if v == Some(CommandCloseTopay) then TopayTurn(user.(botState := Some(TopayCloser.Started)), db, w, newReceipt, pushError)
    else if v == Some(CommandEditReports) then EditReportsTurn(user, db, w.allReports)
    else UnknownCommand(user, db)
  }

  /** The report editor's states; anything else is an unknown state. */
  function EditorRoute(user: User, db: Db, w: World): Turn {
    if user.botState == Some(EditReportsState) then EditReportTurn(user, db)
    else if user.botState == Some(EditReportState) then CardRoute(user, db, w)
    else if user.botState == Some(EditPermissionsState) then PermissionsRoute(user, db, w)
    else GrantRoute(user, db)
  }

  /** The states waiting for the role to grant or revoke. */
  function GrantRoute(user: User, db: Db): Turn {
    if user.botState == Some(PermissionsAddState) then AddRoleTurn(user, db)
    else if user.botState == Some(PermissionsRemoveState) then RemoveRoleTurn(user, db)
    else UnknownState(user, db)
  }

  /** COMMAND_EDIT_REPORT: the button pressed under the report card. */
  function CardRoute(user: User, db: Db, w: World): Turn {
    var v := user.botStateValue;
    if v == Some(CommandEditPermissions) then EditPermissionsTurn(user, db, w.allowedRoleNames, w.unallowedRoleNames)
    else if v == Some(CommandEditQuery) then EditQueryTurn(user, db)
    else UnknownCommand(user, db)
  }

  /** COMMAND_EDIT_REPORTS_PERMISSIONS: add or remove; any other value falls through to the unknown state. */
  function PermissionsRoute(user: User, db: Db, w: World): Turn {
    var v := user.botStateValue;
    if v == Some(CommandPermissionsAdd) then PermissionsAddTurn(user, db, w.unallowedRoles)
    else if v == Some(CommandPermissionsRemove) then PermissionsRemoveTurn(user, db, w.allowedRoles)
    else UnknownState(user, db)
  }

  // ---------------------------------------------------------------------------------------------
  // The transition table.

  /**
   * States the router does not handle, including no state at all and the query-editing state
   * (whose reply goes to the next-step handler instead), only reply "Error: unknown state".
   */
  lemma UnhandledStates(user: User, db: Db, w: World, newReceipt: Json -> Result<TopayCloser.Receipt>,
                        pushError: (CreatioWorker.Task, string) -> Option<string>)
    requires ValidUser(user)
    requires user.botState.None? || user.botState.value !in
      {CommandsI, CommandsO, ReportsI, ReportsO, EditReportsState, EditReportState, EditPermissionsState,
       PermissionsAddState, PermissionsRemoveState}
    ensures Route(user, db, w, newReceipt, pushError) == Turn([Say(user.chatId, "Error: unknown state")], db, [], None)
  {
  }

  lemma QueryStateIsUnhandled(user: User, db: Db, w: World, newReceipt: Json -> Result<TopayCloser.Receipt>,
                              pushError: (CreatioWorker.Task, string) -> Option<string>)
    requires ValidUser(user) && user.botState == Some(EditQueryState)
    ensures Route(user, db, w, newReceipt, pushError) == Turn([Say(user.chatId, "Error: unknown state")], db, [], None)
  {
    UnhandledStates(user, db, w, newReceipt, pushError);
  }

  /** In the command menu: 1 opens the receipt conversation in STARTED, 2 the report editor, anything else is unknown. */
  lemma CommandChoice(user: User, db: Db, w: World, newReceipt: Json -> Result<TopayCloser.Receipt>,
                      pushError: (CreatioWorker.Task, string) -> Option<string>)
    requires ValidUser(user) && user.botState == Some(CommandsO)
    ensures user.botStateValue == Some(CommandCloseTopay) ==>
      Route(user, db, w, newReceipt, pushError)
        == TopayTurn(user.(botState := Some(TopayCloser.Started)), db, w, newReceipt, pushError)
    ensures user.botStateValue == Some(CommandEditReports) ==> Route(user, db, w, newReceipt, pushError) == EditReportsTurn(user, db, w.allReports)
    ensures user.botStateValue != Some(CommandCloseTopay) && user.botStateValue != Some(CommandEditReports) ==>
      Route(user, db, w, newReceipt, pushError) == Turn([Say(user.chatId, "Error: unknown command")], db, [], None)
  {
  }

  /**
   * In the report card the value picks the permissions or the query editor, anything else is an
   * unknown command; in the permissions menu a value other than add or remove falls through to
   * "Error: unknown state".
   */
  lemma EditorChoices(user: User, db: Db, w: World, newReceipt: Json -> Result<TopayCloser.Receipt>,
                      pushError: (CreatioWorker.Task, string) -> Option<string>)
    requires ValidUser(user)
    ensures user.botState == Some(EditReportState) && user.botStateValue != Some(CommandEditPermissions)
            && user.botStateValue != Some(CommandEditQuery) ==>
      Route(user, db, w, newReceipt, pushError) == Turn([Say(user.chatId, "Error: unknown command")], db, [], None)
    ensures user.botState == Some(EditPermissionsState) && user.botStateValue != Some(CommandPermissionsAdd)
            && user.botStateValue != Some(CommandPermissionsRemove) ==>
      Route(user, db, w, newReceipt, pushError) == Turn([Say(user.chatId, "Error: unknown state")], db, [], None)
  {
  }

  /**
   * The menus: without granted rows the no-access reply and nothing stored changes; otherwise the
   * session moves to REPORTS_O / COMMANDS_O and every granted row gets one `main#` button.
   */
  lemma MenusOfferGrantedRows(chatId: int, db: Db, rows: seq<Row>)
    requires chatId > 0
    ensures |rows| == 0 ==> AllowedReportsTurn(chatId, db, rows).db == db && AllowedCommandsTurn(chatId, db, rows).db == db
    ensures |rows| > 0 ==>
      AllowedReportsTurn(chatId, db, rows) == Turn([Message(chatId, "Доступные отчеты", Buttons(rows, Prefix))],
                                                   db.(entries := StateSet(db.entries, chatId, ReportsO)), [], None)
      && AllowedCommandsTurn(chatId, db, rows) == Turn([Message(chatId, "Доступные команды", Buttons(rows, Prefix))],
                                                      db.(entries := StateSet(db.entries, chatId, CommandsO)), [], None)
  {
  }

  /** Every `main#` button carries its row's name and gives back its row id when pressed. */
  lemma MainButtonsNameTheirRows(rows: seq<Row>)
    ensures |Buttons(rows, Prefix)| == |rows|
    ensures forall i :: 0 <= i < |rows| ==>
      Buttons(rows, Prefix)[i].text == rows[i].name && CallbackValue(Buttons(rows, Prefix)[i].data) == Ok(rows[i].id)
  {
    forall i | 0 <= i < |rows|
      ensures CallbackValue(Buttons(rows, Prefix)[i].data) == Ok(rows[i].id)
    {
      MainButtonsRoundTrip(rows[i].id);
    }
  }

  /** Every value-consuming editor, with no value pending, says so and changes nothing. */
  lemma NothingSelectedChangesNothing(user: User, db: Db, w: World)
    requires Unselected(user.botStateValue)
    ensures var none := Only(db, Say(user.chatId, NoReportSelected));
      EditReportsTurn(user, db, w.allReports) == none && EditReportTurn(user, db) == none
      && EditQueryTurn(user, db) == none
      && EditPermissionsTurn(user, db, w.allowedRoleNames, w.unallowedRoleNames) == none
      && PermissionsAddTurn(user, db, w.unallowedRoles) == none
      && PermissionsRemoveTurn(user, db, w.allowedRoles) == none
      && AddRoleTurn(user, db) == none && RemoveRoleTurn(user, db) == none
  {
  }

  /**
   * The report editor remembers the pressed report and moves to COMMAND_EDIT_REPORT, but saves
   * only when the report exists; otherwise the session is left as it was.
   */
  lemma EditReportSavesOnlyFound(user: User, db: Db)
    requires ValidUser(user) && !Unselected(user.botStateValue)
    ensures var id := user.botStateValue.value;
      id !in db.reports ==> EditReportTurn(user, db) == Only(db, Say(user.chatId, "Error: report not found"))
    ensures var id := user.botStateValue.value;
      id in db.reports ==>
        var t := EditReportTurn(user, db);
        Lookup(t.db.entries, user.chatId) == Some(user.(reportId := Some(id), botState := Some(EditReportState)))
        && t.db.reports == db.reports && t.db.grants == db.grants
  {
    var id := user.botStateValue.value;
    if id in db.reports {
      LookupAfterStore(db.entries, user.(reportId := Some(id), botState := Some(EditReportState)));
    }
  }

  /** Grant edits add or delete exactly the (pressed role, chosen report) pair and leave the session alone. */
  lemma GrantEdits(user: User, db: Db)
    requires !Unselected(user.botStateValue)
    ensures var g := Grant(user.botStateValue.value, user.reportId);
      AddRoleTurn(user, db) == Only(db.(grants := db.grants + {g}), Say(user.chatId, "Permission added"))
      && g in AddRoleTurn(user, db).db.grants
    ensures var g := Grant(user.botStateValue.value, user.reportId);
      user.reportId.Some? ==>
        RemoveRoleTurn(user, db) == Only(db.(grants := db.grants - {g}), Say(user.chatId, "Permission removed"))
        && g !in RemoveRoleTurn(user, db).db.grants
    ensures AddRoleTurn(user, db).db.entries == db.entries && RemoveRoleTurn(user, db).db.entries == db.entries
  {
  }

  /** Under a report card, 3 opens the permissions editor and 4 the query editor. */
  lemma CardChoices(user: User, db: Db, w: World, newReceipt: Json -> Result<TopayCloser.Receipt>,
                    pushError: (CreatioWorker.Task, string) -> Option<string>)
    requires ValidUser(user) && user.botState == Some(EditReportState)
    ensures user.botStateValue == Some(CommandEditPermissions) ==>
      Route(user, db, w, newReceipt, pushError) == EditPermissionsTurn(user, db, w.allowedRoleNames, w.unallowedRoleNames)
    ensures user.botStateValue == Some(CommandEditQuery) ==> Route(user, db, w, newReceipt, pushError) == EditQueryTurn(user, db)
  {
    assert Route(user, db, w, newReceipt, pushError) == EditorRoute(user, db, w) == CardRoute(user, db, w);
  }

  /**
   * "Edit query" under a report card stores the pressed command value 4 as the report id, whatever
   * report the card showed; the query typed next then goes to report 4 (when there is one).
   */
  lemma QueryEditTargetsCommandValue(user: User, db: Db, text: string)
    requires ValidUser(user) && user.botStateValue == Some(CommandEditQuery) && CommandEditQuery in db.reports
    ensures var t := EditQueryTurn(user, db);
      Lookup(t.db.entries, user.chatId) == Some(user.(reportId := Some(CommandEditQuery), botState := Some(EditQueryState)))
      && NextStepTurn(user.chatId, user.chatId, text, t.db).db.reports
        == db.reports[CommandEditQuery := db.reports[CommandEditQuery].(query := text)]
  {
    var u := user.(reportId := Some(CommandEditQuery), botState := Some(EditQueryState));
    var entries := Store(db.entries, u);
    var t := EditQueryTurn(user, db);
    assert t.db == db.(entries := entries);
    LookupAfterStore(db.entries, u);
    NextStepAfterStore(u, db.(entries := entries), text);
  }

  /** The next message goes to the `report_id` of the sender's stored session. */
  lemma NextStepAfterStore(u: User, db: Db, text: string)
    requires Lookup(db.entries, u.chatId) == Some(u)
    ensures NextStepTurn(u.chatId, u.chatId, text, db)
      == Only(db.(reports := WithQuery(db.reports, u.reportId, text)), Say(u.chatId, "Query updated"))
  {
  }

  // ---------------------------------------------------------------------------------------------
  // The handlers as they run against the bot, the session store, the tables and the CRM.

  lemma AppendTwo<T>(s: seq<T>, a: T, b: T)
    ensures s + [a] + [b] == s + [a, b]
  {
  }

  /** The stored state as a value. */
  function Snapshot(store: SessionStore, tables: Tables): Db
    reads store, tables
  {
    Db(store.entries, tables.reports, tables.grants, tables.finishedProjects)
  }

  /** The objects went through turn `t`: its replies were sent, its state stored, its CRM calls made. */
  twostate predicate Took(bot: Bot, store: SessionStore, tables: Tables, crm: TopayCloser.ReceiptService, t: Turn)
    reads bot, store, tables, crm
  {
    bot.sent == old(bot.sent) + t.replies
    && Snapshot(store, tables) == t.db
    && crm.calls == old(crm.calls) + t.calls
  }

  /** The common tail of both menus: the buttons, the state, the message. */
  method ShowMenu(bot: Bot, store: SessionStore, tables: Tables, crm: TopayCloser.ReceiptService,
                  chatId: int, title: string, rows: seq<Row>, state: string)
    requires store.Valid() && chatId > 0
    modifies bot, store
    ensures store.Valid() && store.botUsers == old(store.botUsers)
    ensures Took(bot, store, tables, crm, MenuTurn(chatId, old(Snapshot(store, tables)), title, rows, state))
  {
    var keyboard := ListButtons(rows, Prefix);
    store.SetState(chatId, state);
    bot.SendMessage(chatId, title, keyboard);
  }

  /** `show_allowed_reports(chat_id)`. */
  method ShowAllowedReports(bot: Bot, store: SessionStore, tables: Tables, crm: TopayCloser.ReceiptService,
                            chatId: int, rows: seq<Row>)
    requires store.Valid() && chatId > 0
    modifies bot, store
    ensures store.Valid() && store.botUsers == old(store.botUsers)
    ensures Took(bot, store, tables, crm, AllowedReportsTurn(chatId, old(Snapshot(store, tables)), rows))
  {
    if |rows| == 0 {
      bot.SendMessage(chatId, "You have no allowed reports\nsend you id to administrator:\n`" + IntToString(chatId) + "`", []);
      return;
    }
    ShowMenu(bot, store, tables, crm, chatId, "Доступные отчеты", rows, ReportsO);
  }

  /** `show_allowed_commands(chat_id)`. */
  method ShowAllowedCommands(bot: Bot, store: SessionStore, tables: Tables, crm: TopayCloser.ReceiptService,
                             chatId: int, rows: seq<Row>)
    requires store.Valid() && chatId > 0
    modifies bot, store
    ensures store.Valid() && store.botUsers == old(store.botUsers)
    ensures Took(bot, store, tables, crm, AllowedCommandsTurn(chatId, old(Snapshot(store, tables)), rows))
  {
    if |rows| == 0 {
      bot.SendMessage(chatId, "You have no allowed commands", []);
      return;
    }
    ShowMenu(bot, store, tables, crm, chatId, "Доступные команды", rows, CommandsO);
  }

  /** `edit_reports(user)`. */
  method EditReports(bot: Bot, store: SessionStore, tables: Tables, crm: TopayCloser.ReceiptService,
                     user: User, rows: seq<Row>)
    requires store.Valid() && ValidUser(user)
    modifies bot, store
    ensures store.Valid() && store.botUsers == old(store.botUsers)
    ensures Took(bot, store, tables, crm, EditReportsTurn(user, old(Snapshot(store, tables)), rows))
  {
    if Unselected(user.botStateValue) {
      bot.SendMessage(user.chatId, NoReportSelected, []);
      return;
    }
    if |rows| == 0 {
      bot.SendMessage(user.chatId, "No reports found", []);
      return;
    }
    var keyboard := ListButtons(rows, Prefix);
    var u := user.(botState := Some(EditReportsState));
    store.SaveToRedis(u);
    bot.SendMessage(u.chatId, "Редактировать отчет", keyboard);
  }

  /** `edit_report(user)`. */
  method EditReport(bot: Bot, store: SessionStore, tables: Tables, crm: TopayCloser.ReceiptService, user: User)
    requires store.Valid() && ValidUser(user)
    modifies bot, store
    ensures store.Valid() && store.botUsers == old(store.botUsers)
    ensures Took(bot, store, tables, crm, EditReportTurn(user, old(Snapshot(store, tables))))
  {
    if Unselected(user.botStateValue) {
      bot.SendMessage(user.chatId, NoReportSelected, []);
      return;
    }
    var id := user.botStateValue.value;
    var u := user.(reportId := Some(id));
    if id !in tables.reports {
      bot.SendMessage(u.chatId, "Error: report not found", []);
      return;
    }
    var report := tables.reports[id];
    u := u.(botState := Some(EditReportState));
    store.SaveToRedis(u);
    bot.SendMessage(u.chatId, ReportCard(report), CardKeyboard);
  }

  /** `edit_report_query(user)`: the reply, then the wait for the chat's next message. */
  method EditReportQuery(bot: Bot, store: SessionStore, tables: Tables, crm: TopayCloser.ReceiptService, user: User)
    requires store.Valid() && ValidUser(user)
    modifies bot, store
    ensures store.Valid() && store.botUsers == old(store.botUsers)
    ensures Took(bot, store, tables, crm, EditQueryTurn(user, old(Snapshot(store, tables))))
  {
    if Unselected(user.botStateValue) {
      bot.SendMessage(user.chatId, NoReportSelected, []);
      return;
    }
    var id := user.botStateValue.value;
    var u := user.(reportId := Some(id));
    if id !in tables.reports {
      bot.SendMessage(u.chatId, "Error: report not found", []);
      return;
    }
    AwaitQuery(bot, store, tables, crm, u.(botState := Some(EditQueryState)), tables.reports[id]);
  }

  /** The prompt for a new query, and the wait for the chat's next message. */
  method AwaitQuery(bot: Bot, store: SessionStore, tables: Tables, crm: TopayCloser.ReceiptService,
                    u: User, report: Report)
    requires store.Valid() && ValidUser(u)
    modifies bot, store
    ensures store.Valid() && store.botUsers == old(store.botUsers)
    ensures Took(bot, store, tables, crm,
                 Saving(old(Snapshot(store, tables)), u, [Say(u.chatId, QueryPrompt(report)), AwaitsReply(u.chatId)]))
  {
    ghost var before := bot.sent;
    store.SaveToRedis(u);
    bot.SendMessage(u.chatId, QueryPrompt(report), []);
    bot.RegisterNextStep(u.chatId);
    AppendTwo(before, Say(u.chatId, QueryPrompt(report)), AwaitsReply(u.chatId));
  }

  /** `edit_report_permissions(user)`. */
  method EditReportPermissions(bot: Bot, store: SessionStore, tables: Tables, crm: TopayCloser.ReceiptService,
                               user: User, allowed: seq<string>, unallowed: seq<string>)
    requires store.Valid() && ValidUser(user)
    modifies bot, store
    ensures store.Valid() && store.botUsers == old(store.botUsers)
    ensures Took(bot, store, tables, crm, EditPermissionsTurn(user, old(Snapshot(store, tables)), allowed, unallowed))
  {
    if Unselected(user.botStateValue) {
      bot.SendMessage(user.chatId, NoReportSelected, []);
      return;
    }
    if user.reportId.None? || user.reportId.value !in tables.reports {
      bot.SendMessage(user.chatId, "Error: report not found", []);
      return;
    }
    var name := tables.reports[user.reportId.value].name;
    var u := user.(botState := Some(EditPermissionsState));
    store.SaveToRedis(u);
    bot.SendMessage(u.chatId, PermissionsText(name, allowed, unallowed), PermissionsKeyboard);
  }

  /** `edit_report_permissions_add(user)`. */
  method EditReportPermissionsAdd(bot: Bot, store: SessionStore, tables: Tables, crm: TopayCloser.ReceiptService,
                                  user: User, unallowed: seq<Row>)
    requires store.Valid() && ValidUser(user)
    modifies bot, store
    ensures store.Valid() && store.botUsers == old(store.botUsers)
    ensures Took(bot, store, tables, crm, PermissionsAddTurn(user, old(Snapshot(store, tables)), unallowed))
  {
    if Unselected(user.botStateValue) {
      bot.SendMessage(user.chatId, NoReportSelected, []);
      return;
    }
    if user.reportId.None? || user.reportId.value !in tables.reports {
      bot.SendMessage(user.chatId, "Error: report not found", []);
      return;
    }
    var name := tables.reports[user.reportId.value].name;
    if |unallowed| == 0 {
      bot.SendMessage(user.chatId, "All roles are allowed", []);
      return;
    }
    var keyboard := ListButtons(unallowed, Prefix);
    var u := user.(botState := Some(PermissionsAddState));
    store.SaveToRedis(u);
    bot.SendMessage(u.chatId, "\nДобавить разрешение\n\nОтчет: `" + name + "`\n        ", keyboard);
  }

  /** `edit_report_permissions_remove(user)`. */
  method EditReportPermissionsRemove(bot: Bot, store: SessionStore, tables: Tables, crm: TopayCloser.ReceiptService,
                                     user: User, allowed: seq<Row>)
    requires store.Valid() && ValidUser(user)
    modifies bot, store
    ensures store.Valid() && store.botUsers == old(store.botUsers)
    ensures Took(bot, store, tables, crm, PermissionsRemoveTurn(user, old(Snapshot(store, tables)), allowed))
  {
    if Unselected(user.botStateValue) {
      bot.SendMessage(user.chatId, NoReportSelected, []);
      return;
    }
    if user.reportId.None? || user.reportId.value !in tables.reports {
      bot.SendMessage(user.chatId, "Error: report not found", []);
      return;
    }
    var name := tables.reports[user.reportId.value].name;
    if |allowed| == 0 {
      bot.SendMessage(user.chatId, "All roles are unallowed", []);
      return;
    }
    var keyboard := ListButtons(allowed, Prefix);
    var u := user.(botState := Some(PermissionsRemoveState));
    store.SaveToRedis(u);
    bot.SendMessage(u.chatId, "\nУдалить разрешение\n\nОтчет: `" + name + "`\n        ", keyboard);
  }

  /** `edit_report_permissions_add_role(user)`. */
  method EditReportPermissionsAddRole(bot: Bot, store: SessionStore, tables: Tables, crm: TopayCloser.ReceiptService,
                                      user: User)
    modifies bot, tables
    ensures Took(bot, store, tables, crm, AddRoleTurn(user, old(Snapshot(store, tables))))
  {
    if Unselected(user.botStateValue) {
      bot.SendMessage(user.chatId, NoReportSelected, []);
      return;
    }
    tables.InsertGrant(user.botStateValue.value, user.reportId);
    bot.SendMessage(user.chatId, "Permission added", []);
  }

  /** `edit_report_permissions_remove_role(user)`. */
  method EditReportPermissionsRemoveRole(bot: Bot, store: SessionStore, tables: Tables, crm: TopayCloser.ReceiptService,
                                         user: User)
    modifies bot, tables
    ensures Took(bot, store, tables, crm, RemoveRoleTurn(user, old(Snapshot(store, tables))))
  {
    if Unselected(user.botStateValue) {
      bot.SendMessage(user.chatId, NoReportSelected, []);
      return;
    }
    tables.DeleteGrant(user.botStateValue.value, user.reportId);
    bot.SendMessage(user.chatId, "Permission removed", []);
  }

  /** `generate_report(user)`: its reply is sent, or the error it raises is passed on. */
  method GenerateReport(bot: Bot, store: SessionStore, tables: Tables, crm: TopayCloser.ReceiptService,
                        user: User, w: World) returns (raised: Option<string>)
    modifies bot
    ensures Took(bot, store, tables, crm, ReportTurn(user, old(Snapshot(store, tables)), w))
    ensures raised == ReportTurn(user, old(Snapshot(store, tables)), w).raised
  {
    var outcome := ReportGenerator.GenerateReport(bot, tables, user, w.columns, w.result, w.renderers);
    raised := if outcome.Err? then Some(outcome.error) else None;
  }

  /** The to-pay closer's router, entered in its STARTED state. */
  method CloseTopay(bot: Bot, store: SessionStore, tables: Tables, crm: TopayCloser.ReceiptService,
                    user: User, w: World)
    requires store.Valid() && ValidUser(user)
    modifies bot, store, tables, crm
    ensures store.Valid() && store.botUsers == old(store.botUsers)
    ensures Took(bot, store, tables, crm, TopayTurn(user, old(Snapshot(store, tables)), w, crm.newReceipt, crm.pushError))
  {
    TopayCloser.Router(bot, store, crm, tables, user, w.topay);
  }

  /** Only the report state can raise: every other handler replies instead. */
  lemma OnlyReportsRaise(user: User, db: Db, w: World, newReceipt: Json -> Result<TopayCloser.Receipt>,
                         pushError: (CreatioWorker.Task, string) -> Option<string>)
    requires ValidUser(user)
    ensures user.botState != Some(ReportsO) ==> Route(user, db, w, newReceipt, pushError).raised == None
  {
    CommandsRaiseNothing(user, db, w, newReceipt, pushError);
    EditorRaisesNothing(user, db, w);
  }

  lemma CommandsRaiseNothing(user: User, db: Db, w: World, newReceipt: Json -> Result<TopayCloser.Receipt>,
                             pushError: (CreatioWorker.Task, string) -> Option<string>)
    ensures CommandRoute(user, db, w, newReceipt, pushError).raised == None
  {
  }

  lemma EditorRaisesNothing(user: User, db: Db, w: World)
    ensures EditorRoute(user, db, w).raised == None
  {
    assert CardRoute(user, db, w).raised == None;
    assert PermissionsRoute(user, db, w).raised == None;
  }

  /** `router(user)`: the handler the session's state and pending value select. */
  method Router(bot: Bot, store: SessionStore, tables: Tables, crm: TopayCloser.ReceiptService,
                user: User, w: World) returns (raised: Option<string>)
    requires store.Valid() && ValidUser(user)
    modifies bot, store, tables, crm
    ensures store.Valid() && store.botUsers == old(store.botUsers)
    ensures Took(bot, store, tables, crm, Route(user, old(Snapshot(store, tables)), w, crm.newReceipt, crm.pushError))
    ensures raised == Route(user, old(Snapshot(store, tables)), w, crm.newReceipt, crm.pushError).raised
  {
    raised := None;
    OnlyReportsRaise(user, Snapshot(store, tables), w, crm.newReceipt, crm.pushError);
    if user.botState == Some(CommandsI) {
      ShowAllowedCommands(bot, store, tables, crm, user.chatId, w.allowedCommands);
    } else if user.botState == Some(CommandsO) {
      CommandRouter(bot, store, tables, crm, user, w);
    } else if user.botState == Some(ReportsI) {
      ShowAllowedReports(bot, store, tables, crm, user.chatId, w.allowedReports);
    } else if user.botState == Some(ReportsO) {
      raised := GenerateReport(bot, store, tables, crm, user, w);
    } else {
      EditorRouter(bot, store, tables, crm, user, w);
    }
  }

  method CommandRouter(bot: Bot, store: SessionStore, tables: Tables, crm: TopayCloser.ReceiptService,
                       user: User, w: World)
    requires store.Valid() && ValidUser(user)
    modifies bot, store, tables, crm
    ensures store.Valid() && store.botUsers == old(store.botUsers)
    ensures Took(bot, store, tables, crm, CommandRoute(user, old(Snapshot(store, tables)), w, crm.newReceipt, crm.pushError))
  {
    var v := user.botStateValue;
    if v == Some(CommandCloseTopay) {
      CloseTopay(bot, store, tables, crm, user.(botState := Some(TopayCloser.Started)), w);
    } else if v == Some(CommandEditReports) {
      EditReports(bot, store, tables, crm, user, w.allReports);
    } else {
      bot.SendMessage(user.chatId, "Error: unknown command", []);
    }
  }

  method EditorRouter(bot: Bot, store: SessionStore, tables: Tables, crm: TopayCloser.ReceiptService,
                      user: User, w: World)
    requires store.Valid() && ValidUser(user)
    modifies bot, store, tables
    ensures store.Valid() && store.botUsers == old(store.botUsers)
    ensures Took(bot, store, tables, crm, EditorRoute(user, old(Snapshot(store, tables)), w))
  {
    if user.botState == Some(EditReportsState) {
      EditReport(bot, store, tables, crm, user);
    } else if user.botState == Some(EditReportState) {
      CardRouter(bot, store, tables, crm, user, w);
    } else if user.botState == Some(EditPermissionsState) {
      PermissionsRouter(bot, store, tables, crm, user, w);
    } else {
      GrantRouter(bot, store, tables, crm, user);
    }
  }

  method GrantRouter(bot: Bot, store: SessionStore, tables: Tables, crm: TopayCloser.ReceiptService, user: User)
    modifies bot, tables
    ensures Took(bot, store, tables, crm, GrantRoute(user, old(Snapshot(store, tables))))
  {
    if user.botState == Some(PermissionsAddState) {
      EditReportPermissionsAddRole(bot, store, tables, crm, user);
    } else if user.botState == Some(PermissionsRemoveState) {
      EditReportPermissionsRemoveRole(bot, store, tables, crm, user);
    } else {
      bot.SendMessage(user.chatId, "Error: unknown state", []);
    }
  }

  method CardRouter(bot: Bot, store: SessionStore, tables: Tables, crm: TopayCloser.ReceiptService,
                    user: User, w: World)
    requires store.Valid() && ValidUser(user)
    modifies bot, store
    ensures store.Valid() && store.botUsers == old(store.botUsers)
    ensures Took(bot, store, tables, crm, CardRoute(user, old(Snapshot(store, tables)), w))
  {
    var v := user.botStateValue;
    if v == Some(CommandEditPermissions) {
      EditReportPermissions(bot, store, tables, crm, user, w.allowedRoleNames, w.unallowedRoleNames);
    } else if v == Some(CommandEditQuery) {
      EditReportQuery(bot, store, tables, crm, user);
    } else {
      bot.SendMessage(user.chatId, "Error: unknown command", []);
    }
  }

  method PermissionsRouter(bot: Bot, store: SessionStore, tables: Tables, crm: TopayCloser.ReceiptService,
                           user: User, w: World)
    requires store.Valid() && ValidUser(user)
    modifies bot, store
    ensures store.Valid() && store.botUsers == old(store.botUsers)
    ensures Took(bot, store, tables, crm, PermissionsRoute(user, old(Snapshot(store, tables)), w))
  {
    var v := user.botStateValue;
    if v == Some(CommandPermissionsAdd) {
      EditReportPermissionsAdd(bot, store, tables, crm, user, w.unallowedRoles);
    } else if v == Some(CommandPermissionsRemove) {
      EditReportPermissionsRemove(bot, store, tables, crm, user, w.allowedRoles);
    } else {
      bot.SendMessage(user.chatId, "Error: unknown state", []);
    }
  }

  // ---------------------------------------------------------------------------------------------
  // The entry points: the commands, the `main#` buttons and the next message after a query prompt.

  const NoConversation: string := "Error: conversation not found, restart your command"

  /** The sender's session: the stored record, or a new one, saved, when none is stored. */
  function Session(db: Db, fromId: int, username: Option<string>, fullName: Option<string>): (r: (User, Db))
    requires fromId > 0 && WellFormed(db.entries)
    ensures ValidUser(r.0) && r.0.chatId == fromId
    ensures Lookup(db.entries, fromId).Some? ==> r == (Lookup(db.entries, fromId).value, db)
    ensures Lookup(db.entries, fromId).None? ==>
      r.0 == NewUser(fromId, username, fullName, None) && r.1 == db.(entries := Store(db.entries, r.0))
  {
    LookupWellFormed(db.entries, fromId);
    var found := Lookup(db.entries, fromId);
    if found.Some? then (found.value, db)
    else
      var u := NewUser(fromId, username, fullName, None);
      (u, db.(entries := Store(db.entries, u)))
  }

  /** `/start`: a fresh session in REPORTS_I, saved to the store and to `bot_users`, then routed. */
  function StartTurn(fromId: int, username: Option<string>, fullName: Option<string>, db: Db, w: World,
                     newReceipt: Json -> Result<TopayCloser.Receipt>,
                     pushError: (CreatioWorker.Task, string) -> Option<string>): Turn
    requires fromId > 0
  {
    var u := NewUser(fromId, username, fullName, Some(ReportsI));
    Route(u, db.(entries := Store(db.entries, u)), w, newReceipt, pushError)
  }

  /** `/reports` and `/commands`: the session (created if missing) set to `state`, routed, not saved first. */
  function MenuCommandTurn(fromId: int, username: Option<string>, fullName: Option<string>, state: string,
                           db: Db, w: World, newReceipt: Json -> Result<TopayCloser.Receipt>,
                           pushError: (CreatioWorker.Task, string) -> Option<string>): Turn
    requires fromId > 0 && WellFormed(db.entries)
  {
    var (u, db1) := Session(db, fromId, username, fullName);
    Route(u.(botState := Some(state)), db1, w, newReceipt, pushError)
  }

  /** A `main#` button: the keyboard message is deleted and the session routed with the pressed value. */
  function CallbackTurn(fromId: int, chatId: int, messageId: int, data: string, db: Db, w: World,
                        newReceipt: Json -> Result<TopayCloser.Receipt>,
                        pushError: (CreatioWorker.Task, string) -> Option<string>): Turn
    requires WellFormed(db.entries)
  {
    LookupWellFormed(db.entries, fromId);
    var found := Lookup(db.entries, fromId);
    if found.None? then Only(db, Say(fromId, NoConversation))
    else
      match CallbackValue(data)
      case Err(e) => Turn([Deleted(chatId, messageId)], db, [], Some(e))
      case Ok(v) =>
        var t := Route(found.value.(botStateValue := Some(v)), db, w, newReceipt, pushError);
        t.(replies := [Deleted(chatId, messageId)] + t.replies)
  }

  /** `edit_report_query_next_step`: the message text becomes the query of the session's `report_id`. */
  function NextStepTurn(fromId: int, chatId: int, text: string, db: Db): Turn {
    var found := Lookup(db.entries, fromId);
    if found.None? then Only(db, Say(fromId, NoConversation))
    else Only(db.(reports := WithQuery(db.reports, found.value.reportId, text)), Say(chatId, "Query updated"))
  }

  /** `/start`. */
  method CommandStart(bot: Bot, store: SessionStore, tables: Tables, crm: TopayCloser.ReceiptService,
                      fromId: int, username: Option<string>, fullName: Option<string>, w: World)
    returns (raised: Option<string>)
    requires store.Valid() && fromId > 0
    modifies bot, store, tables, crm
    ensures store.Valid()
    ensures store.botUsers == old(store.botUsers)[fromId := BotUserRow(username, fullName,
      DumpUser(NewUser(fromId, username, fullName, Some(ReportsI))))]
    ensures Took(bot, store, tables, crm, StartTurn(fromId, username, fullName, old(Snapshot(store, tables)), w, crm.newReceipt, crm.pushError))
    ensures raised == StartTurn(fromId, username, fullName, old(Snapshot(store, tables)), w, crm.newReceipt, crm.pushError).raised
  {
    var u := NewUser(fromId, username, fullName, Some(ReportsI));
    store.SaveToRedis(u);
    store.SaveToDb(u);
    raised := Router(bot, store, tables, crm, u, w);
  }

  /** The common body of `/reports` and `/commands`. */
  method MenuCommand(bot: Bot, store: SessionStore, tables: Tables, crm: TopayCloser.ReceiptService,
                     fromId: int, username: Option<string>, fullName: Option<string>, state: string, w: World)
    returns (raised: Option<string>)
    requires store.Valid() && fromId > 0
    modifies bot, store, tables, crm
    ensures store.Valid() && store.botUsers == old(store.botUsers)
    ensures var t := MenuCommandTurn(fromId, username, fullName, state, old(Snapshot(store, tables)), w, crm.newReceipt, crm.pushError);
            Took(bot, store, tables, crm, t) && raised == t.raised
  {
    var found := store.GetFromRedis(fromId);
    var u: User;
    if found.None? {
      u := NewUser(fromId, username, fullName, None);
      store.SaveToRedis(u);
    } else {
      u := found.value;
    }
    raised := Router(bot, store, tables, crm, u.(botState := Some(state)), w);
  }

  /** `/reports`. */
  method CommandReports(bot: Bot, store: SessionStore, tables: Tables, crm: TopayCloser.ReceiptService,
                        fromId: int, username: Option<string>, fullName: Option<string>, w: World)
    returns (raised: Option<string>)
    requires store.Valid() && fromId > 0
    modifies bot, store, tables, crm
    ensures store.Valid() && store.botUsers == old(store.botUsers)
    ensures var t := MenuCommandTurn(fromId, username, fullName, ReportsI, old(Snapshot(store, tables)), w, crm.newReceipt, crm.pushError);
            Took(bot, store, tables, crm, t) && raised == t.raised
  {
    raised := MenuCommand(bot, store, tables, crm, fromId, username, fullName, ReportsI, w);
  }

  /** `/commands`. */
  method CommandCommands(bot: Bot, store: SessionStore, tables: Tables, crm: TopayCloser.ReceiptService,
                         fromId: int, username: Option<string>, fullName: Option<string>, w: World)
    returns (raised: Option<string>)
    requires store.Valid() && fromId > 0
    modifies bot, store, tables, crm
    ensures store.Valid() && store.botUsers == old(store.botUsers)
    ensures var t := MenuCommandTurn(fromId, username, fullName, CommandsI, old(Snapshot(store, tables)), w, crm.newReceipt, crm.pushError);
            Took(bot, store, tables, crm, t) && raised == t.raised
  {
    raised := MenuCommand(bot, store, tables, crm, fromId, username, fullName, CommandsI, w);
  }

  /** `/my_id` and `/myid`: the sender's id, as a reply in the chat. */
  method CommandMyId(bot: Bot, fromId: int, chatId: int)
    modifies bot
    ensures bot.sent == old(bot.sent) + [Say(chatId, IntToString(fromId))]
  {
    bot.SendMessage(chatId, IntToString(fromId), []);
  }

  /**
   * `all_callback_query_handler` for data starting with "main#": `fromId` is the presser, `chatId`
   * and `messageId` the message holding the keyboard. The deletion's failure is ignored.
   */
  method CallbackQuery(bot: Bot, store: SessionStore, tables: Tables, crm: TopayCloser.ReceiptService,
                       fromId: int, chatId: int, messageId: int, data: string, w: World)
    returns (raised: Option<string>)
    requires Prefix <= data && store.Valid()
    modifies bot, store, tables, crm
    ensures store.Valid() && store.botUsers == old(store.botUsers)
    ensures var t := CallbackTurn(fromId, chatId, messageId, data, old(Snapshot(store, tables)), w, crm.newReceipt, crm.pushError);
            Took(bot, store, tables, crm, t) && raised == t.raised
  {
    var user := store.GetFromRedis(fromId);
    if user.None? {
      bot.SendMessage(fromId, NoConversation, []);
      return None;
    }
    bot.DeleteMessage(chatId, messageId);
    var value := CallbackValue(data);
    if value.Err? {
      return Some(value.error);
    }
    ghost var before := bot.sent;
    raised := Router(bot, store, tables, crm, user.value.(botStateValue := Some(value.value)), w);
    Assoc(old(bot.sent), [Deleted(chatId, messageId)], bot.sent[|before|..]);
  }

  /** `edit_report_query_next_step`: `fromId` is the sender, `chatId` the chat the message came from. */
  method EditReportQueryNextStep(bot: Bot, store: SessionStore, tables: Tables, crm: TopayCloser.ReceiptService,
                                 fromId: int, chatId: int, text: string)
    requires store.Valid()
    modifies bot, tables
    ensures Took(bot, store, tables, crm, NextStepTurn(fromId, chatId, text, old(Snapshot(store, tables))))
  {
    var user := store.GetFromRedis(fromId);
    if user.None? {
      bot.SendMessage(fromId, NoConversation, []);
      return;
    }
    tables.UpdateQuery(user.value.reportId, text);
    bot.SendMessage(chatId, "Query updated", []);
  }
}
