/**
 * The monolithic `TelegramNotificationSender` of `notification_listener/telegram_sender.py`: it
 * reads the payload itself, builds the whole message inside one `try`, falls back to the payload's
 * JSON on any exception there, and then messages every scrum master except the author.
 *
 * The `try` block is modelled in stages. The first stage runs up to the project name (lines 86-225);
 * an exception there leaves the local `user` unassigned. The second stage runs from line 228 on,
 * and an exception there leaves `user` bound. The difference matters after the `try`: line 463
 * reads `user`.
 */
module LegacySender {
  import opened Wrappers
  import opened Text
  import opened Json
  import opened NotificationModels
  import opened UserRepository
  import opened NotificationFormatter
  import opened NotificationSender
  import opened NotificationUseCases

  // ---------------------------------------------------------------------------------------------
  // Recipients.

  /** `[user["telegram_id"] for user in users]`: no filter, and a row without the column raises. */
  function ScrumMasterIds(rows: seq<Dict>): (r: Result<seq<Json>>)
    ensures r.Ok? <==> forall i :: 0 <= i < |rows| ==> "telegram_id" in rows[i]
    ensures r.Ok? ==> |r.value| == |rows| && forall i :: 0 <= i < |rows| ==> r.value[i] == rows[i]["telegram_id"]
  {
    if |rows| == 0 then Ok([])
    else
      var init :- ScrumMasterIds(rows[..|rows| - 1]);
      var id :- Index(JObj(rows[|rows| - 1]), "telegram_id");
      Ok(init + [id])
  }

  /** `get_scrum_masters()`: the ids of the role-1 rows; no rows gives `[]`. */
  function ScrumMasters(storage: Storage): (r: Result<seq<Json>>)
    ensures r == ScrumMasterIds(storage.usersByRole(ScrumMasterRole))
    ensures |storage.usersByRole(ScrumMasterRole)| == 0 ==> r == Ok([])
  {
    var users := storage.usersByRole(ScrumMasterRole);
    if |users| == 0 then Ok([]) else ScrumMasterIds(users)
  }

  // ---------------------------------------------------------------------------------------------
  // The first stage of the `try`: lines 86-225.

  /** Lines 93-109: `data`, decoded when it is text; whatever is falsy, absent or not JSON reads as `{}`. */
  function LegacyTimeline(payload: Dict, decode: string -> Option<Json>): (r: Json)
    ensures r == EmptyDict || Truthy(r)
  {
    var parsed :=
      if "data" in payload && Truthy(payload["data"]) then
        if payload["data"].JStr? then decode(payload["data"].s).GetOr(JNull) else payload["data"]
      else JNull;
    if Truthy(parsed) then parsed else EmptyDict
  }

  /**
   * The legacy sender reads the same timeline data as `EventData.from_dict`, except that a falsy
   * decoded value (a JSON `0`, `""` or `[]`) reads as `{}` here.
   */
  lemma TimelinesAgree(payload: Dict, decode: string -> Option<Json>)
    ensures Truthy(EventDataField(payload, decode)) ==> LegacyTimeline(payload, decode) == EventDataField(payload, decode)
    ensures !Truthy(EventDataField(payload, decode)) ==> LegacyTimeline(payload, decode) == EmptyDict
  {
  }

  /** `if row:` on a user lookup, then full name, else username, else "Пользователь #id"; no row gives `ifMissing`. */
  function RowName(row: Option<Dict>, id: Json, ifMissing: Json): (r: Json)
    ensures !Found(row) ==> r == ifMissing
    ensures Found(row) && Truthy(GetOr(row.value, "full_name", JNull)) ==> r == row.value["full_name"]
    ensures Found(row) && !Truthy(GetOr(row.value, "full_name", JNull)) && Truthy(GetOr(row.value, "username", JNull)) ==>
      r == row.value["username"]
    ensures Found(row) && !Truthy(GetOr(row.value, "full_name", JNull)) && !Truthy(GetOr(row.value, "username", JNull)) ==>
      r == JStr("Пользователь #" + Show(id))
  {
    if Found(row) then
      var full := GetOr(row.value, "full_name", JNull);
      var username := GetOr(row.value, "username", JNull);
      if Truthy(full) then full else if Truthy(username) then username else JStr("Пользователь #" + Show(id))
    else ifMissing
  }

  /** A person nested in the payload: a dict with an `id` is looked up, one with only a `name` gives that name. */
  function PartyName(x: Json, storage: Storage, ifMissing: Json): Json {
    if x.JObj? && "id" in x.fields then RowName(storage.taigaUser(x.fields["id"]), x.fields["id"], ifMissing)
    else if x.JObj? && "name" in x.fields then x.fields["name"]
    else ifMissing
  }

  /** Lines 137-183: the creator and the assignee of a task, for "tasks.task.create" only. */
  function CreationLines(eventType: string, task: Json, storage: Storage): (r: Result<seq<string>>)
    ensures eventType != "tasks.task.create" ==> r == Ok([])
  {
    if eventType != "tasks.task.create" then Ok([])
    else
      var hasOwner :- In("owner", task);
      var owner :- if hasOwner then Get(task, "owner", JNull) else Ok(JNull);
      // `in` has already succeeded on `task`, so it is a container here
      var hasAssigned := In("assigned_to", task).value;
      var assignee :- if hasAssigned then Get(task, "assigned_to", JNull) else Ok(JNull);
      Ok((if hasOwner then ["📝 Создатель: " + Show(PartyName(owner, storage, JStr(UnknownUser)))] else [])
         + (if hasAssigned && Truthy(assignee) then ["👤 Исполнитель: " + Show(PartyName(assignee, storage, JStr(UnknownUser)))] else []))
  }

  /** The URL segment, the object data and the creation lines the event-type prefix selects. */
  datatype Part = Part(contentType: string, objectData: Json, lines: seq<string>)

  /** Lines 128-196: user story, task, epic, sprint or issue by prefix; anything else is "unknown" with no data. */
  function ObjectPart(eventType: string, timeline: Json, storage: Storage): (r: Result<Part>)
    ensures r.Ok? ==>
      if "userstories." <= eventType then r.value.contentType == "us"
      else if "tasks." <= eventType then r.value.contentType == "task"
      else if "epics." <= eventType then r.value.contentType == "epic"
      else if "milestones." <= eventType then r.value.contentType == "milestone"
      else if "issues." <= eventType then r.value.contentType == "issue"
      else r.value == Part("unknown", EmptyDict, [])
    ensures r.Ok? && !("tasks." <= eventType && !("userstories." <= eventType)) ==> r.value.lines == []
  {
    if "userstories." <= eventType then
      var o :- Get(timeline, "userstory", EmptyDict);
      Ok(Part("us", o, []))
    else if "tasks." <= eventType then
      var o :- Get(timeline, "task", EmptyDict);
      var lines :- CreationLines(eventType, o, storage);
      Ok(Part("task", o, lines))
    else if "epics." <= eventType then
      var o :- Get(timeline, "epic", EmptyDict);
      Ok(Part("epic", o, []))
    else if "milestones." <= eventType then
      var o :- Get(timeline, "milestone", EmptyDict);
      Ok(Part("milestone", o, []))
    else if "issues." <= eventType then
      var o :- Get(timeline, "issue", EmptyDict);
      Ok(Part("issue", o, []))
    else Ok(Part("unknown", EmptyDict, []))
  }

  /** What the first stage of the `try` leaves behind for the rest of the message. */
  datatype Frame = Frame(timeline: Dict, eventType: string, contentType: string, creationLines: seq<string>,
                         subject: Json, ref: Json, slug: Json, projectName: Json)

  /**
   * Lines 86-225. Without a "project" key in the timeline the local `project` is never assigned,
   * so line 224 raises, whatever the rest of the payload says.
   */
  function LegacyFrame(storage: Storage, payload: Json, decode: string -> Option<Json>): (r: Result<Frame>)
    ensures payload.JObj? && In("project", LegacyTimeline(payload.fields, decode)) == Ok(false) ==> r.Err?
  {
    if !payload.JObj? then Err("'" + TypeName(payload) + "' object has no attribute 'get'")
    else
      var p := payload.fields;
      var eventType := GetOr(p, "event_type", JStr("unknown"));
      var timeline := LegacyTimeline(p, decode);
      var hasProject :- In("project", timeline);
      var project :- if hasProject then Get(timeline, "project", EmptyDict) else Ok(JNull);
      var slug :- if hasProject then Get(project, "slug", JNull) else Ok(JNull);
      var kind :- if eventType.JStr? then Ok(eventType.s)
                  else Err("'" + TypeName(eventType) + "' object has no attribute 'startswith'");
      var part :- ObjectPart(kind, timeline, storage);
      var subject :- Get(part.objectData, "subject", JStr("Без названия"));
      // `.get` has already succeeded on the object data, so it is a dict here
      var ref := GetOr(part.objectData.fields, "ref", JNull);
      if !hasProject then Err("cannot access local variable 'project' where it is not associated with a value")
      else
        var name := if Truthy(project) && "name" in project.fields then project.fields["name"] else JStr("Проект");
        Ok(Frame(timeline.fields, kind, part.contentType, part.lines, subject, ref, slug, name))
  }

  // ---------------------------------------------------------------------------------------------
  // The second stage of the `try`: lines 228-454.

  /**
   * Lines 232-304: the payload's `name` if truthy; otherwise, for a truthy `id`, the
   * `get_taiga_user_by_id` row decides (full name, username, "Пользователь #id", the same when no
   * row is found). The name of the direct `users_user` query (lines 249-273) is always replaced by
   * that decision, so it does not appear here.
   */
  function ActingUserName(user: Json, storage: Storage): (r: Result<Json>)
    ensures user.JObj? ==> r.Ok?
    ensures user.JObj? && Truthy(Field(user.fields, "name")) ==> r == Ok(user.fields["name"])
    ensures user.JObj? && !Truthy(Field(user.fields, "name")) && Truthy(Field(user.fields, "id")) ==>
      var id := user.fields["id"];
      r == Ok(RowName(storage.taigaUser(id), id, JStr("Пользователь #" + Show(id))))
    ensures user.JObj? && !Truthy(Field(user.fields, "name")) && !Truthy(Field(user.fields, "id")) ==> r == Ok(JStr(UnknownUser))
  {
    var hasName :- In("name", user);
    var name :- if hasName then Index(user, "name") else Ok(JNull);
    if hasName && Truthy(name) then Ok(name)
    else
      // `in` has already succeeded on `user`, so it is a container here
      var hasId := In("id", user).value;
      var id :- if hasId then Index(user, "id") else Ok(JNull);
      if hasId && Truthy(id) then Ok(RowName(storage.taigaUser(id), id, JStr("Пользователь #" + Show(id))))
      else Ok(JStr(UnknownUser))
  }

  /** Lines 307-308: the author line, unless the name is still the unknown-user placeholder. */
  function LegacyAuthorLines(userName: Json): seq<string> {
    if userName != JStr(UnknownUser) then ["👤 Изменения внёс: " + Show(userName)] else []
  }

  /** Lines 310-315: the comment without its paragraph tags; a truthy non-text comment raises on `.strip()`. */
  function LegacyCommentLines(timeline: Dict, userName: Json): (r: Result<seq<string>>)
    ensures !Truthy(GetOr(timeline, "comment_html", JStr(""))) ==> r == Ok([])
  {
    var html := GetOr(timeline, "comment_html", JStr(""));
    if !Truthy(html) then Ok([])
    else if !html.JStr? then Err("'" + TypeName(html) + "' object has no attribute 'strip'")
    else if Strip(html.s) == "" || CleanComment(html.s) == "" then Ok([])
    else Ok(["💬 " + Show(userName) + ": " + CleanComment(html.s)])
  }

  /** Lines 321-328: the raw status values, without the formatter's "--" for a falsy side. */
  function LegacyStatusLines(diff: Json): Result<seq<string>> {
    var has :- In("status", diff);
    if !has then Ok([])
    else
      var change :- Index(diff, "status");
      if IsPair(change) then Ok(["🔄 Статус: " + Show(change.items[0]) + " → " + Show(change.items[1])])
      else Ok([])
  }

  /** Lines 331-390: both sides of an assignee change, looked up by id; "Не назначен" when nothing is known. */
  function LegacyAssigneeLines(diff: Json, storage: Storage): Result<seq<string>> {
    var has :- In("assigned_to", diff);
    if !has then Ok([])
    else
      var change :- Index(diff, "assigned_to");
      if IsPair(change) then
        Ok(["👤 Исполнитель: " + Show(PartyName(change.items[0], storage, JStr("Не назначен")))
            + " → " + Show(PartyName(change.items[1], storage, JStr("Не назначен")))])
      else Ok([])
  }

  /** Lines 319-437: status, assignee, backlog and custom-attribute lines. Sprint and description changes are not shown. */
  function LegacyDiffLines(diff: Json, storage: Storage): Result<seq<string>> {
    var status :- LegacyStatusLines(diff);
    var assignee :- LegacyAssigneeLines(diff, storage);
    var backlog :- BacklogLines(diff);
    var custom :- CustomLines(diff);
    Ok(status + assignee + backlog + custom)
  }

  /** The change lines in order: creation, author, comment, then the `values_diff` lines. */
  function LegacyChanges(frame: Frame, user: Json, storage: Storage): Result<seq<string>> {
    var userName :- ActingUserName(user, storage);
    var comment :- LegacyCommentLines(frame.timeline, userName);
    var diff := GetOr(frame.timeline, "values_diff", EmptyDict);
    var diffLines :- if Truthy(diff) then LegacyDiffLines(diff, storage) else Ok([]);
    Ok(frame.creationLines + LegacyAuthorLines(userName) + comment + diffLines)
  }

  /** Lines 203-205: the event description, from the same table the formatter uses. */
  function LegacyDescription(eventType: string): string {
    if eventType in Translations then Translations[eventType] else "Событие: " + eventType
  }

  /** Lines 440-454: the three header lines, the changes block only when it is not empty, the link. */
  function LegacyText(baseUrl: string, frame: Frame, lines: seq<string>): string {
    var block := Join(lines, "\n");
    Layout(Head(Show(frame.projectName), LegacyDescription(frame.eventType), Show(frame.subject)),
           if block != "" then "\n" + block + "\n" else "",
           GenerateUrl(baseUrl, frame.slug, frame.contentType, frame.ref))
  }

  /** How the `try` block ends, and whether the local `user` was assigned by then. */
  datatype Attempt =
    | Formatted(message: string, user: Json)
    | FailedBound(user: Json)
    | FailedUnbound

  /** Lines 86-459: `user` is bound exactly when the first stage got through. */
  function Attempted(storage: Storage, baseUrl: string, decode: string -> Option<Json>, payload: Json): (r: Attempt)
    ensures r.FailedUnbound? <==> LegacyFrame(storage, payload, decode).Err?
    ensures !r.FailedUnbound? ==> r.user == GetOr(LegacyFrame(storage, payload, decode).value.timeline, "user", EmptyDict)
  {
    match LegacyFrame(storage, payload, decode)
    case Err(_) => FailedUnbound
    case Ok(frame) =>
      var user := GetOr(frame.timeline, "user", EmptyDict);
      match LegacyChanges(frame, user, storage)
      case Err(_) => FailedBound(user)
      case Ok(lines) => Formatted(LegacyText(baseUrl, frame, lines), user)
  }

  /** A formatting exception replaces the message with the payload's JSON in a code block. */
  function PayloadDump(dump: Json -> string, payload: Json): string {
    "<code>" + dump(payload) + "</code>"
  }

  /** Lines 462-468: the author's Telegram id, through the user lookup; `None` when unknown. */
  function AuthorTelegramId(user: Json, storage: Storage): Result<Json> {
    var hasId :- In("id", user);
    var id :- if hasId then Index(user, "id") else Ok(JNull);
    if hasId && Truthy(id) then
      var row := storage.taigaUser(id);
      Ok(if Found(row) && Truthy(GetOr(row.value, "telegram_id", JNull)) then GetOr(row.value, "telegram_id", JNull) else JNull)
    else Ok(JNull)
  }

  /** What `send_notification` will do once it gets to its sending loop. */
  datatype Plan =
    | Quiet
    | Broadcast(recipients: seq<Json>, author: Json, message: string)

  /**
   * `send_notification(payload)` up to the loop: no scrum masters means a quiet return; a `try`
   * that failed before `user` was assigned, or an author lookup on a `user` that is not a dict
   * with `in`, raises out of the method.
   */
  function LegacyPlan(storage: Storage, baseUrl: string, decode: string -> Option<Json>, dump: Json -> string,
                      payload: Json): (r: Result<Plan>)
    ensures ScrumMasters(storage).Err? ==> r == Err(ScrumMasters(storage).error)
    ensures ScrumMasters(storage) == Ok([]) ==> r == Ok(Quiet)
    ensures r == Ok(Quiet) ==> ScrumMasters(storage) == Ok([])
  {
    var ids :- ScrumMasters(storage);
    if |ids| == 0 then Ok(Quiet)
    else PlanFrom(ids, Attempted(storage, baseUrl, decode, payload), storage, dump, payload)
  }

  /**
   * Lines 455-468, after the `try`: a failed attempt sends the payload's JSON instead, an unbound
   * `user` raises, and so does an author lookup on a `user` that `in` does not accept.
   */
  function PlanFrom(ids: seq<Json>, attempt: Attempt, storage: Storage, dump: Json -> string, payload: Json): (r: Result<Plan>)
    ensures r.Err? <==> attempt.FailedUnbound? || AuthorTelegramId(attempt.user, storage).Err?
    ensures r.Ok? ==> r.value == Broadcast(ids, AuthorTelegramId(attempt.user, storage).value,
                                           if attempt.Formatted? then attempt.message else PayloadDump(dump, payload))
  {
    match attempt
    case FailedUnbound => Err("cannot access local variable 'user' where it is not associated with a value")
    case FailedBound(user) =>
      var author :- AuthorTelegramId(user, storage);
      Ok(Broadcast(ids, author, PayloadDump(dump, payload)))
    case Formatted(message, user) =>
      var author :- AuthorTelegramId(user, storage);
      Ok(Broadcast(ids, author, message))
  }

  /**
   * A timeline without project data stops the first stage, so the fallback finds `user` unbound:
   * with scrum masters to notify, `send_notification` raises and nobody is messaged.
   */
  lemma MissingProjectIsRaised(storage: Storage, baseUrl: string, decode: string -> Option<Json>, dump: Json -> string,
                               payload: Json)
    requires payload.JObj? && In("project", LegacyTimeline(payload.fields, decode)) == Ok(false)
    requires ScrumMasters(storage).Ok? && |ScrumMasters(storage).value| > 0
    ensures LegacyPlan(storage, baseUrl, decode, dump, payload).Err?
  {
    assert Attempted(storage, baseUrl, decode, payload).FailedUnbound?;
  }

  /** When every scrum master has a Telegram id the legacy list is the filtered list of `get_recipients`. */
  lemma {:induction false} LegacyRecipientsAgree(rows: seq<Dict>)
    requires forall i :: 0 <= i < |rows| ==> "telegram_id" in rows[i] && Truthy(rows[i]["telegram_id"])
    ensures ScrumMasterIds(rows) == Ok(Recipients(rows))
  {
    if |rows| > 0 {
      LegacyRecipientsAgree(rows[..|rows| - 1]);
    }
  }

  /** A formatted message opens with the project name in bold and closes with the link into Taiga. */
  lemma FormattedShape(storage: Storage, baseUrl: string, decode: string -> Option<Json>, payload: Json)
    requires Attempted(storage, baseUrl, decode, payload).Formatted?
    ensures var frame := LegacyFrame(storage, payload, decode).value;
      var m := Attempted(storage, baseUrl, decode, payload).message;
      var link := "<a href='" + GenerateUrl(baseUrl, frame.slug, frame.contentType, frame.ref) + "'>Открыть в Taiga</a>";
      "<b>" + Show(frame.projectName) + "</b>\n" <= m && |link| <= |m| && m[|m| - |link|..] == link
  {
    var frame := LegacyFrame(storage, payload, decode).value;
    var lines := LegacyChanges(frame, GetOr(frame.timeline, "user", EmptyDict), storage).value;
    var block := Join(lines, "\n");
    LayoutShape(Show(frame.projectName), LegacyDescription(frame.eventType), Show(frame.subject),
                if block != "" then "\n" + block + "\n" else "",
                GenerateUrl(baseUrl, frame.slug, frame.contentType, frame.ref));
  }

  /** The monolithic sender with its storage, bot, base URL and the JSON codec it calls. */
  class LegacyTelegramSender {
    const storage: Storage
    const bot: HtmlBot
    const baseUrl: string
    const decode: string -> Option<Json>
    const dump: Json -> string

    constructor(storage: Storage, bot: HtmlBot, baseUrl: string, decode: string -> Option<Json>, dump: Json -> string)
      ensures this.storage == storage && this.bot == bot && this.baseUrl == baseUrl
      ensures this.decode == decode && this.dump == dump
    {
      this.storage := storage;
      this.bot := bot;
      this.baseUrl := baseUrl;
      this.decode := decode;
      this.dump := dump;
    }

    function Plan(payload: Json): Result<Plan> {
      LegacyPlan(storage, baseUrl, decode, dump, payload)
    }

    /** The exception that escapes `send_notification(payload)`, if any. */
    function Raised(payload: Json): (r: Option<string>)
      ensures r.Some? <==> Plan(payload).Err?
    {
      if Plan(payload).Err? then Some(Plan(payload).error) else None
    }

    /** The deliveries of one `send_notification(payload)`: every scrum master but the author, or none. */
    function Deliveries(payload: Json): seq<Delivery> {
      match Plan(payload)
      case Ok(Broadcast(ids, author, message)) => Sent(Audience(ids, author, true), message, bot.refuses)
      case _ => []
    }

    /** The `try` block of lines 86-459, appending change lines as it goes. */
    method FormatAttempt(payload: Json) returns (attempt: Attempt)
      ensures attempt == Attempted(storage, baseUrl, decode, payload)
    {
      var frame := LegacyFrame(storage, payload, decode);
      if frame.Err? {
        return FailedUnbound;
      }
      var f := frame.value;
      var user := GetOr(f.timeline, "user", EmptyDict);
      var userName := ActingUserName(user, storage);
      if userName.Err? {
        return FailedBound(user);
      }
      var changes := f.creationLines + LegacyAuthorLines(userName.value);
      var comment := LegacyCommentLines(f.timeline, userName.value);
      if comment.Err? {
        return FailedBound(user);
      }
      changes := changes + comment.value;
      var diff := GetOr(f.timeline, "values_diff", EmptyDict);
      var diffLines: seq<string> := [];
      if Truthy(diff) {
        var status := LegacyStatusLines(diff);
        if status.Err? {
          return FailedBound(user);
        }
        var assignee := LegacyAssigneeLines(diff, storage);
        if assignee.Err? {
          return FailedBound(user);
        }
        var backlog := BacklogLines(diff);
        if backlog.Err? {
          return FailedBound(user);
        }
        var custom := CustomAttributeLines(diff);
        if custom.Err? {
          return FailedBound(user);
        }
        diffLines := status.value + assignee.value + backlog.value + custom.value;
      }
      changes := changes + diffLines;
      return Formatted(LegacyText(baseUrl, f, changes), user);
    }

    /** `send_notification(payload)`; `raised` is the exception that escapes it, if any. */
    method SendNotification(payload: Json) returns (raised: Option<string>)
      modifies bot
      ensures raised == Raised(payload)
      ensures bot.delivered == old(bot.delivered) + Deliveries(payload)
    {
      var ids := ScrumMasters(storage);
      if ids.Err? {
        return Some(ids.error);
      }
      if |ids.value| == 0 {
        return None;
      }
      raised := FormatAndSend(payload, ids.value);
    }

    /** `send_notification(payload)` once there are scrum masters to message. */
    method FormatAndSend(payload: Json, ids: seq<Json>) returns (raised: Option<string>)
      requires ScrumMasters(storage) == Ok(ids) && |ids| > 0
      modifies bot
      ensures raised == Raised(payload)
      ensures bot.delivered == old(bot.delivered) + Deliveries(payload)
    {
      var attempt := FormatAttempt(payload);
      var plan := PlanFrom(ids, attempt, storage, dump, payload);
      assert Plan(payload) == plan;
      if plan.Err? {
        return Some(plan.error);
      }
      SendToScrumMasters(ids, plan.value.author, plan.value.message);
      return None;
    }

    /** Lines 471-485: skip the author, and a failed delivery does not stop the others. */
    method SendToScrumMasters(ids: seq<Json>, author: Json, message: string)
      modifies bot
      ensures bot.delivered == old(bot.delivered) + Sent(Audience(ids, author, true), message, bot.refuses)
    {
      ghost var before := bot.delivered;
      var i := 0;
      while i < |ids|
        invariant 0 <= i <= |ids|
        invariant bot.delivered == before + Sent(Audience(ids[..i], author, true), message, bot.refuses)
      {
        var id := ids[i];
        ghost var sentSoFar := Sent(Audience(ids[..i], author, true), message, bot.refuses);
        assert ids[..i + 1] == ids[..i] + [id];
        SentAudienceStep(ids[..i], id, author, true, message, bot.refuses);
        if !(Truthy(author) && id == author) {
          var sent := bot.SendMessage(id, message);
          Assoc(before, sentSoFar, Sent([id], message, bot.refuses));
        } else {
          assert sentSoFar + [] == sentSoFar;
        }
        i := i + 1;
      }
      assert ids[..i] == ids;
    }
  }

  /**
   * One `send_notification` sends the one message to each scrum master the bot accepts, except the
   * author of the change.
   */
  lemma BroadcastAudience(sender: LegacyTelegramSender, payload: Json, chat: Json)
    requires sender.Plan(payload).Ok? && sender.Plan(payload).value.Broadcast?
    ensures var plan := sender.Plan(payload).value;
      (forall d :: d in sender.Deliveries(payload) ==> d.text == plan.message)
      && (Delivery(chat, plan.message) in sender.Deliveries(payload) <==>
          chat in plan.recipients && !Skipped(chat, plan.author, true) && !sender.bot.refuses(chat, plan.message))
  {
    var plan := sender.Plan(payload).value;
    SentDeliveries(Audience(plan.recipients, plan.author, true), plan.message, sender.bot.refuses);
    AudienceMembership(plan.recipients, plan.author, true, chat);
  }
}
