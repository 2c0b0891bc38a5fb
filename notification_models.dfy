/**
 * The `models.py` files of notification_listener/domain (event, common, project, user, task and
 * userstory): the records the notification listener builds from a decoded database notification,
 * and the dict parsers (`from_dict`) that build them, with their defaults and the ValueErrors they
 * raise.
 *
 * Fields the parsers pass through without conversion keep their JSON value; `json.loads` of the
 * payload's `data` text is the parameter `decode` (None when the text is not JSON).
 */
module NotificationModels {
  import opened Wrappers
  import opened Text
  import opened Json

  /** `d.get(key)`: the value, or None when the key is missing. */
  function Field(d: Dict, key: string): Json {
    GetOr(d, key, JNull)
  }

  /** The Python value `{}`. */
  const EmptyDict: Json := JObj(map[])

  // ---------------------------------------------------------------------------------------------
  // domain/event/models.py

  /** `EventData`: the event type and the timeline data of one notification. */
  datatype EventData = EventData(eventType: Json, data: Json)

  /** The `data` field of `EventData.from_dict`: decoded when it is text, `{}` when it is falsy or not JSON. */
  function EventDataField(payload: Dict, decode: string -> Option<Json>): (r: Json)
    ensures "data" !in payload || !Truthy(payload["data"]) ==> r == EmptyDict
    ensures "data" in payload && Truthy(payload["data"]) && payload["data"].JStr? ==>
      r == (match decode(payload["data"].s) case Some(j) => j case None => EmptyDict)
    ensures "data" in payload && Truthy(payload["data"]) && !payload["data"].JStr? ==> r == payload["data"]
  {
    if "data" in payload && Truthy(payload["data"]) then
      if payload["data"].JStr? then decode(payload["data"].s).GetOr(EmptyDict)
      else payload["data"]
    else EmptyDict
  }

  /** `EventData.from_dict(payload)`: only a dict payload has `.get`. */
  function EventFromDict(payload: Json, decode: string -> Option<Json>): (r: Result<EventData>)
    ensures r.Ok? <==> payload.JObj?
    ensures r.Ok? ==> r.value.data == EventDataField(payload.fields, decode)
    ensures r.Ok? && "event_type" !in payload.fields ==> r.value.eventType == JStr("unknown")
    ensures r.Ok? && "event_type" in payload.fields ==> r.value.eventType == payload.fields["event_type"]
  {
    if payload.JObj? then
      Ok(EventData(GetOr(payload.fields, "event_type", JStr("unknown")), EventDataField(payload.fields, decode)))
    else Err("'" + TypeName(payload) + "' object has no attribute 'get'")
  }

  // ---------------------------------------------------------------------------------------------
  // domain/common/models.py: the user records nested in a task or user story.

  datatype Member = Member(id: int, username: Json, fullName: Json, telegramId: Json)

  /** `User.from_dict(data)`. */
  function MemberFromDict(d: Dict): (r: Result<Member>)
    ensures Field(d, "id") == JNull ==> r == Err("User ID cannot be None")
    ensures Field(d, "id") != JNull ==> (r.Ok? <==> ToInt(d["id"]).Ok?)
    ensures r.Ok? ==> r.value.id == ToInt(d["id"]).value
    ensures r.Ok? ==> r.value.username == (if "username" in d then d["username"] else JStr(""))
    ensures r.Ok? ==> r.value.fullName == Field(d, "full_name") && r.value.telegramId == Field(d, "telegram_id")
  {
    if Field(d, "id") == JNull then Err("User ID cannot be None")
    else
      var id :- ToInt(d["id"]);
      Ok(Member(id, GetOr(d, "username", JStr("")), Field(d, "full_name"), Field(d, "telegram_id")))
  }

  // ---------------------------------------------------------------------------------------------
  // domain/project/models.py

  datatype Project = Project(id: int, name: Json, slug: Json, description: Json)

  /** `Project.from_dict(data)`. */
  function ProjectFromDict(data: Json): (r: Result<Project>)
    ensures !data.JObj? ==> r.Err?
    ensures data.JObj? && Field(data.fields, "id") == JNull ==> r == Err("Project ID cannot be None")
    ensures data.JObj? && Field(data.fields, "id") != JNull ==> (r.Ok? <==> ToInt(data.fields["id"]).Ok?)
    ensures r.Ok? ==> data.JObj? && r.value.id == ToInt(data.fields["id"]).value
    ensures r.Ok? ==> r.value.name == (if "name" in data.fields then data.fields["name"] else JStr("Проект"))
    ensures r.Ok? ==> r.value.slug == (if "slug" in data.fields then data.fields["slug"] else JStr(""))
    ensures r.Ok? ==> r.value.description == Field(data.fields, "description")
  {
    if !data.JObj? then Err("'" + TypeName(data) + "' object has no attribute 'get'")
    else
      var d := data.fields;
      if Field(d, "id") == JNull then Err("Project ID cannot be None")
      else
        var id :- ToInt(d["id"]);
        Ok(Project(id, GetOr(d, "name", JStr("Проект")), GetOr(d, "slug", JStr("")), Field(d, "description")))
  }

  // ---------------------------------------------------------------------------------------------
  // domain/user/models.py: the acting Taiga user. `id` and `telegram_id` are kept as values because
  // the repository also builds the record from a row without converting them.

  datatype TaigaUser = TaigaUser(id: Json, username: Json, fullName: Json, telegramId: Json)

  /** `TaigaUser.from_dict(data)`. */
  function TaigaUserFromDict(d: Dict): (r: Result<TaigaUser>)
    ensures Field(d, "id") == JNull ==> r == Err("TaigaUser ID cannot be None")
    ensures Field(d, "id") != JNull ==>
      (r.Ok? <==> ToInt(d["id"]).Ok? && (Field(d, "telegram_id") == JNull || ToInt(d["telegram_id"]).Ok?))
    ensures r.Ok? ==> r.value.id == JInt(ToInt(d["id"]).value)
    ensures r.Ok? && Field(d, "telegram_id") == JNull ==> r.value.telegramId == JNull
    ensures r.Ok? && Field(d, "telegram_id") != JNull ==> r.value.telegramId == JInt(ToInt(d["telegram_id"]).value)
    ensures r.Ok? ==> r.value.username == (if "username" in d then d["username"] else JStr(""))
    ensures r.Ok? ==> r.value.fullName == Field(d, "full_name")
  {
    if Field(d, "id") == JNull then Err("TaigaUser ID cannot be None")
    else
      var id :- ToInt(d["id"]);
      var telegramId :- if Field(d, "telegram_id") == JNull then Ok(JNull)
                        else (match ToInt(d["telegram_id"]) case Ok(t) => Ok(JInt(t)) case Err(e) => Err(e));
      Ok(TaigaUser(JInt(id), GetOr(d, "username", JStr("")), Field(d, "full_name"), telegramId))
  }

  /** `get_display_name()`: the full name, else the username, else "Пользователь #{id}". */
  function DisplayName(u: TaigaUser): (r: string)
    ensures Truthy(u.fullName) ==> r == Show(u.fullName)
    ensures !Truthy(u.fullName) && Truthy(u.username) ==> r == Show(u.username)
    ensures !Truthy(u.fullName) && !Truthy(u.username) ==> r == "Пользователь #" + Show(u.id)
  {
    if Truthy(u.fullName) then Show(u.fullName)
    else if Truthy(u.username) then Show(u.username)
    else "Пользователь #" + Show(u.id)
  }

  // ---------------------------------------------------------------------------------------------
  // domain/task/models.py and domain/userstory/models.py: the two parsers are the same code and
  // differ only in the noun of their error texts.

  datatype ItemKind = TaskKind | StoryKind

  function Noun(kind: ItemKind): string {
    match kind
    case TaskKind => "Task"
    case StoryKind => "UserStory"
  }

  /** A task or a user story. */
  datatype Item = Item(
    id: int,
    ref: int,
    subject: Json,
    status: Json,
    projectId: Option<int>,
    assignedTo: Option<Member>,
    owner: Option<Member>,
    description: Json,
    milestone: Json)

  /** `assigned_to` / `owner`: parsed only from a truthy dict; a dict without `id` raises. */
  function PartyOf(d: Dict, key: string): (r: Result<Option<Member>>)
    ensures !(Truthy(Field(d, key)) && Field(d, key).JObj?) ==> r == Ok(None)
    ensures Truthy(Field(d, key)) && Field(d, key).JObj? ==>
      r == (match MemberFromDict(Field(d, key).fields) case Ok(m) => Ok(Some(m)) case Err(e) => Err(e))
  {
    var v := Field(d, key);
    if Truthy(v) && v.JObj? then
      match MemberFromDict(v.fields)
      case Ok(m) => Ok(Some(m))
      case Err(e) => Err(e)
    else Ok(None)
  }

  /** `milestone`: a dict's `name`, else the text of any other truthy value, else None. */
  function MilestoneOf(d: Dict): (r: Json)
    ensures !Truthy(Field(d, "milestone")) ==> r == JNull
    ensures Truthy(Field(d, "milestone")) && Field(d, "milestone").JObj? && "name" in Field(d, "milestone").fields ==>
      r == Field(d, "milestone").fields["name"]
    ensures Truthy(Field(d, "milestone")) && !(Field(d, "milestone").JObj? && "name" in Field(d, "milestone").fields) ==>
      r == JStr(Show(Field(d, "milestone")))
  {
    var m := Field(d, "milestone");
    if !Truthy(m) then JNull
    else if m.JObj? && "name" in m.fields then m.fields["name"]
    else JStr(Show(m))
  }

  /** `project_id`: a nested `project.id` wins over `project_id`; either is converted with `int`. */
  function ProjectIdOf(d: Dict): (r: Result<Option<int>>)
    ensures Field(d, "project").JObj? && Field(Field(d, "project").fields, "id") != JNull ==>
      r == (match ToInt(Field(Field(d, "project").fields, "id")) case Ok(i) => Ok(Some(i)) case Err(e) => Err(e))
    ensures !(Field(d, "project").JObj? && Field(Field(d, "project").fields, "id") != JNull) && Field(d, "project_id") != JNull ==>
      r == (match ToInt(Field(d, "project_id")) case Ok(i) => Ok(Some(i)) case Err(e) => Err(e))
    ensures !(Field(d, "project").JObj? && Field(Field(d, "project").fields, "id") != JNull) && Field(d, "project_id") == JNull ==>
      r == Ok(None)
  {
    var p := Field(d, "project");
    var v := if p.JObj? && Field(p.fields, "id") != JNull then Field(p.fields, "id") else Field(d, "project_id");
    if v == JNull then Ok(None)
    else
      match ToInt(v)
      case Ok(i) => Ok(Some(i))
      case Err(e) => Err(e)
  }

  /**
   * `Task.from_dict(data)` / `UserStory.from_dict(data)`. The assignee and owner are parsed first,
   * so their errors come before the id and ref checks; the project id is converted before the id
   * and the ref.
   */
  function ItemFromDict(kind: ItemKind, data: Json): (r: Result<Item>)
    ensures !data.JObj? ==> r.Err?
    ensures data.JObj? && PartyOf(data.fields, "assigned_to").Err? ==> r == Err(PartyOf(data.fields, "assigned_to").error)
    ensures data.JObj? && PartyOf(data.fields, "assigned_to").Ok? && PartyOf(data.fields, "owner").Err? ==>
      r == Err(PartyOf(data.fields, "owner").error)
    ensures data.JObj? && PartyOf(data.fields, "assigned_to").Ok? && PartyOf(data.fields, "owner").Ok? ==>
      (Field(data.fields, "id") == JNull ==> r == Err(Noun(kind) + " ID cannot be None"))
      && (Field(data.fields, "id") != JNull && Field(data.fields, "ref") == JNull ==>
            r == Err(Noun(kind) + " reference number cannot be None"))
    ensures r.Ok? ==>
      data.JObj? && Field(data.fields, "id") != JNull && Field(data.fields, "ref") != JNull
      && ToInt(data.fields["id"]).Ok? && ToInt(data.fields["ref"]).Ok?
    ensures r.Ok? ==>
      var d := data.fields;
      r.value.id == ToInt(d["id"]).value && r.value.ref == ToInt(d["ref"]).value
      && r.value.subject == (if "subject" in d then d["subject"] else JStr("Без названия"))
      && r.value.status == Field(d, "status") && r.value.description == Field(d, "description")
      && Ok(r.value.projectId) == ProjectIdOf(d) && Ok(r.value.assignedTo) == PartyOf(d, "assigned_to")
      && Ok(r.value.owner) == PartyOf(d, "owner") && r.value.milestone == MilestoneOf(d)
  {
    if !data.JObj? then Err("'" + TypeName(data) + "' object has no attribute 'get'")
    else
      var d := data.fields;
      var assignedTo :- PartyOf(d, "assigned_to");
      var owner :- PartyOf(d, "owner");
      var milestone := MilestoneOf(d);
      if Field(d, "id") == JNull then Err(Noun(kind) + " ID cannot be None")
      else if Field(d, "ref") == JNull then Err(Noun(kind) + " reference number cannot be None")
      else
        var projectId :- ProjectIdOf(d);
        var id :- ToInt(d["id"]);
        var ref :- ToInt(d["ref"]);
        Ok(Item(id, ref, GetOr(d, "subject", JStr("Без названия")), Field(d, "status"), projectId,
                assignedTo, owner, Field(d, "description"), milestone))
  }
}
