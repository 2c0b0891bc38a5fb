/**
 * `TaskEventHandler` and `UserStoryEventHandler`: claim events by their type prefix, screen the
 * event through a sequence of guards, call the matching service method and then the notification
 * use case. The two handlers differ only in the item kind, so one class carries it (through its use
 * case). The services only log; their calls are kept as a trace in a `ServiceLog`.
 */
module NotificationHandlers {
  import opened Wrappers
  import opened Json
  import opened NotificationModels
  import opened UserRepository
  import opened NotificationSender
  import opened NotificationUseCases

  /** The event-type prefix each handler claims. */
  function EventPrefix(kind: ItemKind): string {
    match kind
    case TaskKind => "tasks.task."
    case StoryKind => "userstories.userstory."
  }

  /** The key of the item inside the timeline data. */
  function DataKey(kind: ItemKind): string {
    match kind
    case TaskKind => "task"
    case StoryKind => "userstory"
  }

  function MissingItemWarning(kind: ItemKind): string {
    match kind
    case TaskKind => "No task data found in event"
    case StoryKind => "No user story data found in event"
  }

  /** `can_handle(event)`: `event_type.startswith(prefix)`, which raises when the type is not text. */
  function CanHandle(kind: ItemKind, event: EventData): (r: Result<bool>)
    ensures r.Err? <==> !event.eventType.JStr?
    ensures r == Ok(true) <==> event.eventType.JStr? && EventPrefix(kind) <= event.eventType.s
  {
    match event.eventType
    case JStr(s) => Ok(EventPrefix(kind) <= s)
    case _ => Err("'" + TypeName(event.eventType) + "' object has no attribute 'startswith'")
  }

  /** No event is claimed by both handlers. */
  lemma ClaimsAreDisjoint(event: EventData)
    ensures !(CanHandle(TaskKind, event) == Ok(true) && CanHandle(StoryKind, event) == Ok(true))
  {
    if CanHandle(TaskKind, event) == Ok(true) {
      var s := event.eventType.s;
      assert s[0] == 't';
      assert !(EventPrefix(StoryKind) <= s);
    }
  }

  /** How the guard sequence of `handle` ends: a logged warning, a swallowed exception, or a go-ahead. */
  datatype Outcome =
    | Warned(message: string)
    | Raised(error: string)
    | Accepted(item: Item, project: Project, user: TaigaUser)

  /**
   * The guards of `handle`, in order: item, project and user data must be truthy; then the item
   * and the project are parsed; then the user needs a truthy id the repository can resolve.
   */
  function Screen(kind: ItemKind, event: EventData, storage: Storage): (r: Outcome)
    ensures r.Accepted? <==>
      event.data.JObj?
      && Truthy(GetOr(event.data.fields, DataKey(kind), EmptyDict))
      && Truthy(GetOr(event.data.fields, "project", EmptyDict))
      && Truthy(GetOr(event.data.fields, "user", EmptyDict))
      && ItemFromDict(kind, GetOr(event.data.fields, DataKey(kind), EmptyDict)).Ok?
      && ProjectFromDict(GetOr(event.data.fields, "project", EmptyDict)).Ok?
      && GetOr(event.data.fields, "user", EmptyDict).JObj?
      && Truthy(Field(GetOr(event.data.fields, "user", EmptyDict).fields, "id"))
      && TaigaUserById(storage, Field(GetOr(event.data.fields, "user", EmptyDict).fields, "id")).Some?
    ensures r.Accepted? ==>
      r.item == ItemFromDict(kind, GetOr(event.data.fields, DataKey(kind), EmptyDict)).value
      && r.project == ProjectFromDict(GetOr(event.data.fields, "project", EmptyDict)).value
      && Some(r.user) == TaigaUserById(storage, Field(GetOr(event.data.fields, "user", EmptyDict).fields, "id"))
  {
    if !event.data.JObj? then Raised("'" + TypeName(event.data) + "' object has no attribute 'get'")
    else
      var timeline := event.data.fields;
      var itemData := GetOr(timeline, DataKey(kind), EmptyDict);
      var projectData := GetOr(timeline, "project", EmptyDict);
      var userData := GetOr(timeline, "user", EmptyDict);
      if !Truthy(itemData) then Warned(MissingItemWarning(kind))
      else if !Truthy(projectData) then Warned("No project data found in event")
      else if !Truthy(userData) then Warned("No user data found in event")
      else
        match ItemFromDict(kind, itemData)
        case Err(e) => Raised(e)
        case Ok(item) =>
          match ProjectFromDict(projectData)
          case Err(e) => Raised(e)
          case Ok(project) =>
            match Get(userData, "id", JNull)
            case Err(e) => Raised(e)
            case Ok(userId) =>
              if !Truthy(userId) then Warned("No user ID found in event")
              else
                match TaigaUserById(storage, userId)
                case None => Warned("User with ID " + Show(userId) + " not found")
                case Some(user) => Accepted(item, project, user)
  }

  /** The missing-data checks come before any parsing: missing data is a warning even when the item would not parse. */
  lemma MissingDataBeforeParsing(kind: ItemKind, event: EventData, storage: Storage)
    requires event.data.JObj?
    requires !Truthy(GetOr(event.data.fields, DataKey(kind), EmptyDict))
             || !Truthy(GetOr(event.data.fields, "project", EmptyDict))
             || !Truthy(GetOr(event.data.fields, "user", EmptyDict))
    ensures Screen(kind, event, storage).Warned?
  {
  }

  /** One call of a service of the item kind. */
  datatype ServiceCall =
    | Created(kind: ItemKind, item: Item)
    | Changed(kind: ItemKind, item: Item)
    | Deleted(kind: ItemKind, id: int)

  /** The service method the event type selects: create, change and delete; any other suffix selects none. */
  function ServiceCallOf(kind: ItemKind, eventType: Json, item: Item): (r: Option<ServiceCall>)
    ensures eventType == JStr(EventPrefix(kind) + "create") ==> r == Some(Created(kind, item))
    ensures eventType == JStr(EventPrefix(kind) + "change") ==> r == Some(Changed(kind, item))
    ensures eventType == JStr(EventPrefix(kind) + "delete") ==> r == Some(Deleted(kind, item.id))
    ensures r.None? <==> eventType !in {JStr(EventPrefix(kind) + "create"), JStr(EventPrefix(kind) + "change"),
                                         JStr(EventPrefix(kind) + "delete")}
  {
    SuffixesDiffer(kind);
    if eventType == JStr(EventPrefix(kind) + "create") then Some(Created(kind, item))
    else if eventType == JStr(EventPrefix(kind) + "change") then Some(Changed(kind, item))
    else if eventType == JStr(EventPrefix(kind) + "delete") then Some(Deleted(kind, item.id))
    else None
  }

  /** The three known event types of a kind are three different strings. */
  lemma SuffixesDiffer(kind: ItemKind)
    ensures EventPrefix(kind) + "create" != EventPrefix(kind) + "change"
    ensures EventPrefix(kind) + "create" != EventPrefix(kind) + "delete"
    ensures EventPrefix(kind) + "change" != EventPrefix(kind) + "delete"
  {
    var n := |EventPrefix(kind)|;
    assert (EventPrefix(kind) + "create")[n] == 'c' && (EventPrefix(kind) + "change")[n] == 'c';
    assert (EventPrefix(kind) + "delete")[n] == 'd';
    assert (EventPrefix(kind) + "create")[n + 1] == 'r' && (EventPrefix(kind) + "change")[n + 1] == 'h';
  }

  /**
   * What a service call raises. Only the change handler inspects the data: `"status" in values_diff`
   * needs a container, and `values_diff["status"]` then needs a dict.
   */
  function ServiceError(call: ServiceCall, timeline: Dict): (r: Option<string>)
    ensures !call.Changed? ==> r.None?
  {
    if !call.Changed? then None
    else
      var valuesDiff := GetOr(timeline, "values_diff", EmptyDict);
      match In("status", valuesDiff)
      case Err(e) => Some(e)
      case Ok(has) =>
        if !has then None
        else
          match Index(valuesDiff, "status")
          case Err(e) => Some(e)
          case Ok(_) => None
  }

  /** The task and user-story services: they only log, so each call is recorded. */
  class ServiceLog {
    var calls: seq<ServiceCall>

    constructor()
      ensures calls == []
    {
      calls := [];
    }

    /** `handle_<item>_created/changed/deleted(...)`: the call is made, and may raise. */
    method Record(call: ServiceCall, timeline: Dict) returns (error: Option<string>)
      modifies this
      ensures calls == old(calls) + [call]
      ensures error == ServiceError(call, timeline)
    {
      calls := calls + [call];
      error := ServiceError(call, timeline);
    }
  }

  /** One handler: its repository, its service and its notification use case (which fixes the kind). */
  class EventHandler {
    const repository: Storage
    const service: ServiceLog
    const usecase: NotifyChangeUseCase

    constructor(repository: Storage, service: ServiceLog, usecase: NotifyChangeUseCase)
      ensures this.repository == repository && this.service == service && this.usecase == usecase
    {
      this.repository := repository;
      this.service := service;
      this.usecase := usecase;
    }

    function Kind(): ItemKind {
      usecase.kind
    }

    /** The service calls `handle(event)` makes: at most one, and only for an accepted event. */
    function Calls(event: EventData): seq<ServiceCall> {
      match Screen(Kind(), event, repository)
      case Accepted(item, _, _) =>
        (match ServiceCallOf(Kind(), event.eventType, item)
         case Some(call) => [call]
         case None => [])
      case _ => []
    }

    /** Whether `handle(event)` reaches the notification: accepted, and the service call did not raise. */
    predicate Notifies(event: EventData) {
      var outcome := Screen(Kind(), event, repository);
      outcome.Accepted?
      && match ServiceCallOf(Kind(), event.eventType, outcome.item)
         case Some(call) => ServiceError(call, event.data.fields).None?
         case None => true
    }

    /** The deliveries `handle(event)` makes: one run of the use case, author skipped, or none. */
    function Deliveries(event: EventData): seq<Delivery> {
      var outcome := Screen(Kind(), event, repository);
      if Notifies(event) then usecase.Deliveries(outcome.item, outcome.project, event, outcome.user, true) else []
    }

    /** `handle(event)`: the guards in order, then the service, then the use case; nothing propagates. */
    method Handle(event: EventData)
      modifies service, usecase.sender.bot
      ensures service.calls == old(service.calls) + Calls(event)
      ensures usecase.sender.bot.delivered == old(usecase.sender.bot.delivered) + Deliveries(event)
    {
      var outcome := Screen(Kind(), event, repository);
      if !outcome.Accepted? {
        assert Calls(event) == [] && Deliveries(event) == [];
        return;
      }
      var call := ServiceCallOf(Kind(), event.eventType, outcome.item);
      if call.Some? {
        var error := service.Record(call.value, event.data.fields);
        if error.Some? {
          assert !Notifies(event);
          return;
        }
      }
      assert Notifies(event);
      usecase.Execute(outcome.item, outcome.project, event, outcome.user, true);
      if call.None? {
        assert service.calls + [] == service.calls;
      }
    }
  }

  /**
   * Every accepted event is notified exactly once unless it is a change whose service call raised;
   * an event whose type ends in no known suffix is notified without any service call.
   */
  lemma AcceptedIsNotified(h: EventHandler, event: EventData)
    requires Screen(h.Kind(), event, h.repository).Accepted?
    requires event.eventType != JStr(EventPrefix(h.Kind()) + "change")
    ensures h.Deliveries(event) ==
      var o := Screen(h.Kind(), event, h.repository);
      h.usecase.Deliveries(o.item, o.project, event, o.user, true)
    ensures event.eventType !in {JStr(EventPrefix(h.Kind()) + "create"), JStr(EventPrefix(h.Kind()) + "delete")} ==>
      h.Calls(event) == []
  {
  }

  /** A warning or a swallowed exception leaves no trace: no service call and no message. */
  lemma RejectedIsSilent(h: EventHandler, event: EventData)
    requires !Screen(h.Kind(), event, h.repository).Accepted?
    ensures h.Calls(event) == [] && h.Deliveries(event) == []
  {
  }
}
