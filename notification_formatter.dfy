/**
 * notification_listener/infrastructure/telegram/notification_formatter.py: the HTML text of a task
 * or user-story notification. The header names the project, the translated event and the item;
 * then come the change lines, collected in a fixed order, and the link to the item in Taiga.
 *
 * Values are rendered into the text as an f-string renders them (`Show`). An exception while the
 * text is built gives the one-line fallback "Событие в Taiga: {type}".
 */
module NotificationFormatter {
  import opened Wrappers
  import opened Text
  import opened Json
  import opened NotificationModels

  /** The event types with a Russian description. */
  const Translations: map<string, string> := map[
    "userstories.userstory.change" := "Изменение истории пользователя",
    "userstories.userstory.create" := "Создание истории пользователя",
    "userstories.userstory.delete" := "Удаление истории пользователя",
    "tasks.task.change" := "Изменение задачи",
    "tasks.task.create" := "Создание задачи",
    "tasks.task.delete" := "Удаление задачи",
    "epics.epic.change" := "Изменение эпика",
    "epics.epic.create" := "Создание эпика",
    "epics.epic.delete" := "Удаление эпика",
    "issues.issue.change" := "Изменение проблемы",
    "issues.issue.create" := "Создание проблемы",
    "issues.issue.delete" := "Удаление проблемы",
    "milestones.milestone.change" := "Изменение спринта",
    "milestones.milestone.create" := "Создание спринта",
    "milestones.milestone.delete" := "Удаление спринта"]

  /** `_get_event_description(event_type)`: looking up a list or a dict raises (they cannot be keys). */
  function EventDescription(eventType: Json): (r: Result<string>)
    ensures eventType.JStr? && eventType.s in Translations ==> r == Ok(Translations[eventType.s])
    ensures !(eventType.JStr? && eventType.s in Translations) && !(eventType.JList? || eventType.JObj?) ==>
      r == Ok("Событие: " + Show(eventType))
    ensures r.Err? <==> eventType.JList? || eventType.JObj?
  {
    if eventType.JList? || eventType.JObj? then Err("unhashable type: '" + TypeName(eventType) + "'")
    else if eventType.JStr? && eventType.s in Translations then Ok(Translations[eventType.s])
    else Ok("Событие: " + Show(eventType))
  }

  /** `_generate_url(project_slug, content_type, ref)`: as deep a link as the slug and the ref allow. */
  function GenerateUrl(baseUrl: string, slug: Json, contentType: string, ref: Json): (r: string)
    ensures Truthy(slug) && Truthy(ref) ==> r == baseUrl + "/project/" + Show(slug) + "/" + contentType + "/" + Show(ref)
    ensures Truthy(slug) && !Truthy(ref) ==> r == baseUrl + "/project/" + Show(slug)
    ensures !Truthy(slug) ==> r == baseUrl
  {
    if Truthy(slug) && Truthy(ref) then baseUrl + "/project/" + Show(slug) + "/" + contentType + "/" + Show(ref)
    else if Truthy(slug) then baseUrl + "/project/" + Show(slug)
    else baseUrl
  }

  /** The path segment of an item kind in a Taiga URL. */
  function ContentType(kind: ItemKind): string {
    match kind
    case TaskKind => "task"
    case StoryKind => "us"
  }

  // ---------------------------------------------------------------------------------------------
  // The change lines of `format_changes_description`, section by section.

  const UnknownUser: string := "Неизвестный пользователь"

  /** `a or b`. */
  function Or(a: Json, b: Json): Json {
    if Truthy(a) then a else b
  }

  /** A list of at least two elements, as a `[old, new]` diff is. */
  predicate IsPair(x: Json) {
    x.JList? && |x.items| >= 2
  }

  /** The acting user, unless the name is the placeholder for an unknown one. */
  function AuthorLines(userName: string): seq<string> {
    if userName != UnknownUser then ["👤 Изменения внёс: " + userName] else []
  }

  /** A comment's text without its paragraph tags and outer whitespace. */
  function CleanComment(html: string): string {
    Strip(ReplaceAll(ReplaceAll(html, "<p>", ""), "</p>", ""))
  }

  /** How a comment was touched: a deleted comment wins over an edited one. */
  function CommentVerb(timeline: Dict): string {
    if Truthy(GetOr(timeline, "comment_deleted", JBool(false))) then "удалил комментарий:"
    else if Truthy(GetOr(timeline, "comment_edited", JBool(false))) then "изменил комментарий:"
    else "прокомментировал:"
  }

  /** The comment line. A truthy `comment_html` that is not text raises on `.strip()`. */
  function CommentLines(timeline: Dict, userName: string): Result<seq<string>> {
    var html := GetOr(timeline, "comment_html", JStr(""));
    if !Truthy(html) then Ok([])
    else if !html.JStr? then Err("'" + TypeName(html) + "' object has no attribute 'strip'")
    else if Strip(html.s) == "" || CleanComment(html.s) == "" then Ok([])
    else Ok(["💬 <b>" + userName + "</b> " + CommentVerb(timeline) + " " + CleanComment(html.s)])
  }

  /** The status line: a falsy side reads "--". */
  function StatusLines(diff: Json): Result<seq<string>> {
    var has :- In("status", diff);
    if !has then Ok([])
    else
      var change :- Index(diff, "status");
      if IsPair(change) then
        Ok(["🔄 Статус: " + Show(Or(change.items[0], JStr("--"))) + " → " + Show(Or(change.items[1], JStr("--")))])
      else Ok([])
  }

  /** One side of a sprint change: "Не в спринте" when falsy, a dict's `name` when it has one. */
  function SprintName(side: Json): string {
    var v := Or(side, JStr("Не в спринте"));
    if v.JObj? && "name" in v.fields then Show(v.fields["name"]) else Show(v)
  }

  function MilestoneLines(diff: Json): Result<seq<string>> {
    var has :- In("milestone", diff);
    if !has then Ok([])
    else
      var change :- Index(diff, "milestone");
      if IsPair(change) then Ok(["📅 Спринт: " + SprintName(change.items[0]) + " → " + SprintName(change.items[1])])
      else Ok([])
  }

  /** One side of an assignee change: "Не назначен" unless it is a dict with a `name`. */
  function AssigneeName(side: Json): string {
    if Truthy(side) && side.JObj? && "name" in side.fields then Show(side.fields["name"]) else "Не назначен"
  }

  function AssigneeLines(diff: Json): Result<seq<string>> {
    var has :- In("assigned_to", diff);
    if !has then Ok([])
    else
      var change :- Index(diff, "assigned_to");
      if IsPair(change) then Ok(["👤 Исполнитель: " + AssigneeName(change.items[0]) + " → " + AssigneeName(change.items[1])])
      else Ok([])
  }

  /** The description line: `description_diff` inside `values_diff` wins over the timeline's own. */
  function DescriptionLines(diff: Json, timeline: Dict, userName: string): Result<seq<string>> {
    var inValues :- In("description_diff", diff);
    var inTimeline := "description_diff" in timeline;
    if !inValues && !inTimeline then Ok([])
    else
      var text :- if inValues then Get(diff, "description_diff", JNull) else Ok(Field(timeline, "description_diff"));
      if Truthy(text) then Ok(["📝 <b>" + userName + "</b> изменил описание: " + Show(text)]) else Ok([])
  }

  function BacklogLines(diff: Json): Result<seq<string>> {
    var has :- In("backlog_order", diff);
    Ok(if has then ["📋 Изменен порядок в беклоге"] else [])
  }

  /** The status, sprint, assignee, description and backlog lines, in that order. */
  function FixedDiffLines(diff: Json, timeline: Dict, userName: string): Result<seq<string>> {
    var status :- StatusLines(diff);
    var sprint :- MilestoneLines(diff);
    var assignee :- AssigneeLines(diff);
    var description :- DescriptionLines(diff, timeline, userName);
    var backlog :- BacklogLines(diff);
    Ok(status + sprint + assignee + description + backlog)
  }

  /**
   * `for attr in x`: a list gives its elements; a non-empty dict or text gives text elements, on
   * which the loop body's `.get` raises; anything else is not iterable.
   */
  function Iterated(x: Json): Result<seq<Json>> {
    match x
    case JList(items) => Ok(items)
    case JObj(fields) => if fields == map[] then Ok([]) else Err("'str' object has no attribute 'get'")
    case JStr(s) => if s == "" then Ok([]) else Err("'str' object has no attribute 'get'")
    case _ => Err("'" + TypeName(x) + "' object is not iterable")
  }

  /** A missing side of a custom attribute's diff reads "-". */
  function Dash(x: Json): string {
    if x == JNull then "-" else Show(x)
  }

  /**
   * The line of one custom attribute: a new one needs a truthy name and value and shows its diff
   * or else its value; a changed one needs a `value_diff` pair.
   */
  function AttributeLine(attr: Json, changed: bool): Result<seq<string>> {
    var name :- Get(attr, "name", JStr(""));
    if changed then
      if "value_diff" in attr.fields && IsPair(attr.fields["value_diff"]) then
        var d := attr.fields["value_diff"];
        Ok(["📝 " + Show(name) + ": " + Dash(d.items[0]) + " → " + Dash(d.items[1])])
      else Ok([])
    else
      var value :- Get(attr, "value", JStr(""));
      if Truthy(name) && Truthy(value) then
        var d := Field(attr.fields, "value_diff");
        if IsPair(d) then Ok(["📝 " + Show(name) + ": " + Dash(d.items[0]) + " → " + Dash(d.items[1])])
        else Ok(["📝 " + Show(name) + ": " + Show(value)])
      else Ok([])
  }

  /** The lines of a run of custom attributes, in order; the first attribute that raises stops the run. */
  function AttributeLines(attrs: seq<Json>, changed: bool): Result<seq<string>> {
    if |attrs| == 0 then Ok([])
    else
      var init :- AttributeLines(attrs[..|attrs| - 1], changed);
      var last :- AttributeLine(attrs[|attrs| - 1], changed);
      Ok(init + last)
  }

  /** Once an attribute raises, so does every longer run that contains it. */
  lemma {:induction false} AttributeLinesStop(attrs: seq<Json>, i: nat, changed: bool)
    requires i < |attrs| && AttributeLines(attrs[..i], changed).Ok? && AttributeLine(attrs[i], changed).Err?
    ensures AttributeLines(attrs, changed) == Err(AttributeLine(attrs[i], changed).error)
  {
    var n := |attrs| - 1;
    if n == i {
      assert attrs[..n] == attrs[..i];
    } else {
      assert attrs[..n][..i] == attrs[..i];
      AttributeLinesStop(attrs[..n], i, changed);
    }
  }

  /** The new custom attributes, then the changed ones. */
  function CustomLines(diff: Json): Result<seq<string>> {
    var has :- In("custom_attributes", diff);
    if !has then Ok([])
    else
      var attrs :- Index(diff, "custom_attributes");
      var added :- Get(attrs, "new", JList([]));
      var addedItems :- Iterated(added);
      var addedLines :- AttributeLines(addedItems, false);
      var changed :- Get(attrs, "changed", JList([]));
      var changedItems :- Iterated(changed);
      var changedLines :- AttributeLines(changedItems, true);
      Ok(addedLines + changedLines)
  }

  /** The lines `values_diff` gives; an empty or missing one gives none. */
  function DiffLines(timeline: Dict, userName: string): Result<seq<string>> {
    var diff := GetOr(timeline, "values_diff", EmptyDict);
    if !Truthy(diff) then Ok([])
    else
      var fixed :- FixedDiffLines(diff, timeline, userName);
      var custom :- CustomLines(diff);
      Ok(fixed + custom)
  }

  /** `format_changes_description(event, user)`: author, comment, then the `values_diff` lines. */
  function ChangeLines(data: Json, user: TaigaUser): Result<seq<string>> {
    var userName := DisplayName(user);
    if !data.JObj? then Err("'" + TypeName(data) + "' object has no attribute 'get'")
    else
      var comment :- CommentLines(data.fields, userName);
      var diff :- DiffLines(data.fields, userName);
      Ok(AuthorLines(userName) + comment + diff)
  }

  // ---------------------------------------------------------------------------------------------
  // The message.

  const FormatterBaseUrl: string := "https://taiga.smartist.dev"

  /** The three header lines: the bold project, the bold event description and the italic item. */
  function Head(project: string, description: string, title: string): string {
    "<b>" + project + "</b>\n" + ("<b>" + description + "</b>\n" + "<i>" + title + "</i>\n")
  }

  /** The header lines and the optional changes block, then the link. */
  function Layout(head: string, block: string, url: string): string {
    head + block + "<a href='" + url + "'>Открыть в Taiga</a>"
  }

  function Block(changes: seq<string>): string {
    if |changes| > 0 then "\n" + Join(changes, "\n") + "\n" else ""
  }

  function Fallback(event: EventData): string {
    "Событие в Taiga: " + Show(event.eventType)
  }

  /** `format_task_notification` / `format_userstory_notification`. */
  function NotificationText(kind: ItemKind, item: Item, project: Project, event: EventData, user: TaigaUser,
                            baseUrl: string): string {
    match EventDescription(event.eventType)
    case Err(_) => Fallback(event)
    case Ok(description) =>
      match ChangeLines(event.data, user)
      case Err(_) => Fallback(event)
      case Ok(changes) =>
        Layout(Head("Проект " + Show(project.name), description, "#" + IntToString(item.ref) + ": " + Show(item.subject)),
               Block(changes),
               GenerateUrl(baseUrl, project.slug, ContentType(kind), JInt(item.ref)))
  }

  // ---------------------------------------------------------------------------------------------
  // The formatter's methods: the change list is appended to step by step, the custom attributes one
  // loop iteration at a time.

  /** `for attr in attrs: ... changes_description.append(...)` over one run of custom attributes. */
  method CollectAttributeLines(attrs: seq<Json>, changed: bool) returns (r: Result<seq<string>>)
    ensures r == AttributeLines(attrs, changed)
  {
    var lines: seq<string> := [];
    var i := 0;
    while i < |attrs|
      invariant 0 <= i <= |attrs|
      invariant AttributeLines(attrs[..i], changed) == Ok(lines)
    {
      var line := AttributeLine(attrs[i], changed);
      if line.Err? {
        AttributeLinesStop(attrs, i, changed);
        return Err(line.error);
      }
      assert attrs[..i + 1][..i] == attrs[..i];
      lines := lines + line.value;
      i := i + 1;
    }
    assert attrs[..i] == attrs;
    return Ok(lines);
  }

  /** The `custom_attributes` block: the new attributes, then the changed ones. */
  method CustomAttributeLines(diff: Json) returns (r: Result<seq<string>>)
    ensures r == CustomLines(diff)
  {
    var has :- In("custom_attributes", diff);
    if !has {
      return Ok([]);
    }
    var attrs :- Index(diff, "custom_attributes");
    var added :- Get(attrs, "new", JList([]));
    var addedItems :- Iterated(added);
    var addedLines :- CollectAttributeLines(addedItems, false);
    // `attrs.get` has already succeeded once, so `attrs` is a dict here
    var changed := GetOr(attrs.fields, "changed", JList([]));
    var changedItems :- Iterated(changed);
    var changedLines :- CollectAttributeLines(changedItems, true);
    return Ok(addedLines + changedLines);
  }

  /** `format_changes_description(event, user)`. */
  method FormatChangesDescription(event: EventData, user: TaigaUser) returns (r: Result<seq<string>>)
    ensures r == ChangeLines(event.data, user)
  {
    var userName := DisplayName(user);
    var lines := AuthorLines(userName);
    if !event.data.JObj? {
      return Err("'" + TypeName(event.data) + "' object has no attribute 'get'");
    }
    var timeline := event.data.fields;
    var comment :- CommentLines(timeline, userName);
    lines := lines + comment;
    var diff := GetOr(timeline, "values_diff", EmptyDict);
    if Truthy(diff) {
      var fixed :- FixedDiffLines(diff, timeline, userName);
      var custom :- CustomAttributeLines(diff);
      assert DiffLines(timeline, userName) == Ok(fixed + custom);
      Assoc(lines, fixed, custom);
      lines := lines + fixed + custom;
    } else {
      assert DiffLines(timeline, userName) == Ok([]);
      assert lines + [] == lines;
    }
    return Ok(lines);
  }

  /** `format_task_notification` (kind TaskKind) and `format_userstory_notification` (kind StoryKind). */
  method FormatNotification(kind: ItemKind, item: Item, project: Project, event: EventData, user: TaigaUser,
                            baseUrl: string) returns (message: string)
    ensures message == NotificationText(kind, item, project, event, user, baseUrl)
  {
    var description := EventDescription(event.eventType);
    if description.Err? {
      return Fallback(event);
    }
    var url := GenerateUrl(baseUrl, project.slug, ContentType(kind), JInt(item.ref));
    var changes := FormatChangesDescription(event, user);
    if changes.Err? {
      return Fallback(event);
    }
    message := Head("Проект " + Show(project.name), description.value, "#" + IntToString(item.ref) + ": " + Show(item.subject));
    message := Layout(message, Block(changes.value), url);
  }

  // ---------------------------------------------------------------------------------------------
  // Properties of the text.

  /** A message opens with the bold project line and ends with the link; when formatting raises it is the fallback. */
  lemma MessageLayout(kind: ItemKind, item: Item, project: Project, event: EventData, user: TaigaUser, baseUrl: string)
    ensures var m := NotificationText(kind, item, project, event, user, baseUrl);
      EventDescription(event.eventType).Ok? && ChangeLines(event.data, user).Ok? ==>
        "<b>" + ("Проект " + Show(project.name)) + "</b>\n" <= m
        && var link := "<a href='" + GenerateUrl(baseUrl, project.slug, ContentType(kind), JInt(item.ref)) + "'>Открыть в Taiga</a>";
           |link| <= |m| && m[|m| - |link|..] == link
    ensures EventDescription(event.eventType).Err? || ChangeLines(event.data, user).Err? ==>
      NotificationText(kind, item, project, event, user, baseUrl) == "Событие в Taiga: " + Show(event.eventType)
  {
    if EventDescription(event.eventType).Ok? && ChangeLines(event.data, user).Ok? {
      var title := "#" + IntToString(item.ref) + ": " + Show(item.subject);
      var url := GenerateUrl(baseUrl, project.slug, ContentType(kind), JInt(item.ref));
      LayoutShape("Проект " + Show(project.name), EventDescription(event.eventType).value, title,
                  Block(ChangeLines(event.data, user).value), url);
    }
  }

  /** A laid-out message is its bold first line, the rest of the text, and the link at the end. */
  lemma LayoutShape(project: string, description: string, title: string, block: string, url: string)
    ensures var m := Layout(Head(project, description, title), block, url);
      var top := "<b>" + project + "</b>\n";
      var link := "<a href='" + url + "'>Открыть в Taiga</a>";
      top <= m && |link| <= |m| && m[|m| - |link|..] == link
  {
    var top := "<b>" + project + "</b>\n";
    var rest := "<b>" + description + "</b>\n" + "<i>" + title + "</i>\n";
    var link := "<a href='" + url + "'>Открыть в Taiga</a>";
    var m := Layout(Head(project, description, title), block, url);
    assert m == top + (rest + block + link);
    assert m == (top + rest + block) + link;
  }

  /** Without a truthy `values_diff` only the author and comment lines appear, even with a timeline `description_diff`. */
  lemma DiffLinesNeedValuesDiff(data: Json, user: TaigaUser)
    requires data.JObj? && !Truthy(GetOr(data.fields, "values_diff", EmptyDict))
    ensures ChangeLines(data, user).Ok? ==>
      ChangeLines(data, user).value == AuthorLines(DisplayName(user)) + CommentLines(data.fields, DisplayName(user)).value
  {
  }

  /** The change lines come in the fixed order: author, comment, status, sprint, assignee, description, backlog, custom. */
  lemma ChangeOrder(data: Json, user: TaigaUser)
    requires data.JObj? && ChangeLines(data, user).Ok?
    ensures var n := DisplayName(user);
      var diff := GetOr(data.fields, "values_diff", EmptyDict);
      Truthy(diff) ==>
        ChangeLines(data, user).value
          == AuthorLines(n) + CommentLines(data.fields, n).value + StatusLines(diff).value + MilestoneLines(diff).value
             + AssigneeLines(diff).value + DescriptionLines(diff, data.fields, n).value + BacklogLines(diff).value
             + CustomLines(diff).value
  {
    var n := DisplayName(user);
    var diff := GetOr(data.fields, "values_diff", EmptyDict);
    if Truthy(diff) {
      var fixed := FixedDiffLines(diff, data.fields, n);
      var a, c := AuthorLines(n), CommentLines(data.fields, n).value;
      assert ChangeLines(data, user).value == a + c + DiffLines(data.fields, n).value;
      assert DiffLines(data.fields, n).value == fixed.value + CustomLines(diff).value;
      FixedOrder(diff, data.fields, n);
      Flatten(a, c, StatusLines(diff).value, MilestoneLines(diff).value, AssigneeLines(diff).value,
              DescriptionLines(diff, data.fields, n).value, BacklogLines(diff).value, CustomLines(diff).value);
    }
  }

  lemma Flatten(a: seq<string>, c: seq<string>, s: seq<string>, m: seq<string>, g: seq<string>, d: seq<string>,
                b: seq<string>, u: seq<string>)
    ensures a + c + ((s + m + g + d + b) + u) == a + c + s + m + g + d + b + u
  {
  }

  lemma FixedOrder(diff: Json, timeline: Dict, n: string)
    requires FixedDiffLines(diff, timeline, n).Ok?
    ensures FixedDiffLines(diff, timeline, n).value
      == StatusLines(diff).value + MilestoneLines(diff).value + AssigneeLines(diff).value
         + DescriptionLines(diff, timeline, n).value + BacklogLines(diff).value
  {
  }
}
