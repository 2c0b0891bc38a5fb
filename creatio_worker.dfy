/**
 * taiga_to_bpm/creatio_worker.py: reading a project's to-pay tasks from the database and, in the
 * standalone form of the receipt workflow, creating one receipt in the CRM with one line item
 * per task. The database answers are inputs. The CRM client is the `Creatio` class of the external
 * `sl_creatio_connector` package; it is modelled by module Creatio, the repository's own client of
 * the same name.
 */
module CreatioWorker {
  import opened Wrappers
  import opened Text
  import opened Json
  import opened Creatio

  /** A to-pay task; the dataclass converts nothing, so every field holds the row's value as it is. */
  datatype Task = Task(
    id: Json, subject: Json, bpmUserGuid: Json, deskGuid: Json, estimate: Json,
    hours: Json, minutes: Json, ref: Json, assignedToId: Json)

  /** The message of the error raised when the database URL is not configured. */
  const NoDbUrl: string := "DB_URL environment variable not set"

  /** `environ.get("DB_URL")` is missing or empty. */
  predicate DbUrlMissing(dbUrl: Option<string>) {
    dbUrl.None? || dbUrl.value == ""
  }

  /** Columns 0..8 of a row, in order; a shorter row raises at the first missing column. */
  function RowToTask(row: seq<Json>): (r: Result<Task>)
    ensures r.Ok? <==> |row| >= 9
  {
    if |row| < 9 then Err("tuple index out of range")
    else Ok(Task(row[0], row[1], row[2], row[3], row[4], row[5], row[6], row[7], row[8]))
  }

  function RowsToTasks(rows: seq<seq<Json>>): Result<seq<Task>> {
    if |rows| == 0 then Ok([])
    else
      var init :- RowsToTasks(rows[..|rows| - 1]);
      var last :- RowToTask(rows[|rows| - 1]);
      Ok(init + [last])
  }

  /** One task per row, in row order, each field taken from its column. */
  lemma {:induction false} RowsToTasksMapsColumns(rows: seq<seq<Json>>)
    requires forall k :: 0 <= k < |rows| ==> |rows[k]| >= 9
    ensures RowsToTasks(rows).Ok?
    ensures var tasks := RowsToTasks(rows).value;
      |tasks| == |rows| && forall k :: 0 <= k < |rows| ==>
        tasks[k] == Task(rows[k][0], rows[k][1], rows[k][2], rows[k][3], rows[k][4], rows[k][5], rows[k][6], rows[k][7], rows[k][8])
  {
    if |rows| > 0 {
      var init := rows[..|rows| - 1];
      assert forall k :: 0 <= k < |init| ==> init[k] == rows[k];
      RowsToTasksMapsColumns(init);
    }
  }

  /** What `get_tasks(project_id)` gives back when its query returns `rows`. */
  function Fetched(dbUrl: Option<string>, rows: seq<seq<Json>>): Result<seq<Task>> {
    if DbUrlMissing(dbUrl) then Err(NoDbUrl) else RowsToTasks(rows)
  }

  /** `get_tasks(project_id)`, given the rows its query returns. */
  method GetTasks(dbUrl: Option<string>, rows: seq<seq<Json>>) returns (r: Result<seq<Task>>)
    ensures DbUrlMissing(dbUrl) ==> r == Err(NoDbUrl)
    ensures !DbUrlMissing(dbUrl) ==> r == RowsToTasks(rows)
    ensures r == Fetched(dbUrl, rows)
  {
    if DbUrlMissing(dbUrl) {
      return Err(NoDbUrl);
    }
    var tasks: seq<Task> := [];
    for k := 0 to |rows|
      invariant RowsToTasks(rows[..k]) == Ok(tasks)
    {
      assert rows[..k + 1][..k] == rows[..k];
      var task := RowToTask(rows[k]);
      if task.Err? {
        ErrorStays(rows, k + 1, task.error);
        return Err(task.error);
      }
      tasks := tasks + [task.value];
    }
    assert rows[..|rows|] == rows;
    r := Ok(tasks);
  }

  /** Once a prefix of the rows raises, so do the rows as a whole, with the same error. */
  lemma {:induction false} ErrorStays(rows: seq<seq<Json>>, n: nat, e: string)
    requires n <= |rows| && RowsToTasks(rows[..n]) == Err(e)
    ensures RowsToTasks(rows) == Err(e)
  {
    if n < |rows| {
      var m := |rows| - 1;
      assert rows[..m][..n] == rows[..n];
      ErrorStays(rows[..m], n, e);
      assert rows[..m] == rows[..|rows| - 1];
    } else {
      assert rows[..n] == rows;
    }
  }

  /** The row of CRM settings: host, login, password and API version name. */
  datatype Settings = Settings(url: string, user: string, password: string, apiVersion: string)

  /** The `api_version_mapping` lookup. */
  function ApiVersion(name: string): (r: Result<OdataVersion>)
    ensures r.Ok? <==> name in {"v3", "v4", "v4core"}
    ensures r.Err? ==> r.error == "Unknown API version: " + name
  {
    if name == "v3" then Ok(V3)
    else if name == "v4" then Ok(V4)
    else if name == "v4core" then Ok(V4Core)
    else Err("Unknown API version: " + name)
  }

  /** The story link written on every line item. */
  function CardLink(t: Task): string {
    "https://taiga.smartist.dev/project/hapimeets/us/" + Show(t.ref)
  }

  /** The fields of a task's line item, with the hours and minutes passed on as they are. */
  function LineItem(t: Task, receiptId: Json): Dict {
    map["SLName" := t.subject, "SLExecutorId" := t.bpmUserGuid, "SLHours" := t.hours,
        "SLMinutes" := t.minutes, "SLCardLink" := JStr(CardLink(t)), "SLReceiptId" := receiptId]
  }

  /** The keys of the line-item dict literal, in the order it writes them. */
  const LineItemKeys: seq<string> := ["SLName", "SLExecutorId", "SLHours", "SLMinutes", "SLCardLink", "SLReceiptId"]

  /** The literal's keys are exactly the line item's keys. */
  lemma LineItemKeysExact(t: Task, receiptId: Json)
    ensures forall k :: k in LineItemKeys <==> k in LineItem(t, receiptId)
  {
  }

  /** What a connected client works with: its version, service link, headers and the CRM's answers by request number. */
  datatype Session = Session(v: OdataVersion, link: string, headers: map<string, string>, answers: nat -> Answer)

  /** The outcome of the workflow and the POST requests it made, in order. */
  datatype Run = Run(outcome: Result<string>, posted: seq<Request>)

  /** A create call's result that the workflow goes on with: truthy, and with an "Id" to read. */
  predicate Accepted(r: Option<Json>) {
    r.Some? && Truthy(r.value) && Index(r.value, "Id").Ok?
  }

  /** What a refused create call raises: "not created" for a falsy result, else the failing `["Id"]`. */
  function Refusal(r: Option<Json>, notCreated: string): string
    requires !Accepted(r)
  {
    if r.None? || !Truthy(r.value) then notCreated else Index(r.value, "Id").error
  }

  function ItemUrl(s: Session): string {
    CreateUrl(s.link, s.v, "SLReceiptTask")
  }

  /** The answer the CRM gives to the line item of task `k` (request `k + 1`; request 0 is the receipt). */
  function ItemResult(tasks: seq<Task>, k: nat, receiptId: Json, s: Session): Option<Json>
    requires k < |tasks|
  {
    CreateResult(s.v, ItemUrl(s), s.headers, LineItem(tasks[k], receiptId), s.answers(k + 1))
  }

  function ItemRefusal(tasks: seq<Task>, k: nat, receiptId: Json, s: Session): string
    requires k < |tasks| && !Accepted(ItemResult(tasks, k, receiptId, s))
  {
    Refusal(ItemResult(tasks, k, receiptId, s), "Task not created: data=" + ItemRepr(tasks[k], receiptId))
  }

  /** `repr` of a task's line item, as the dict literal builds it. */
  function ItemRepr(t: Task, receiptId: Json): string {
    LineItemKeysExact(t, receiptId);
    ReprDict(LineItemKeys, LineItem(t, receiptId))
  }

  /** The line items from task `k` on: each is created in turn, and the first one refused stops the rest. */
  function Items(tasks: seq<Task>, k: nat, receiptId: Json, s: Session): Run
    requires k <= |tasks|
    decreases |tasks| - k
  {
    if k == |tasks| then Run(Ok("Success"), [])
    else
      var request := Post(ItemUrl(s), LineItem(tasks[k], receiptId));
      if !Accepted(ItemResult(tasks, k, receiptId, s)) then Run(Err(ItemRefusal(tasks, k, receiptId, s)), [request])
      else
        var rest := Items(tasks, k + 1, receiptId, s);
        Run(rest.outcome, [request] + rest.posted)
  }

  /** The line-item requests for tasks `j` up to `n`, in task order, each naming the receipt. */
  function ItemRequests(tasks: seq<Task>, j: nat, n: nat, receiptId: Json, s: Session): (r: seq<Request>)
    requires j <= n <= |tasks|
    ensures |r| == n - j && forall i :: 0 <= i < n - j ==> r[i] == Post(ItemUrl(s), LineItem(tasks[j + i], receiptId))
  {
    seq(n - j, i requires 0 <= i < n - j => Post(ItemUrl(s), LineItem(tasks[j + i], receiptId)))
  }

  lemma ItemRequestsSnoc(tasks: seq<Task>, j: nat, k: nat, receiptId: Json, s: Session)
    requires j <= k < |tasks|
    ensures ItemRequests(tasks, j, k, receiptId, s) + [Post(ItemUrl(s), LineItem(tasks[k], receiptId))]
      == ItemRequests(tasks, j, k + 1, receiptId, s)
  {
  }

  lemma ItemRequestsCons(tasks: seq<Task>, j: nat, k: nat, receiptId: Json, s: Session)
    requires j < k <= |tasks|
    ensures [Post(ItemUrl(s), LineItem(tasks[j], receiptId))] + ItemRequests(tasks, j + 1, k, receiptId, s)
      == ItemRequests(tasks, j, k, receiptId, s)
  {
  }

  /** Accepted line items only add their request and go on. */
  lemma ItemsAccepted(tasks: seq<Task>, j: nat, receiptId: Json, s: Session)
    requires j < |tasks| && Accepted(ItemResult(tasks, j, receiptId, s))
    ensures var rest := Items(tasks, j + 1, receiptId, s);
            Items(tasks, j, receiptId, s) == Run(rest.outcome, [Post(ItemUrl(s), LineItem(tasks[j], receiptId))] + rest.posted)
  {
  }

  lemma {:induction false} ItemsSkip(tasks: seq<Task>, j: nat, k: nat, receiptId: Json, s: Session)
    requires j <= k <= |tasks|
    requires forall i :: j <= i < k ==> Accepted(ItemResult(tasks, i, receiptId, s))
    decreases k - j
    ensures Items(tasks, j, receiptId, s).outcome == Items(tasks, k, receiptId, s).outcome
    ensures Items(tasks, j, receiptId, s).posted == ItemRequests(tasks, j, k, receiptId, s) + Items(tasks, k, receiptId, s).posted
  {
    if j < k {
      ItemsSkip(tasks, j + 1, k, receiptId, s);
      var head := [Post(ItemUrl(s), LineItem(tasks[j], receiptId))];
      ItemsAccepted(tasks, j, receiptId, s);
      ItemRequestsCons(tasks, j, k, receiptId, s);
      Assoc(head, ItemRequests(tasks, j + 1, k, receiptId, s), Items(tasks, k, receiptId, s).posted);
    } else {
      assert ItemRequests(tasks, j, k, receiptId, s) == [];
    }
  }

  /** The line items of the tasks before `k` were all accepted. */
  predicate AcceptedUpTo(tasks: seq<Task>, k: nat, receiptId: Json, s: Session)
    requires k <= |tasks|
  {
    forall i :: 0 <= i < k ==> Accepted(ItemResult(tasks, i, receiptId, s))
  }

  lemma AcceptedStep(tasks: seq<Task>, k: nat, receiptId: Json, s: Session)
    requires k < |tasks| && AcceptedUpTo(tasks, k, receiptId, s) && Accepted(ItemResult(tasks, k, receiptId, s))
    ensures AcceptedUpTo(tasks, k + 1, receiptId, s)
  {
  }

  /** When every line item is accepted, one request goes out per task, in order, and the result is "Success". */
  lemma ItemsAllAccepted(tasks: seq<Task>, receiptId: Json, s: Session)
    requires forall i :: 0 <= i < |tasks| ==> Accepted(ItemResult(tasks, i, receiptId, s))
    ensures Items(tasks, 0, receiptId, s) == Run(Ok("Success"), ItemRequests(tasks, 0, |tasks|, receiptId, s))
  {
    ItemsSkip(tasks, 0, |tasks|, receiptId, s);
  }

  /**
   * The first refused line item ends the loop: the tasks before it and itself were posted, none
   * after it, and the workflow raises that item's error.
   */
  lemma ItemsStopAtFirstRefusal(tasks: seq<Task>, k: nat, receiptId: Json, s: Session)
    requires k < |tasks| && !Accepted(ItemResult(tasks, k, receiptId, s))
    requires forall i :: 0 <= i < k ==> Accepted(ItemResult(tasks, i, receiptId, s))
    ensures Items(tasks, 0, receiptId, s) ==
      Run(Err(ItemRefusal(tasks, k, receiptId, s)), ItemRequests(tasks, 0, k + 1, receiptId, s))
  {
    ItemsSkip(tasks, 0, k, receiptId, s);
    ItemRequestsSnoc(tasks, 0, k, receiptId, s);
  }

  /** The receipt message sent when nothing has to be closed. */
  const NothingToClose: string := "Таски для закрытия не найдены"

  function ReceiptUrl(s: Session): string {
    CreateUrl(s.link, s.v, "SLReceipt")
  }

  /** The receipt's fields: only the first task's desk. */
  function ReceiptData(tasks: seq<Task>): Dict
    requires |tasks| > 0
  {
    map["SLTrelloDeskId" := tasks[0].deskGuid]
  }

  function ReceiptResult(tasks: seq<Task>, s: Session): Option<Json>
    requires |tasks| > 0
  {
    CreateResult(s.v, ReceiptUrl(s), s.headers, ReceiptData(tasks), s.answers(0))
  }

  /** The workflow once the client is connected: the receipt, then its line items. */
  function WithClient(tasks: seq<Task>, s: Session): Run
    requires |tasks| > 0
  {
    var request := Post(ReceiptUrl(s), ReceiptData(tasks));
    var receipt := ReceiptResult(tasks, s);
    if !Accepted(receipt) then Run(Err(Refusal(receipt, "Receipt not created")), [request])
    else
      var items := Items(tasks, 0, Index(receipt.value, "Id").value, s);
      Run(items.outcome, [request] + items.posted)
  }

  /** The login and the header update, then the workflow with the connected client. */
  function Connected(tasks: seq<Task>, settings: Settings, v: OdataVersion, headers: map<string, string>,
                     authBody: Json, cookies: map<string, string>, answers: nat -> Answer): Run
    requires |tasks| > 0
  {
    if v == Test then Run(Err(TestHeadersError), [])
    else match FormsAuth(authBody, cookies)
    case Err(e) => Run(Err(e), [])
    case Ok(auth) =>
      if auth.Refused? then Run(Err(Show(auth.message)), [])
      else if "BPMCSRF" !in auth.cookies then Run(Err(NoCsrfCookie), [])
      else WithClient(tasks, Session(v, ServiceLink(settings.url, v), headers["BPMCSRF" := auth.cookies["BPMCSRF"]], answers))
  }

  /**
   * `create_receipt(project_id)`: the query answers (`taskRows`, `settingsRows`), the login answer
   * (`authBody`, `cookies`) and the CRM's answers stand for the outside world; `headers` is the
   * version's shared header dictionary before the call.
   */
  function ReceiptRun(dbUrl: Option<string>, taskRows: seq<seq<Json>>, settingsRows: seq<Settings>,
                      headers: map<string, string>, authBody: Json, cookies: map<string, string>,
                      answers: nat -> Answer): Run
  {
    if DbUrlMissing(dbUrl) then Run(Err(NoDbUrl), [])
    else match RowsToTasks(taskRows)
    case Err(e) => Run(Err(e), [])
    case Ok(tasks) =>
      if |tasks| == 0 then Run(Ok(NothingToClose), [])
      else if |settingsRows| == 0 then Run(Err("list index out of range"), [])
      else match ApiVersion(settingsRows[0].apiVersion)
      case Err(e) => Run(Err(e), [])
      case Ok(v) => Connected(tasks, settingsRows[0], v, headers, authBody, cookies, answers)
  }

  /** With no task to close the CRM is never contacted, whatever its settings. */
  lemma NoTasksNoRequests(dbUrl: Option<string>, settingsRows: seq<Settings>, headers: map<string, string>,
                          authBody: Json, cookies: map<string, string>, answers: nat -> Answer)
    requires !DbUrlMissing(dbUrl)
    ensures ReceiptRun(dbUrl, [], settingsRows, headers, authBody, cookies, answers) == Run(Ok(NothingToClose), [])
  {
  }

  /** A version other than v3, v4 and v4core raises before any CRM request. */
  lemma UnknownVersionNoRequests(dbUrl: Option<string>, taskRows: seq<seq<Json>>, settingsRows: seq<Settings>,
                                 headers: map<string, string>, authBody: Json, cookies: map<string, string>,
                                 answers: nat -> Answer)
    requires !DbUrlMissing(dbUrl) && RowsToTasks(taskRows).Ok? && |RowsToTasks(taskRows).value| > 0
    requires |settingsRows| > 0 && settingsRows[0].apiVersion !in {"v3", "v4", "v4core"}
    ensures ReceiptRun(dbUrl, taskRows, settingsRows, headers, authBody, cookies, answers)
      == Run(Err("Unknown API version: " + settingsRows[0].apiVersion), [])
  {
  }

  /**
   * Exactly one receipt is posted, first, for the first task's desk; line items follow only once
   * it was accepted, and they are the line-item run for its id.
   */
  lemma ReceiptBeforeItems(tasks: seq<Task>, s: Session)
    requires |tasks| > 0
    ensures var run := WithClient(tasks, s);
      |run.posted| >= 1 && run.posted[0] == Post(ReceiptUrl(s), ReceiptData(tasks))
    ensures var run := WithClient(tasks, s);
      !Accepted(ReceiptResult(tasks, s)) ==> run == Run(Err(Refusal(ReceiptResult(tasks, s), "Receipt not created")), [run.posted[0]])
    ensures var run := WithClient(tasks, s);
      Accepted(ReceiptResult(tasks, s)) ==>
        var items := Items(tasks, 0, Index(ReceiptResult(tasks, s).value, "Id").value, s);
        run.outcome == items.outcome && run.posted[1..] == items.posted
  {
    var run := WithClient(tasks, s);
    if Accepted(ReceiptResult(tasks, s)) {
      var items := Items(tasks, 0, Index(ReceiptResult(tasks, s).value, "Id").value, s);
      assert run.posted == [Post(ReceiptUrl(s), ReceiptData(tasks))] + items.posted;
    }
  }

  /** The line-item loop of `create_receipt`, posting through the connected client. */
  method PushItems(client: Client, tasks: seq<Task>, receiptId: Json, s: Session) returns (outcome: Result<string>)
    requires s.v == client.version && s.link == client.serviceLink && s.headers == client.headers.fields
    modifies client
    ensures client.requests == old(client.requests) + Items(tasks, 0, receiptId, s).posted
    ensures outcome == Items(tasks, 0, receiptId, s).outcome
  {
    for k := 0 to |tasks|
      invariant client.requests == old(client.requests) + ItemRequests(tasks, 0, k, receiptId, s)
      invariant AcceptedUpTo(tasks, k, receiptId, s)
      invariant s.headers == client.headers.fields
    {
      var data := LineItem(tasks[k], receiptId);
      var created := client.CreateObject("SLReceiptTask", data, s.answers(k + 1));
      assert created == ItemResult(tasks, k, receiptId, s);
      var request := Post(ItemUrl(s), data);
      assert client.requests == (old(client.requests) + ItemRequests(tasks, 0, k, receiptId, s)) + [request];
      ItemRequestsSnoc(tasks, 0, k, receiptId, s);
      Assoc(old(client.requests), ItemRequests(tasks, 0, k, receiptId, s), [request]);
      if !Accepted(created) {
        ItemsStopAtFirstRefusal(tasks, k, receiptId, s);
        return Err(ItemRefusal(tasks, k, receiptId, s));
      }
      AcceptedStep(tasks, k, receiptId, s);
    }
    ItemsAllAccepted(tasks, receiptId, s);
    outcome := Ok("Success");
  }

  /** The receipt and its line items, through the connected client. */
  method Submit(client: Client, tasks: seq<Task>, s: Session) returns (run: Run)
    requires |tasks| > 0
    requires s.v == client.version && s.link == client.serviceLink && s.headers == client.headers.fields
    requires client.requests == []
    modifies client
    ensures run == WithClient(tasks, s)
  {
    var receipt := client.CreateObject("SLReceipt", ReceiptData(tasks), s.answers(0));
    ghost var request := Post(ReceiptUrl(s), ReceiptData(tasks));
    assert receipt == ReceiptResult(tasks, s) && client.requests == [request];
    if !Accepted(receipt) {
      return Run(Err(Refusal(receipt, "Receipt not created")), client.requests);
    }
    var id := Index(receipt.value, "Id").value;
    var outcome := PushItems(client, tasks, id, s);
    assert client.requests == [request] + Items(tasks, 0, id, s).posted;
    run := Run(outcome, client.requests);
  }

  /** `create_receipt(project_id)`: the workflow end to end, with the requests it posted. */
  method CreateReceipt(dbUrl: Option<string>, taskRows: seq<seq<Json>>, settingsRows: seq<Settings>,
                       headers: Headers, authBody: Json, cookies: map<string, string>, answers: nat -> Answer)
    returns (run: Run)
    modifies headers
    ensures run == ReceiptRun(dbUrl, taskRows, settingsRows, old(headers.fields), authBody, cookies, answers)
  {
    var fetched := GetTasks(dbUrl, taskRows);
    if fetched.Err? {
      return Run(Err(fetched.error), []);
    }
    var tasks := fetched.value;
    if |tasks| == 0 {
      return Run(Ok(NothingToClose), []);
    }
    if |settingsRows| == 0 {
      return Run(Err("list index out of range"), []);
    }
    var version := ApiVersion(settingsRows[0].apiVersion);
    if version.Err? {
      return Run(Err(version.error), []);
    }
    run := ConnectAndSubmit(tasks, settingsRows[0], version.value, headers, authBody, cookies, answers);
  }

  method ConnectAndSubmit(tasks: seq<Task>, settings: Settings, v: OdataVersion, headers: Headers,
                          authBody: Json, cookies: map<string, string>, answers: nat -> Answer)
    returns (run: Run)
    requires |tasks| > 0
    modifies headers
    ensures run == Connected(tasks, settings, v, old(headers.fields), authBody, cookies, answers)
  {
    ghost var auth := FormsAuth(authBody, cookies);
    assert auth.Ok? && auth.value.Authenticated? ==> auth.value.cookies == cookies;
    ghost var before := headers.fields;
    var connected := Client.Connect(settings.url, v, headers, authBody, cookies);
    if connected.Err? {
      return Run(Err(connected.error), []);
    }
    var client := connected.value;
    var s := Session(v, client.serviceLink, client.headers.fields, answers);
    assert s == Session(v, ServiceLink(settings.url, v), before["BPMCSRF" := auth.value.cookies["BPMCSRF"]], answers);
    run := Submit(client, tasks, s);
  }
}
