/**
 * bot_interface/topay_closer.py: the two-state conversation that closes a project's to-pay tasks.
 * The user picks a project; the bot fetches its to-pay tasks, creates one receipt in the CRM,
 * pushes every task to it in order and, only when all pushes went through, moves the project's
 * tasks to their finished status.
 *
 * The CRM side (`Receipt.new`, `receipt.guid`, `receipt.url`, `task.push_to_creatio`) is not
 * defined in the repository: the module imports a `Receipt` that `taiga_to_bpm/creatio_worker.py`
 * does not define, and its `Task` has no `push_to_creatio`. This module models the intended flow,
 * with a `ReceiptService` standing for that missing code, whose answers are data.
 */
module TopayCloser {
  import opened Wrappers
  import opened Text
  import opened Json
  import opened Sessions
  import opened Storage
  import opened BotInstance
  import CreatioWorker

  /** The two states, saved as their names in `bot_state`. */
  const Started: string := "STARTED"
  const ProjectSelected: string := "PROJECT_SELECTED"

  /** The prefix of this conversation's buttons, and the only callback data it claims. */
  const Prefix: string := "topay_closer#"

  /** The callback filter: the data starts with the prefix. */
  predicate Claims(data: string) {
    |data| >= |Prefix| && data[..|Prefix|] == Prefix
  }

  /** Every project button is claimed, and pressing it gives back the project id. */
  lemma ProjectButtonsAreClaimed(id: int)
    ensures Claims(ButtonData(Prefix, id))
    ensures CallbackValue(ButtonData(Prefix, id)) == Ok(id)
  {
    assert ButtonData(Prefix, id)[..|Prefix|] == Prefix;
    assert "topay_closer" + "#" == Prefix;
    CallbackValueOfButton("topay_closer", id);
  }

  /** Buttons of the main menu are left to the other handler. */
  lemma MainButtonsAreNotClaimed(id: int)
    ensures !Claims(ButtonData("main#", id))
  {
    var data := ButtonData("main#", id);
    if |data| >= |Prefix| {
      assert data[0] == 'm' && Prefix[0] == 't';
      assert data[..|Prefix|][0] != Prefix[0];
    }
  }

  // ---------------------------------------------------------------------------------------------
  // The CRM as the receipt workflow sees it.

  /** A created receipt: its id and the address of its page. */
  datatype Receipt = Receipt(guid: string, url: string)

  /** What the workflow asked of the CRM, in order. */
  datatype CrmCall =
    | NewReceipt(deskGuid: Json)
    | PushTask(task: CreatioWorker.Task, receiptGuid: string)

  class ReceiptService {
    /** The answer of `Receipt.new(desk_guid)`: a receipt, or the error it raises. */
    const newReceipt: Json -> Result<Receipt>
    /** The error `task.push_to_creatio(guid)` raises, if it does. */
    const pushError: (CreatioWorker.Task, string) -> Option<string>
    var calls: seq<CrmCall>

    constructor (newReceipt: Json -> Result<Receipt>, pushError: (CreatioWorker.Task, string) -> Option<string>)
      ensures this.newReceipt == newReceipt && this.pushError == pushError && calls == []
    {
      this.newReceipt := newReceipt;
      this.pushError := pushError;
      calls := [];
    }

    /** `Receipt.new(desk_guid)`. */
    method New(deskGuid: Json) returns (r: Result<Receipt>)
      modifies this
      ensures calls == old(calls) + [NewReceipt(deskGuid)]
      ensures r == newReceipt(deskGuid)
    {
      calls := calls + [NewReceipt(deskGuid)];
      r := newReceipt(deskGuid);
    }

    /** `task.push_to_creatio(guid)`: None when it went through. */
    method Push(task: CreatioWorker.Task, guid: string) returns (failure: Option<string>)
      modifies this
      ensures calls == old(calls) + [PushTask(task, guid)]
      ensures failure == pushError(task, guid)
    {
      calls := calls + [PushTask(task, guid)];
      failure := pushError(task, guid);
    }
  }

  // ---------------------------------------------------------------------------------------------
  // The specification of `create_new_receipt`.

  function Say(chatId: int, text: string): Outgoing {
    Message(chatId, text, [])
  }

  /** How an exception is reported: the traceback as a file, then the escaped error text. */
  function Failure(chatId: int, error: string, traceOf: string -> string): seq<Outgoing> {
    [Document(chatId, "temp.txt", traceOf(error)), Say(chatId, ReplaceReservedCharacters(error))]
  }

  function Added(chatId: int, task: CreatioWorker.Task): Outgoing {
    Say(chatId, "Task " + Show(task.id) + " added to receipt")
  }

  /** The pushes from task `k` on: replies, CRM calls, and whether all of them went through. */
  datatype Pushed = Pushed(replies: seq<Outgoing>, calls: seq<CrmCall>, completed: bool)

  function Pushes(chatId: int, tasks: seq<CreatioWorker.Task>, k: nat, guid: string,
                  pushError: (CreatioWorker.Task, string) -> Option<string>, traceOf: string -> string): Pushed
    requires k <= |tasks|
    decreases |tasks| - k
  {
    if k == |tasks| then Pushed([], [], true)
    else
      var call := PushTask(tasks[k], guid);
      match pushError(tasks[k], guid)
      case Some(e) => Pushed(Failure(chatId, e, traceOf), [call], false)
      case None =>
        var rest := Pushes(chatId, tasks, k + 1, guid, pushError, traceOf);
        Pushed([Added(chatId, tasks[k])] + rest.replies, [call] + rest.calls, rest.completed)
  }

  /** The confirmations for tasks `j` up to `n`, in order. */
  function AddedFor(chatId: int, tasks: seq<CreatioWorker.Task>, j: nat, n: nat): (r: seq<Outgoing>)
    requires j <= n <= |tasks|
    ensures |r| == n - j && forall i :: 0 <= i < n - j ==> r[i] == Added(chatId, tasks[j + i])
  {
    seq(n - j, i requires 0 <= i < n - j => Added(chatId, tasks[j + i]))
  }

  /** The push calls for tasks `j` up to `n`, in order, all to the same receipt. */
  function PushesFor(tasks: seq<CreatioWorker.Task>, j: nat, n: nat, guid: string): (r: seq<CrmCall>)
    requires j <= n <= |tasks|
    ensures |r| == n - j && forall i :: 0 <= i < n - j ==> r[i] == PushTask(tasks[j + i], guid)
  {
    seq(n - j, i requires 0 <= i < n - j => PushTask(tasks[j + i], guid))
  }

  /** The tasks before `k` were all pushed without error. */
  predicate PushedUpTo(tasks: seq<CreatioWorker.Task>, k: nat, guid: string,
                       pushError: (CreatioWorker.Task, string) -> Option<string>)
    requires k <= |tasks|
  {
    forall i :: 0 <= i < k ==> pushError(tasks[i], guid).None?
  }

  /** The outcome of the workflow: replies, CRM calls and the projects whose tasks were finished. */
  datatype Flow = Flow(replies: seq<Outgoing>, calls: seq<CrmCall>, finished: seq<int>)

  /** Everything `create_new_receipt` does once it has a project: fetch, create, push, finish. */
  function Closing(chatId: int, projectId: int, fetched: Result<seq<CreatioWorker.Task>>,
                   newReceipt: Json -> Result<Receipt>,
                   pushError: (CreatioWorker.Task, string) -> Option<string>,
                   traceOf: string -> string): Flow
  {
    if fetched.Err? then Flow(Failure(chatId, fetched.error, traceOf), [], [])
    else if |fetched.value| == 0 then Flow(Failure(chatId, "list index out of range", traceOf), [], [])
    else Opening(chatId, projectId, fetched.value, newReceipt, pushError, traceOf)
  }

  /** With the tasks in hand: one receipt for the first task's desk, then its filling. */
  function Opening(chatId: int, projectId: int, tasks: seq<CreatioWorker.Task>,
                   newReceipt: Json -> Result<Receipt>,
                   pushError: (CreatioWorker.Task, string) -> Option<string>,
                   traceOf: string -> string): Flow
    requires |tasks| > 0
  {
    var open := NewReceipt(tasks[0].deskGuid);
    match newReceipt(tasks[0].deskGuid)
    case Err(e) => Flow(Failure(chatId, e, traceOf), [open], [])
    case Ok(receipt) =>
      var filled := Filling(chatId, projectId, tasks, receipt, pushError, traceOf);
      Flow(filled.replies, [open] + filled.calls, filled.finished)
  }

  /** Once the receipt exists: the pushes, then the status update and its address if all went through. */
  function Filling(chatId: int, projectId: int, tasks: seq<CreatioWorker.Task>, receipt: Receipt,
                   pushError: (CreatioWorker.Task, string) -> Option<string>,
                   traceOf: string -> string): Flow
  {
    var created := [Say(chatId, "Receipt created, adding tasks to it")];
    var pushes := Pushes(chatId, tasks, 0, receipt.guid, pushError, traceOf);
    if !pushes.completed then Flow(created + pushes.replies, pushes.calls, [])
    else Flow(created + pushes.replies + [Say(chatId, ReplaceReservedCharacters(receipt.url))],
              pushes.calls, [projectId])
  }

  /**
   * `create_new_receipt(user)` for the session's chat and pending value, the result of fetching
   * the tasks, the CRM's answers and the traceback text of each error.
   */
  function ReceiptFlow(chatId: int, projectId: Option<int>, fetched: Result<seq<CreatioWorker.Task>>,
                       newReceipt: Json -> Result<Receipt>,
                       pushError: (CreatioWorker.Task, string) -> Option<string>,
                       traceOf: string -> string): Flow
  {
    var start := [Say(chatId, "Creating receipt")];
    if projectId.None? || projectId.value == 0 then
      Flow(start + [Say(chatId, "Error: project_id is None")], [], [])
    else
      var closing := Closing(chatId, projectId.value, fetched, newReceipt, pushError, traceOf);
      Flow(start + closing.replies, closing.calls, closing.finished)
  }

  lemma AddedSnoc(chatId: int, tasks: seq<CreatioWorker.Task>, j: nat, k: nat)
    requires j <= k < |tasks|
    ensures AddedFor(chatId, tasks, j, k) + [Added(chatId, tasks[k])] == AddedFor(chatId, tasks, j, k + 1)
  {
  }

  lemma PushesSnoc(tasks: seq<CreatioWorker.Task>, j: nat, k: nat, guid: string)
    requires j <= k < |tasks|
    ensures PushesFor(tasks, j, k, guid) + [PushTask(tasks[k], guid)] == PushesFor(tasks, j, k + 1, guid)
  {
  }

  lemma AddedCons(chatId: int, tasks: seq<CreatioWorker.Task>, j: nat, k: nat)
    requires j < k <= |tasks|
    ensures [Added(chatId, tasks[j])] + AddedFor(chatId, tasks, j + 1, k) == AddedFor(chatId, tasks, j, k)
  {
  }

  lemma PushesCons(tasks: seq<CreatioWorker.Task>, j: nat, k: nat, guid: string)
    requires j < k <= |tasks|
    ensures [PushTask(tasks[j], guid)] + PushesFor(tasks, j + 1, k, guid) == PushesFor(tasks, j, k, guid)
  {
  }

  /** Pushes that went through only add their call and their confirmation, and go on. */
  lemma PushGoesThrough(chatId: int, tasks: seq<CreatioWorker.Task>, j: nat, guid: string,
                        pushError: (CreatioWorker.Task, string) -> Option<string>, traceOf: string -> string)
    requires j < |tasks| && pushError(tasks[j], guid).None?
    ensures var rest := Pushes(chatId, tasks, j + 1, guid, pushError, traceOf);
            Pushes(chatId, tasks, j, guid, pushError, traceOf)
              == Pushed([Added(chatId, tasks[j])] + rest.replies, [PushTask(tasks[j], guid)] + rest.calls, rest.completed)
  {
  }

  lemma {:induction false} PushesSkip(chatId: int, tasks: seq<CreatioWorker.Task>, j: nat, k: nat, guid: string,
                                      pushError: (CreatioWorker.Task, string) -> Option<string>,
                                      traceOf: string -> string)
    requires j <= k <= |tasks|
    requires forall i :: j <= i < k ==> pushError(tasks[i], guid).None?
    decreases k - j
    ensures var here := Pushes(chatId, tasks, j, guid, pushError, traceOf);
            var there := Pushes(chatId, tasks, k, guid, pushError, traceOf);
            here.completed == there.completed
            && here.replies == AddedFor(chatId, tasks, j, k) + there.replies
            && here.calls == PushesFor(tasks, j, k, guid) + there.calls
  {
    if j < k {
      PushesSkip(chatId, tasks, j + 1, k, guid, pushError, traceOf);
      PushGoesThrough(chatId, tasks, j, guid, pushError, traceOf);
      var there := Pushes(chatId, tasks, k, guid, pushError, traceOf);
      AddedCons(chatId, tasks, j, k);
      PushesCons(tasks, j, k, guid);
      Assoc([Added(chatId, tasks[j])], AddedFor(chatId, tasks, j + 1, k), there.replies);
      Assoc([PushTask(tasks[j], guid)], PushesFor(tasks, j + 1, k, guid), there.calls);
    } else {
      assert AddedFor(chatId, tasks, j, k) == [];
      assert PushesFor(tasks, j, k, guid) == [];
    }
  }

  /** When every push goes through, each task is pushed and confirmed once, in list order. */
  lemma PushesAllGoThrough(chatId: int, tasks: seq<CreatioWorker.Task>, guid: string,
                           pushError: (CreatioWorker.Task, string) -> Option<string>, traceOf: string -> string)
    requires PushedUpTo(tasks, |tasks|, guid, pushError)
    ensures Pushes(chatId, tasks, 0, guid, pushError, traceOf)
      == Pushed(AddedFor(chatId, tasks, 0, |tasks|), PushesFor(tasks, 0, |tasks|, guid), true)
  {
    PushesSkip(chatId, tasks, 0, |tasks|, guid, pushError, traceOf);
  }

  /**
   * The first push that fails stops the rest: the tasks before it were pushed and confirmed, it
   * was attempted, no later task was, and its error is reported.
   */
  lemma PushesStopAtFirstFailure(chatId: int, tasks: seq<CreatioWorker.Task>, k: nat, guid: string,
                                 pushError: (CreatioWorker.Task, string) -> Option<string>,
                                 traceOf: string -> string)
    requires k < |tasks| && pushError(tasks[k], guid).Some?
    requires PushedUpTo(tasks, k, guid, pushError)
    ensures Pushes(chatId, tasks, 0, guid, pushError, traceOf)
      == Pushed(AddedFor(chatId, tasks, 0, k) + Failure(chatId, pushError(tasks[k], guid).value, traceOf),
                PushesFor(tasks, 0, k + 1, guid), false)
  {
    PushesSkip(chatId, tasks, 0, k, guid, pushError, traceOf);
    PushesSnoc(tasks, 0, k, guid);
  }

  /** The pushes complete exactly when none of them fails. */
  lemma PushesCompleteIffNoneFails(chatId: int, tasks: seq<CreatioWorker.Task>, guid: string,
                                   pushError: (CreatioWorker.Task, string) -> Option<string>,
                                   traceOf: string -> string)
    ensures Pushes(chatId, tasks, 0, guid, pushError, traceOf).completed <==> PushedUpTo(tasks, |tasks|, guid, pushError)
  {
    if PushedUpTo(tasks, |tasks|, guid, pushError) {
      PushesAllGoThrough(chatId, tasks, guid, pushError, traceOf);
    } else {
      var k :| 0 <= k < |tasks| && pushError(tasks[k], guid).Some?;
      FirstFailure(tasks, k, guid, pushError);
      var first :| 0 <= first < |tasks| && pushError(tasks[first], guid).Some? && PushedUpTo(tasks, first, guid, pushError);
      PushesStopAtFirstFailure(chatId, tasks, first, guid, pushError, traceOf);
    }
  }

  /** A failing push has a first failing one before or at it. */
  lemma {:induction false} FirstFailure(tasks: seq<CreatioWorker.Task>, k: nat, guid: string,
                                        pushError: (CreatioWorker.Task, string) -> Option<string>)
    requires k < |tasks| && pushError(tasks[k], guid).Some?
    decreases k
    ensures exists first :: 0 <= first <= k && pushError(tasks[first], guid).Some? && PushedUpTo(tasks, first, guid, pushError)
  {
    if !PushedUpTo(tasks, k, guid, pushError) {
      var i :| 0 <= i < k && pushError(tasks[i], guid).Some?;
      FirstFailure(tasks, i, guid, pushError);
    }
  }

  /** "Creating receipt" always comes first. */
  lemma ReceiptFlowAnnouncesFirst(chatId: int, projectId: Option<int>, fetched: Result<seq<CreatioWorker.Task>>,
                                  newReceipt: Json -> Result<Receipt>,
                                  pushError: (CreatioWorker.Task, string) -> Option<string>, traceOf: string -> string)
    ensures var flow := ReceiptFlow(chatId, projectId, fetched, newReceipt, pushError, traceOf);
            |flow.replies| >= 2 && flow.replies[0] == Say(chatId, "Creating receipt")
  {
  }

  /** Without a project nothing but the two replies happens. */
  lemma NoProjectNoWork(chatId: int, projectId: Option<int>, fetched: Result<seq<CreatioWorker.Task>>,
                        newReceipt: Json -> Result<Receipt>,
                        pushError: (CreatioWorker.Task, string) -> Option<string>, traceOf: string -> string)
    requires projectId.None? || projectId.value == 0
    ensures ReceiptFlow(chatId, projectId, fetched, newReceipt, pushError, traceOf)
      == Flow([Say(chatId, "Creating receipt"), Say(chatId, "Error: project_id is None")], [], [])
  {
  }

  /**
   * Tasks are fetched before anything is created: when fetching fails or finds no task, the CRM
   * is never called, nothing is finished, and the error is reported with its traceback.
   */
  lemma NoTasksNoCrm(chatId: int, projectId: Option<int>, fetched: Result<seq<CreatioWorker.Task>>,
                     newReceipt: Json -> Result<Receipt>,
                     pushError: (CreatioWorker.Task, string) -> Option<string>, traceOf: string -> string)
    requires projectId.Some? && projectId.value != 0
    requires fetched.Err? || |fetched.value| == 0
    ensures var flow := ReceiptFlow(chatId, projectId, fetched, newReceipt, pushError, traceOf);
            var error := if fetched.Err? then fetched.error else "list index out of range";
            flow == Flow([Say(chatId, "Creating receipt")] + Failure(chatId, error, traceOf), [], [])
  {
  }

  /**
   * The project is finished exactly when the workflow got that far: a project, some tasks, a
   * receipt, and every push through; then the last reply is the escaped receipt address.
   */
  lemma FinishedOnlyAfterAllPushes(chatId: int, projectId: Option<int>, fetched: Result<seq<CreatioWorker.Task>>,
                                   newReceipt: Json -> Result<Receipt>,
                                   pushError: (CreatioWorker.Task, string) -> Option<string>, traceOf: string -> string)
    ensures var flow := ReceiptFlow(chatId, projectId, fetched, newReceipt, pushError, traceOf);
            flow.finished != [] <==>
              (projectId.Some? && projectId.value != 0 && fetched.Ok? && |fetched.value| > 0
               && newReceipt(fetched.value[0].deskGuid).Ok?
               && PushedUpTo(fetched.value, |fetched.value|, newReceipt(fetched.value[0].deskGuid).value.guid, pushError))
    ensures var flow := ReceiptFlow(chatId, projectId, fetched, newReceipt, pushError, traceOf);
            flow.finished != [] ==>
              flow.finished == [projectId.value]
              && flow.replies[|flow.replies| - 1]
                 == Say(chatId, ReplaceReservedCharacters(newReceipt(fetched.value[0].deskGuid).value.url))
  {
    if projectId.Some? && projectId.value != 0 && fetched.Ok? && |fetched.value| > 0
       && newReceipt(fetched.value[0].deskGuid).Ok? {
      var guid := newReceipt(fetched.value[0].deskGuid).value.guid;
      PushesCompleteIffNoneFails(chatId, fetched.value, guid, pushError, traceOf);
    }
  }

  /**
   * One receipt is created, for the first task's desk, before any push; pushes go to that
   * receipt in list order, and the first failure stops the rest.
   */
  lemma ReceiptBeforePushes(chatId: int, projectId: Option<int>, tasks: seq<CreatioWorker.Task>,
                            newReceipt: Json -> Result<Receipt>,
                            pushError: (CreatioWorker.Task, string) -> Option<string>, traceOf: string -> string)
    requires projectId.Some? && projectId.value != 0 && |tasks| > 0
    ensures var flow := ReceiptFlow(chatId, projectId, Ok(tasks), newReceipt, pushError, traceOf);
            |flow.calls| >= 1 && flow.calls[0] == NewReceipt(tasks[0].deskGuid)
    ensures var flow := ReceiptFlow(chatId, projectId, Ok(tasks), newReceipt, pushError, traceOf);
            newReceipt(tasks[0].deskGuid).Ok? ==>
              flow.calls[1..] == Pushes(chatId, tasks, 0, newReceipt(tasks[0].deskGuid).value.guid, pushError, traceOf).calls
    ensures var flow := ReceiptFlow(chatId, projectId, Ok(tasks), newReceipt, pushError, traceOf);
            newReceipt(tasks[0].deskGuid).Err? ==> flow.calls == [NewReceipt(tasks[0].deskGuid)]
  {
    var flow := ReceiptFlow(chatId, projectId, Ok(tasks), newReceipt, pushError, traceOf);
    if newReceipt(tasks[0].deskGuid).Ok? {
      var pushes := Pushes(chatId, tasks, 0, newReceipt(tasks[0].deskGuid).value.guid, pushError, traceOf);
      assert flow.calls == [NewReceipt(tasks[0].deskGuid)] + pushes.calls;
    }
  }

  // ---------------------------------------------------------------------------------------------
  // The handlers.

  /** The push loop of `create_new_receipt`. */
  method PushAll(bot: Bot, crm: ReceiptService, chatId: int, tasks: seq<CreatioWorker.Task>, guid: string,
                 traceOf: string -> string)
    returns (completed: bool)
    modifies bot, crm
    ensures var pushes := Pushes(chatId, tasks, 0, guid, crm.pushError, traceOf);
            bot.sent == old(bot.sent) + pushes.replies && crm.calls == old(crm.calls) + pushes.calls
            && completed == pushes.completed
  {
    for k := 0 to |tasks|
      invariant bot.sent == old(bot.sent) + AddedFor(chatId, tasks, 0, k)
      invariant crm.calls == old(crm.calls) + PushesFor(tasks, 0, k, guid)
      invariant PushedUpTo(tasks, k, guid, crm.pushError)
    {
      var failure := crm.Push(tasks[k], guid);
      PushesSnoc(tasks, 0, k, guid);
      Assoc(old(crm.calls), PushesFor(tasks, 0, k, guid), [PushTask(tasks[k], guid)]);
      if failure.Some? {
        PushesStopAtFirstFailure(chatId, tasks, k, guid, crm.pushError, traceOf);
        var report := Failure(chatId, failure.value, traceOf);
        bot.SendDocument(chatId, "temp.txt", traceOf(failure.value));
        bot.SendMessage(chatId, ReplaceReservedCharacters(failure.value), []);
        assert bot.sent == (old(bot.sent) + AddedFor(chatId, tasks, 0, k)) + report;
        Assoc(old(bot.sent), AddedFor(chatId, tasks, 0, k), report);
        return false;
      }
      bot.SendMessage(chatId, "Task " + Show(tasks[k].id) + " added to receipt", []);
      AddedSnoc(chatId, tasks, 0, k);
      Assoc(old(bot.sent), AddedFor(chatId, tasks, 0, k), [Added(chatId, tasks[k])]);
    }
    PushesAllGoThrough(chatId, tasks, guid, crm.pushError, traceOf);
    completed := true;
  }

  /** Reports an exception: the traceback as a file, then the escaped error text. */
  method ReportFailure(bot: Bot, chatId: int, error: string, traceOf: string -> string)
    modifies bot
    ensures bot.sent == old(bot.sent) + Failure(chatId, error, traceOf)
  {
    bot.SendDocument(chatId, "temp.txt", traceOf(error));
    bot.SendMessage(chatId, ReplaceReservedCharacters(error), []);
  }

  /** The part of `create_new_receipt` after the project check. */
  method Close(bot: Bot, crm: ReceiptService, tables: Tables, chatId: int, projectId: int,
               fetched: Result<seq<CreatioWorker.Task>>, traceOf: string -> string)
    modifies bot, crm, tables
    ensures var flow := Closing(chatId, projectId, fetched, crm.newReceipt, crm.pushError, traceOf);
            bot.sent == old(bot.sent) + flow.replies && crm.calls == old(crm.calls) + flow.calls
            && tables.finishedProjects == old(tables.finishedProjects) + flow.finished
    ensures tables.reports == old(tables.reports) && tables.grants == old(tables.grants)
  {
    if fetched.Err? || |fetched.value| == 0 {
      var error := if fetched.Err? then fetched.error else "list index out of range";
      ReportFailure(bot, chatId, error, traceOf);
      return;
    }
    Open(bot, crm, tables, chatId, projectId, fetched.value, traceOf);
  }

  /** The part of `create_new_receipt` once the tasks are fetched. */
  method Open(bot: Bot, crm: ReceiptService, tables: Tables, chatId: int, projectId: int,
              tasks: seq<CreatioWorker.Task>, traceOf: string -> string)
    requires |tasks| > 0
    modifies bot, crm, tables
    ensures var flow := Opening(chatId, projectId, tasks, crm.newReceipt, crm.pushError, traceOf);
            bot.sent == old(bot.sent) + flow.replies && crm.calls == old(crm.calls) + flow.calls
            && tables.finishedProjects == old(tables.finishedProjects) + flow.finished
    ensures tables.reports == old(tables.reports) && tables.grants == old(tables.grants)
  {
    var receipt := crm.New(tasks[0].deskGuid);
    if receipt.Err? {
      ReportFailure(bot, chatId, receipt.error, traceOf);
      return;
    }
    Fill(bot, crm, tables, chatId, projectId, tasks, receipt.value, traceOf);
    Assoc(old(crm.calls), [NewReceipt(tasks[0].deskGuid)],
          Filling(chatId, projectId, tasks, receipt.value, crm.pushError, traceOf).calls);
  }

  /** The part of `create_new_receipt` once the receipt exists. */
  method Fill(bot: Bot, crm: ReceiptService, tables: Tables, chatId: int, projectId: int,
              tasks: seq<CreatioWorker.Task>, receipt: Receipt, traceOf: string -> string)
    modifies bot, crm, tables
    ensures var flow := Filling(chatId, projectId, tasks, receipt, crm.pushError, traceOf);
            bot.sent == old(bot.sent) + flow.replies && crm.calls == old(crm.calls) + flow.calls
            && tables.finishedProjects == old(tables.finishedProjects) + flow.finished
    ensures tables.reports == old(tables.reports) && tables.grants == old(tables.grants)
  {
    bot.SendMessage(chatId, "Receipt created, adding tasks to it", []);
    var completed := PushAll(bot, crm, chatId, tasks, receipt.guid, traceOf);
    ghost var pushes := Pushes(chatId, tasks, 0, receipt.guid, crm.pushError, traceOf);
    Assoc(old(bot.sent), [Say(chatId, "Receipt created, adding tasks to it")], pushes.replies);
    if !completed {
      return;
    }
    tables.FinishProject(projectId);
    bot.SendMessage(chatId, ReplaceReservedCharacters(receipt.url), []);
    Assoc(old(bot.sent), [Say(chatId, "Receipt created, adding tasks to it")] + pushes.replies,
          [Say(chatId, ReplaceReservedCharacters(receipt.url))]);
  }

  /** `create_new_receipt(user)`, with the rows the task query returns. */
  method CreateNewReceipt(bot: Bot, crm: ReceiptService, tables: Tables, user: User,
                          dbUrl: Option<string>, taskRows: seq<seq<Json>>, traceOf: string -> string)
    modifies bot, crm, tables
    ensures var flow := ReceiptFlow(user.chatId, user.botStateValue, CreatioWorker.Fetched(dbUrl, taskRows),
                                    crm.newReceipt, crm.pushError, traceOf);
            bot.sent == old(bot.sent) + flow.replies && crm.calls == old(crm.calls) + flow.calls
            && tables.finishedProjects == old(tables.finishedProjects) + flow.finished
    ensures tables.reports == old(tables.reports) && tables.grants == old(tables.grants)
  {
    var chatId := user.chatId;
    var projectId := user.botStateValue;
    bot.SendMessage(chatId, "Creating receipt", []);
    if projectId.None? || projectId.value == 0 {
      bot.SendMessage(chatId, "Error: project_id is None", []);
      return;
    }
    var fetched := CreatioWorker.GetTasks(dbUrl, taskRows);
    Close(bot, crm, tables, chatId, projectId.value, fetched, traceOf);
    Assoc(old(bot.sent), [Say(chatId, "Creating receipt")],
          Closing(chatId, projectId.value, fetched, crm.newReceipt, crm.pushError, traceOf).replies);
  }

  /** What `show_project_list` replies, and the session it saves, if any. */
  datatype Listed = Listed(reply: Outgoing, saved: Option<User>)

  /** `show_project_list(user)` given the projects its query returns, ordered by name. */
  function ProjectList(user: User, projects: seq<Row>): Listed {
    if |projects| == 0 then Listed(Say(user.chatId, "No projects found"), None)
    else Listed(Message(user.chatId, "Выберите проект", Buttons(projects, Prefix)),
                Some(user.(botState := Some(ProjectSelected))))
  }

  /**
   * With projects to choose from, the session moves to PROJECT_SELECTED and every project gets one
   * button, in order, whose press names that project; without, nothing is saved.
   */
  lemma ProjectListOffersEveryProject(user: User, projects: seq<Row>)
    ensures ProjectList(user, projects).saved.None? <==> |projects| == 0
    ensures var listed := ProjectList(user, projects);
            listed.saved.Some? ==>
              listed.saved.value == user.(botState := Some(ProjectSelected))
              && |listed.reply.keyboard| == |projects|
              && forall i :: 0 <= i < |projects| ==>
                   listed.reply.keyboard[i].text == projects[i].name
                   && Claims(listed.reply.keyboard[i].data)
                   && CallbackValue(listed.reply.keyboard[i].data) == Ok(projects[i].id)
  {
    var listed := ProjectList(user, projects);
    if listed.saved.Some? {
      forall i | 0 <= i < |projects|
        ensures Claims(listed.reply.keyboard[i].data)
        ensures CallbackValue(listed.reply.keyboard[i].data) == Ok(projects[i].id)
      {
        ProjectButtonsAreClaimed(projects[i].id);
      }
    }
  }

  /** `show_project_list(user)`. */
  method ShowProjectList(bot: Bot, store: SessionStore, user: User, projects: seq<Row>)
    requires store.Valid() && ValidUser(user)
    modifies bot, store
    ensures store.Valid()
    ensures var listed := ProjectList(user, projects);
            bot.sent == old(bot.sent) + [listed.reply]
            && store.entries == (if listed.saved.Some? then Store(old(store.entries), listed.saved.value) else old(store.entries))
    ensures store.botUsers == old(store.botUsers)
  {
    if |projects| == 0 {
      bot.SendMessage(user.chatId, "No projects found", []);
      return;
    }
    var keyboard := ListButtons(projects, Prefix);
    var selected := user.(botState := Some(ProjectSelected));
    store.SaveToRedis(selected);
    bot.SendMessage(user.chatId, "Выберите проект", keyboard);
  }

  /** What the outside world answers during one turn of this conversation. */
  datatype World = World(projects: seq<Row>, dbUrl: Option<string>, taskRows: seq<seq<Json>>, traceOf: string -> string)

  /** What one turn does: replies, the session saved (if any), CRM calls, projects finished. */
  datatype Effects = Effects(replies: seq<Outgoing>, saved: Option<User>, calls: seq<CrmCall>, finished: seq<int>)

  /** The session store after saving `saved`, if anything. */
  function Saving(entries: map<string, string>, saved: Option<User>): map<string, string> {
    if saved.Some? then Store(entries, saved.value) else entries
  }

  /** `router(user)` as a whole, given the world's and the CRM's answers. */
  function Route(user: User, world: World, newReceipt: Json -> Result<Receipt>,
                 pushError: (CreatioWorker.Task, string) -> Option<string>): Effects
  {
    if user.botState == Some(Started) then
      var listed := ProjectList(user, world.projects);
      Effects([listed.reply], listed.saved, [], [])
    else if user.botState == Some(ProjectSelected) then
      var flow := ReceiptFlow(user.chatId, user.botStateValue, CreatioWorker.Fetched(world.dbUrl, world.taskRows),
                              newReceipt, pushError, world.traceOf);
      Effects(flow.replies, None, flow.calls, flow.finished)
    else Effects([Say(user.chatId, "Error: unknown state")], None, [], [])
  }

  /**
   * The transition table: STARTED may save the session (moving it to PROJECT_SELECTED) but never
   * calls the CRM; PROJECT_SELECTED never saves it; any other state only replies with the error.
   */
  lemma RouteTransitions(user: User, world: World, newReceipt: Json -> Result<Receipt>,
                         pushError: (CreatioWorker.Task, string) -> Option<string>)
    ensures var e := Route(user, world, newReceipt, pushError);
            user.botState == Some(Started) ==>
              e.calls == [] && e.finished == [] && |e.replies| == 1
              && (e.saved.Some? <==> |world.projects| > 0)
              && (e.saved.Some? ==> e.saved.value.botState == Some(ProjectSelected))
    ensures var e := Route(user, world, newReceipt, pushError);
            user.botState == Some(ProjectSelected) ==>
              e.saved.None? && e.replies[0] == Say(user.chatId, "Creating receipt")
    ensures var e := Route(user, world, newReceipt, pushError);
            user.botState != Some(Started) && user.botState != Some(ProjectSelected) ==>
              e == Effects([Say(user.chatId, "Error: unknown state")], None, [], [])
  {
    if user.botState == Some(ProjectSelected) {
      ReceiptFlowAnnouncesFirst(user.chatId, user.botStateValue, CreatioWorker.Fetched(world.dbUrl, world.taskRows),
                                newReceipt, pushError, world.traceOf);
    }
  }

  /** `router(user)`. */
  method Router(bot: Bot, store: SessionStore, crm: ReceiptService, tables: Tables, user: User, world: World)
    requires store.Valid() && ValidUser(user)
    modifies bot, store, crm, tables
    ensures var e := Route(user, world, crm.newReceipt, crm.pushError);
            bot.sent == old(bot.sent) + e.replies && store.entries == Saving(old(store.entries), e.saved)
            && crm.calls == old(crm.calls) + e.calls
            && tables.finishedProjects == old(tables.finishedProjects) + e.finished
    ensures store.Valid() && store.botUsers == old(store.botUsers)
    ensures tables.reports == old(tables.reports) && tables.grants == old(tables.grants)
  {
    if user.botState == Some(Started) {
      ShowProjectList(bot, store, user, world.projects);
    } else if user.botState == Some(ProjectSelected) {
      CreateNewReceipt(bot, crm, tables, user, world.dbUrl, world.taskRows, world.traceOf);
    } else {
      bot.SendMessage(user.chatId, "Error: unknown state", []);
    }
  }

  /**
   * The `topay_closer#` callback handler. `fromId` is the presser, `chatId` and `messageId` the
   * message holding the keyboard. Without a session it only replies; otherwise it deletes the
   * keyboard message, takes the pressed value (a value that does not parse raises: the Err
   * result) and routes the session with that value, which it does not save first.
   */
  method CallbackQuery(bot: Bot, store: SessionStore, crm: ReceiptService, tables: Tables,
                       fromId: int, chatId: int, messageId: int, data: string, world: World)
    returns (r: Result<()>)
    requires Claims(data) && store.Valid()
    modifies bot, store, crm, tables
    ensures store.Valid() && store.botUsers == old(store.botUsers)
    ensures tables.reports == old(tables.reports) && tables.grants == old(tables.grants)
    ensures Lookup(old(store.entries), fromId).None? ==>
      r.Ok? && bot.sent == old(bot.sent) + [Say(fromId, "Error: conversation not found, restart your command")]
      && store.entries == old(store.entries) && crm.calls == old(crm.calls)
      && tables.finishedProjects == old(tables.finishedProjects)
    ensures Lookup(old(store.entries), fromId).Some? && CallbackValue(data).Err? ==>
      r == Err(CallbackValue(data).error) && bot.sent == old(bot.sent) + [Deleted(chatId, messageId)]
      && store.entries == old(store.entries) && crm.calls == old(crm.calls)
      && tables.finishedProjects == old(tables.finishedProjects)
    ensures Lookup(old(store.entries), fromId).Some? && CallbackValue(data).Ok? ==>
      var pressed := Lookup(old(store.entries), fromId).value.(botStateValue := Some(CallbackValue(data).value));
      var e := Route(pressed, world, crm.newReceipt, crm.pushError);
      r.Ok? && bot.sent == old(bot.sent) + [Deleted(chatId, messageId)] + e.replies
      && store.entries == Saving(old(store.entries), e.saved)
      && crm.calls == old(crm.calls) + e.calls
      && tables.finishedProjects == old(tables.finishedProjects) + e.finished
  {
    var user := store.GetFromRedis(fromId);
    if user.None? {
      bot.SendMessage(fromId, "Error: conversation not found, restart your command", []);
      return Ok(());
    }
    bot.DeleteMessage(chatId, messageId);
    var value := CallbackValue(data);
    if value.Err? {
      return Err(value.error);
    }
    var pressed := user.value.(botStateValue := Some(value.value));
    Router(bot, store, crm, tables, pressed, world);
    r := Ok(());
  }
}
