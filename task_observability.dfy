/**
 * Task observability: the tasks submitted to agents, tracked locally by task
 * id from the moment the user types them until the backend reports them
 * completed or failed, and removed once they are finished and old.
 *
 * Times are milliseconds given as parameters; the HTTP submission and the
 * local event stream are outside the model, except that the local event an
 * operation emits is returned.
 */
module TaskObservability {
  import opened Wrappers
  import opened OrderedMap
  import opened Arrays

  type Entry = (string, ObservableTask)

  datatype TaskStatus = Inputted | Submitted | Pending | Processing | Completed | Error

  datatype Level = Debug | Info | Result

  datatype ObservableTask = ObservableTask(
    taskId: string,
    agentId: string,
    agentName: string,
    agentEmoji: string,
    instanceId: string,
    conversationId: string,
    screenplayId: Option<string>,
    status: TaskStatus,
    inputText: string,
    createdAt: int,
    updatedAt: int,
    result: Option<string>,
    error: Option<string>,
    durationMs: Option<int>)

  datatype EventType = TaskInputted | TaskSubmitted | TaskPicked | TaskProcessing | TaskCompleted | TaskError

  /** The data of a task event; its timestamps are not modelled. */
  datatype EventData = EventData(
    taskId: string,
    agentId: string,
    agentName: string,
    agentEmoji: string,
    instanceId: string,
    conversationId: Option<string>,
    screenplayId: Option<string>,
    status: TaskStatus,
    durationMs: Option<int>,
    resultSummary: Option<string>,
    level: Option<Level>)

  datatype TaskEvent = TaskEvent(eventType: EventType, data: EventData)

  /** What `emitInputtedEvent` is given: its `task_id` and emoji are optional. */
  datatype InputPayload = InputPayload(
    taskId: Option<string>,
    agentId: string,
    agentName: string,
    agentEmoji: Option<string>,
    instanceId: string,
    conversationId: string,
    screenplayId: Option<string>,
    inputText: string)

  /** What `submitTask` is given; the working directory and AI provider only travel to the backend. */
  datatype SubmitPayload = SubmitPayload(
    taskId: string,
    agentId: string,
    agentName: string,
    agentEmoji: string,
    instanceId: string,
    conversationId: string,
    screenplayId: Option<string>,
    inputText: string)

  const DefaultEmoji := "\U{1F916}"
  const DefaultMaxAgeMs := 300000
  const SummaryLength := 200
  const SubmitFailedMessage := "Failed to submit task to API"

  /** Every entry is stored under its own task's id, once. */
  predicate WellFormed(es: Entries<ObservableTask>) {
    DistinctKeys(es) && forall i :: 0 <= i < |es| ==> es[i].0 == es[i].1.taskId
  }

  // ------------------------------------------------------------------ events

  /** `getLevelForStatus`: typing and submission are debug, queueing and work are info, outcomes are results. */
  function LevelForStatus(status: TaskStatus): Level {
    match status
    case Inputted => Debug
    case Submitted => Debug
    case Pending => Info
    case Processing => Info
    case Completed => Result
    case Error => Result
  }

  lemma LevelFacts(status: TaskStatus)
    ensures LevelForStatus(status) == Debug <==> status in {Inputted, Submitted}
    ensures LevelForStatus(status) == Info <==> status in {Pending, Processing}
    ensures LevelForStatus(status) == Result <==> status in {Completed, Error}
  {
  }

  /** `result?.substring(0, 200)`. */
  function Summary(result: Option<string>): (r: Option<string>)
    ensures r.None? <==> result.None?
    ensures r.Some? ==> |r.value| <= SummaryLength && r.value <= result.value
    ensures r.Some? && |result.value| <= SummaryLength ==> r == result
  {
    match result
    case None => None
    case Some(s) => Some(if |s| <= SummaryLength then s else s[..SummaryLength])
  }

  /** `emitLocalEvent(type, task)`: the event describing that task as it now stands. */
  function LocalEvent(eventType: EventType, task: ObservableTask): (e: TaskEvent)
    ensures e.eventType == eventType && e.data.taskId == task.taskId && e.data.status == task.status
    ensures e.data.level == Some(LevelForStatus(task.status))
    ensures e.data.resultSummary == Summary(task.result) && e.data.durationMs == task.durationMs
  {
    TaskEvent(eventType, EventData(task.taskId, task.agentId, task.agentName, task.agentEmoji, task.instanceId,
                                   Some(task.conversationId), task.screenplayId, task.status, task.durationMs,
                                   Summary(task.result), Some(LevelForStatus(task.status))))
  }

  // --------------------------------------------------------------- creation

  /** JavaScript truthiness of an optional string: present and non-empty. */
  predicate Given(s: Option<string>) {
    s.Some? && s.value != ""
  }

  /** What `emitInputtedEvent` records; `generatedId` stands for a fresh `generateTaskId()`. */
  function InputtedTask(p: InputPayload, generatedId: string, now: int): (t: ObservableTask)
    ensures t.taskId == (if Given(p.taskId) then p.taskId.value else generatedId)
    ensures t.agentEmoji == (if Given(p.agentEmoji) then p.agentEmoji.value else DefaultEmoji)
    ensures t.status == Inputted && t.createdAt == now && t.updatedAt == now
    ensures t.result.None? && t.error.None? && t.durationMs.None?
  {
    ObservableTask(if Given(p.taskId) then p.taskId.value else generatedId, p.agentId, p.agentName,
                   if Given(p.agentEmoji) then p.agentEmoji.value else DefaultEmoji,
                   p.instanceId, p.conversationId, p.screenplayId, Inputted, p.inputText, now, now,
                   None, None, None)
  }

  /** What `submitTask` records before the request is sent. */
  function SubmittedTask(p: SubmitPayload, now: int): (t: ObservableTask)
    ensures t.taskId == p.taskId && t.status == Inputted && t.updatedAt == now
  {
    ObservableTask(p.taskId, p.agentId, p.agentName, p.agentEmoji, p.instanceId, p.conversationId,
                   p.screenplayId, Inputted, p.inputText, now, now, None, None, None)
  }

  /** Recording a task under its id. */
  function AfterRecord(es: Entries<ObservableTask>, t: ObservableTask): Entries<ObservableTask> {
    Put(es, t.taskId, t)
  }

  // ----------------------------------------------------------------- updates

  /**
   * `updateTaskStatus`: the status and update time are set; the error, result
   * and duration only when given (a non-empty text, a non-zero number).
   */
  function Updated(t: ObservableTask, status: TaskStatus, error: Option<string>, result: Option<string>,
                   durationMs: Option<int>, now: int): ObservableTask
  {
    t.(status := status, updatedAt := now,
       error := if Given(error) then error else t.error,
       result := if Given(result) then result else t.result,
       durationMs := if durationMs.Some? && durationMs.value != 0 then durationMs else t.durationMs)
  }

  function AfterStatus(es: Entries<ObservableTask>, taskId: string, status: TaskStatus, error: Option<string>,
                       result: Option<string>, durationMs: Option<int>, now: int): Entries<ObservableTask> {
    match Get(es, taskId)
    case None => es
    case Some(t) => Put(es, taskId, Updated(t, status, error, result, durationMs, now))
  }

  /** `handleWebSocketEvent`: the backend's report, applied to a task this client knows. */
  function AfterWebSocket(es: Entries<ObservableTask>, e: TaskEvent, now: int): Entries<ObservableTask> {
    if Get(es, e.data.taskId).None? then es
    else match e.eventType
      case TaskPicked => AfterStatus(es, e.data.taskId, Processing, None, None, None, now)
      case TaskProcessing => AfterStatus(es, e.data.taskId, Processing, None, None, None, now)
      case TaskCompleted => AfterStatus(es, e.data.taskId, Completed, None, e.data.resultSummary, e.data.durationMs, now)
      case TaskError => AfterStatus(es, e.data.taskId, Error, e.data.resultSummary, None, None, now)
      case _ => es
  }

  /** A finished task that was last updated more than `maxAgeMs` ago. */
  predicate Stale(t: ObservableTask, maxAgeMs: int, now: int) {
    (t.status == Completed || t.status == Error) && now - t.updatedAt > maxAgeMs
  }

  /** `cleanupOldTasks`: the tasks that stay, in their order. */
  function Cleaned(es: Entries<ObservableTask>, maxAgeMs: int, now: int): Entries<ObservableTask> {
    Filter(es, (e: Entry) => !Stale(e.1, maxAgeMs, now))
  }

  /** The ids the first pass of `cleanupOldTasks` collects, in order. */
  function StaleIds(es: Entries<ObservableTask>, maxAgeMs: int, now: int): seq<string> {
    Keys(Filter(es, (e: Entry) => Stale(e.1, maxAgeMs, now)))
  }

  /** The map after deleting each of `ids` in turn. */
  function DeletedAll(es: Entries<ObservableTask>, ids: seq<string>): Entries<ObservableTask> {
    if ids == [] then es else Remove(DeletedAll(es, ids[..|ids| - 1]), ids[|ids| - 1])
  }

  // ------------------------------------------------------------------ lemmas

  /** A status update: unknown tasks are ignored; a known one gets exactly the given changes; others stay. */
  lemma StatusUpdateFacts(es: Entries<ObservableTask>, taskId: string, status: TaskStatus, error: Option<string>,
                          result: Option<string>, durationMs: Option<int>, now: int, k: string)
    requires WellFormed(es)
    ensures Get(es, taskId).None? ==> AfterStatus(es, taskId, status, error, result, durationMs, now) == es
    ensures var t := Get(AfterStatus(es, taskId, status, error, result, durationMs, now), k);
      if k != taskId || Get(es, taskId).None? then t == Get(es, k)
      else
        var old_ := Get(es, taskId).value;
        && t.Some? && t.value.status == status && t.value.updatedAt == now
        && t.value.taskId == old_.taskId && t.value.inputText == old_.inputText
        && t.value.createdAt == old_.createdAt
        && t.value.error == (if Given(error) then error else old_.error)
        && t.value.result == (if Given(result) then result else old_.result)
        && t.value.durationMs == (if durationMs.Some? && durationMs.value != 0 then durationMs else old_.durationMs)
  {
    match Get(es, taskId)
    case None =>
    case Some(t) =>
      GetAfterPut(es, taskId, Updated(t, status, error, result, durationMs, now), k);
  }

  /**
   * Backend reports: picked and processing mean processing, completed records the
   * summary as result with the duration, error records the summary as error;
   * the echo of typing or submitting, and any report on an unknown task, change nothing.
   */
  lemma WebSocketFacts(es: Entries<ObservableTask>, e: TaskEvent, now: int)
    requires WellFormed(es)
    ensures Get(es, e.data.taskId).None? ==> AfterWebSocket(es, e, now) == es
    ensures e.eventType in {TaskInputted, TaskSubmitted} ==> AfterWebSocket(es, e, now) == es
    ensures Get(es, e.data.taskId).Some? ==>
      var t := Get(AfterWebSocket(es, e, now), e.data.taskId);
      && t.Some?
      && (e.eventType in {TaskPicked, TaskProcessing} ==> t.value.status == Processing)
      && (e.eventType == TaskCompleted ==>
            (t.value.status == Completed && (Given(e.data.resultSummary) ==> t.value.result == e.data.resultSummary)))
      && (e.eventType == TaskError ==>
            (t.value.status == Error && (Given(e.data.resultSummary) ==> t.value.error == e.data.resultSummary)))
  {
    var id := e.data.taskId;
    if Get(es, id).Some? {
      var t := Get(es, id).value;
      match e.eventType
      case TaskPicked => StatusUpdateFacts(es, id, Processing, None, None, None, now, id);
      case TaskProcessing => StatusUpdateFacts(es, id, Processing, None, None, None, now, id);
      case TaskCompleted => StatusUpdateFacts(es, id, Completed, None, e.data.resultSummary, e.data.durationMs, now, id);
      case TaskError => StatusUpdateFacts(es, id, Error, e.data.resultSummary, None, None, now, id);
      case _ =>
    }
  }

  /** Cleanup keeps exactly the tasks that are unfinished or recent, in their order. */
  lemma CleanupFacts(es: Entries<ObservableTask>, maxAgeMs: int, now: int, e: Entry)
    ensures e in Cleaned(es, maxAgeMs, now) <==> e in es && !Stale(e.1, maxAgeMs, now)
    ensures e in es && e.1.status !in {Completed, Error} ==> e in Cleaned(es, maxAgeMs, now)
    ensures |Cleaned(es, maxAgeMs, now)| <= |es|
  {
    FilterMembers(es, (e: Entry) => !Stale(e.1, maxAgeMs, now), e);
  }

  /** Collecting one more entry adds its id exactly when it is stale. */
  lemma StaleIdsStep(es: Entries<ObservableTask>, x: Entry, maxAgeMs: int, now: int)
    ensures StaleIds(es + [x], maxAgeMs, now) ==
      StaleIds(es, maxAgeMs, now) + (if Stale(x.1, maxAgeMs, now) then [x.0] else [])
  {
    var stale := (e: Entry) => Stale(e.1, maxAgeMs, now);
    FilterAppend(es, [x], stale);
    assert Filter([x], stale) == if Stale(x.1, maxAgeMs, now) then [x] else [];
  }

  /** Deleting ids one after the other drops exactly the entries with those ids. */
  lemma {:induction false} DeletedAllIsFilter(es: Entries<ObservableTask>, ids: seq<string>)
    ensures DeletedAll(es, ids) == Filter(es, (e: Entry) => e.0 !in ids)
  {
    if ids == [] {
      FilterAgree(es, (e: Entry) => true, (e: Entry) => e.0 !in ids);
      FilterAll(es);
    } else {
      var init := ids[..|ids| - 1];
      var last := ids[|ids| - 1];
      DeletedAllIsFilter(es, init);
      var f := Filter(es, (e: Entry) => e.0 !in init);
      RemoveIsFilter(f, last);
      assert forall x: string :: x in ids <==> x in init || x == last by {
        assert ids == init + [last];
      }
      FilterTwice(es, (e: Entry) => e.0 !in init, (e: Entry) => e.0 != last, (e: Entry) => e.0 !in ids);
    }
  }

  lemma {:induction false} FilterAll(es: Entries<ObservableTask>)
    ensures Filter(es, (e: Entry) => true) == es
  {
    if es != [] {
      FilterAll(es[1..]);
    }
  }

  lemma {:induction false} RemoveIsFilter(es: Entries<ObservableTask>, k: string)
    ensures Remove(es, k) == Filter(es, (e: Entry) => e.0 != k)
  {
    if es != [] {
      RemoveIsFilter(es[1..], k);
    }
  }

  lemma {:induction false} FilterTwice(es: Entries<ObservableTask>, p: Entry -> bool, q: Entry -> bool,
                                       both: Entry -> bool)
    requires forall e :: both(e) == (p(e) && q(e))
    ensures Filter(Filter(es, p), q) == Filter(es, both)
  {
    if es != [] {
      FilterTwice(es[1..], p, q, both);
      var head := if p(es[0]) then [es[0]] else [];
      FilterAppend(head, Filter(es[1..], p), q);
    }
  }

  /** In a map with distinct keys, dropping the stale ids is dropping the stale entries. */
  lemma DeletingStaleIdsCleans(es: Entries<ObservableTask>, maxAgeMs: int, now: int)
    requires DistinctKeys(es)
    ensures DeletedAll(es, StaleIds(es, maxAgeMs, now)) == Cleaned(es, maxAgeMs, now)
  {
    var stale := (e: Entry) => Stale(e.1, maxAgeMs, now);
    var ids := StaleIds(es, maxAgeMs, now);
    DeletedAllIsFilter(es, ids);
    forall k | 0 <= k < |es| ensures (es[k].0 !in ids) == !Stale(es[k].1, maxAgeMs, now) {
      var e := es[k];
      FilterMembers(es, stale, e);
      var f := Filter(es, stale);
      if e.0 in ids {
        var m :| 0 <= m < |ids| && ids[m] == e.0;
        assert f[m] in f;
        FilterMembers(es, stale, f[m]);
        var j :| 0 <= j < |es| && es[j] == f[m];
        assert j == k;
      }
    }
    FilterAgree(es, (e: Entry) => e.0 !in ids, (e: Entry) => !Stale(e.1, maxAgeMs, now));
  }

  /** Recording and updating keep every task stored under its own id, once. */
  lemma RecordKeepsWellFormed(es: Entries<ObservableTask>, t: ObservableTask)
    requires WellFormed(es)
    ensures WellFormed(AfterRecord(es, t))
  {
    PutKeepsDistinct(es, t.taskId, t);
  }

  lemma StatusKeepsWellFormed(es: Entries<ObservableTask>, taskId: string, status: TaskStatus,
                              error: Option<string>, result: Option<string>, durationMs: Option<int>, now: int)
    requires WellFormed(es)
    ensures WellFormed(AfterStatus(es, taskId, status, error, result, durationMs, now))
  {
    match Get(es, taskId)
    case None =>
    case Some(old_) =>
      var i := IndexOfKey(es, taskId).value;
      PutKeepsDistinct(es, taskId, Updated(old_, status, error, result, durationMs, now));
  }

  lemma CleanedKeepsWellFormed(es: Entries<ObservableTask>, maxAgeMs: int, now: int)
    requires WellFormed(es)
    ensures WellFormed(Cleaned(es, maxAgeMs, now))
  {
    var c := Cleaned(es, maxAgeMs, now);
    forall i | 0 <= i < |c| ensures c[i].0 == c[i].1.taskId {
      CleanupFacts(es, maxAgeMs, now, c[i]);
    }
    forall i, j | 0 <= i < j < |c| ensures c[i].0 != c[j].0 {
      OrderKept(es, (e: Entry) => !Stale(e.1, maxAgeMs, now), i, j);
    }
  }

  /** Two positions of a filtered list come from two positions of the input, in the same order. */
  lemma {:induction false} OrderKept(es: Entries<ObservableTask>, p: Entry -> bool, i: nat, j: nat)
    requires i < j < |Filter(es, p)|
    ensures exists a, b :: 0 <= a < b < |es| && es[a] == Filter(es, p)[i] && es[b] == Filter(es, p)[j]
  {
    var f := Filter(es, p);
    var rest := Filter(es[1..], p);
    if p(es[0]) {
      if i == 0 {
        assert f[j] == rest[j - 1] && f[j] in rest;
        FilterMembers(es[1..], p, f[j]);
        var b :| 0 <= b < |es[1..]| && es[1..][b] == f[j];
        assert es[b + 1] == f[j];
      } else {
        OrderKept(es[1..], p, i - 1, j - 1);
        var a, b :| 0 <= a < b < |es[1..]| && es[1..][a] == rest[i - 1] && es[1..][b] == rest[j - 1];
        assert es[a + 1] == f[i] && es[b + 1] == f[j];
      }
    } else {
      OrderKept(es[1..], p, i, j);
      var a, b :| 0 <= a < b < |es[1..]| && es[1..][a] == rest[i] && es[1..][b] == rest[j];
      assert es[a + 1] == f[i] && es[b + 1] == f[j];
    }
  }

  // ----------------------------------------------------------------- service

  /** The first loop of `cleanupOldTasks`: the ids of the stale tasks, in map order. */
  method CollectStale(tasks: Entries<ObservableTask>, maxAgeMs: int, now: int) returns (toRemove: seq<string>)
    ensures toRemove == StaleIds(tasks, maxAgeMs, now)
  {
    toRemove := [];
    var i := 0;
    while i < |tasks|
      invariant 0 <= i <= |tasks|
      invariant toRemove == StaleIds(tasks[..i], maxAgeMs, now)
    {
      StaleIdsStep(tasks[..i], tasks[i], maxAgeMs, now);
      assert tasks[..i + 1] == tasks[..i] + [tasks[i]];
      if Stale(tasks[i].1, maxAgeMs, now) {
        toRemove := toRemove + [tasks[i].0];
      }
      i := i + 1;
    }
    assert tasks[..|tasks|] == tasks;
  }

  /** The second loop of `cleanupOldTasks`: delete each collected id in turn. */
  method DeleteEach(tasks: Entries<ObservableTask>, toRemove: seq<string>) returns (m: Entries<ObservableTask>)
    ensures m == DeletedAll(tasks, toRemove)
  {
    m := tasks;
    var j := 0;
    while j < |toRemove|
      invariant 0 <= j <= |toRemove|
      invariant m == DeletedAll(tasks, toRemove[..j])
    {
      assert toRemove[..j + 1][..j] == toRemove[..j];
      m := Remove(m, toRemove[j]);
      j := j + 1;
    }
    assert toRemove[..|toRemove|] == toRemove;
  }

  class TaskObservabilityService {
    var activeTasks: Entries<ObservableTask>

    predicate Valid()
      reads this
    {
      WellFormed(activeTasks)
    }

    constructor()
      ensures activeTasks == [] && Valid()
    {
      activeTasks := [];
    }

    /** `getTask`. */
    function GetTask(taskId: string): (r: Option<ObservableTask>)
      reads this
      requires Valid()
      ensures r.Some? <==> HasKey(activeTasks, taskId)
      ensures r.Some? ==> r.value.taskId == taskId
    {
      var r := Get(activeTasks, taskId);
      if r.Some? then
        assert activeTasks[IndexOfKey(activeTasks, taskId).value].0 == taskId;
        r
      else r
    }

    /** `emitInputtedEvent`: record the typed task and return the `task_inputted` event emitted for it. */
    method EmitInputtedEvent(payload: InputPayload, generatedId: string, now: int) returns (e: TaskEvent)
      requires Valid()
      modifies this
      ensures activeTasks == AfterRecord(old(activeTasks), InputtedTask(payload, generatedId, now)) && Valid()
      ensures e == LocalEvent(TaskInputted, InputtedTask(payload, generatedId, now))
    {
      var task := InputtedTask(payload, generatedId, now);
      RecordKeepsWellFormed(activeTasks, task);
      activeTasks := Put(activeTasks, task.taskId, task);
      e := LocalEvent(TaskInputted, task);
    }

    /** The local half of `submitTask`: record a new entry and return its `task_inputted` event. */
    method SubmitTask(payload: SubmitPayload, now: int) returns (e: TaskEvent)
      requires Valid()
      modifies this
      ensures activeTasks == AfterRecord(old(activeTasks), SubmittedTask(payload, now)) && Valid()
      ensures e == LocalEvent(TaskInputted, SubmittedTask(payload, now))
    {
      var task := SubmittedTask(payload, now);
      RecordKeepsWellFormed(activeTasks, task);
      activeTasks := Put(activeTasks, task.taskId, task);
      e := LocalEvent(TaskInputted, task);
    }

    /** The backend accepted the submission: its entry is submitted and a `task_submitted` event is emitted. */
    method OnSubmitAccepted(taskId: string, now: int) returns (e: Option<TaskEvent>)
      requires Valid()
      modifies this
      ensures activeTasks == AfterStatus(old(activeTasks), taskId, Submitted, None, None, None, now) && Valid()
      ensures e.Some? <==> Get(activeTasks, taskId).Some?
      ensures e.Some? ==> e.value == LocalEvent(TaskSubmitted, Get(activeTasks, taskId).value)
    {
      UpdateTaskStatus(taskId, Submitted, None, None, None, now);
      var t := Get(activeTasks, taskId);
      e := if t.Some? then Some(LocalEvent(TaskSubmitted, t.value)) else None;
    }

    /** The submission failed: its entry is marked failed and a `task_error` event is emitted. */
    method OnSubmitFailed(taskId: string, now: int) returns (e: Option<TaskEvent>)
      requires Valid()
      modifies this
      ensures activeTasks == AfterStatus(old(activeTasks), taskId, Error, Some(SubmitFailedMessage), None, None, now)
      ensures Valid()
      ensures e.Some? <==> Get(activeTasks, taskId).Some?
      ensures e.Some? ==> e.value == LocalEvent(TaskError, Get(activeTasks, taskId).value)
    {
      UpdateTaskStatus(taskId, Error, Some(SubmitFailedMessage), None, None, now);
      var t := Get(activeTasks, taskId);
      e := if t.Some? then Some(LocalEvent(TaskError, t.value)) else None;
    }

    method UpdateTaskStatus(taskId: string, status: TaskStatus, error: Option<string>, result: Option<string>,
                            durationMs: Option<int>, now: int)
      requires Valid()
      modifies this
      ensures activeTasks == AfterStatus(old(activeTasks), taskId, status, error, result, durationMs, now) && Valid()
    {
      StatusKeepsWellFormed(activeTasks, taskId, status, error, result, durationMs, now);
      var task := Get(activeTasks, taskId);
      if task.Some? {
        activeTasks := Put(activeTasks, taskId, Updated(task.value, status, error, result, durationMs, now));
      }
    }

    method HandleWebSocketEvent(e: TaskEvent, now: int)
      requires Valid()
      modifies this
      ensures activeTasks == AfterWebSocket(old(activeTasks), e, now) && Valid()
    {
      var taskId := e.data.taskId;
      var task := Get(activeTasks, taskId);
      if task.Some? {
        match e.eventType
        case TaskPicked => UpdateTaskStatus(taskId, Processing, None, None, None, now);
        case TaskProcessing => UpdateTaskStatus(taskId, Processing, None, None, None, now);
        case TaskCompleted => UpdateTaskStatus(taskId, Completed, None, e.data.resultSummary, e.data.durationMs, now);
        case TaskError => UpdateTaskStatus(taskId, Error, e.data.resultSummary, None, None, now);
        case _ =>
      }
    }

    /** `cleanupOldTasks(maxAgeMs = 300000)`, with `now` the clock: collect the stale ids in map order, then delete them. */
    method CleanupOldTasks(now: int, maxAgeMs: int := DefaultMaxAgeMs)
      requires Valid()
      modifies this
      ensures activeTasks == Cleaned(old(activeTasks), maxAgeMs, now) && Valid()
    {
      var tasks := activeTasks;
      var toRemove := CollectStale(tasks, maxAgeMs, now);
      var m := DeleteEach(tasks, toRemove);
      DeletingStaleIdsCleans(tasks, maxAgeMs, now);
      CleanedKeepsWellFormed(tasks, maxAgeMs, now);
      activeTasks := m;
    }
  }
}
