/** The task specialist (lib/agents/task.ts). A language model turns the message
    into a structured request; that request is an input here (`None` when the call
    or its parsing threw). The handlers read and write the datastore value. */
module TaskAgent {
  import opened Types
  import opened Store

  datatype RequestAction = Create | Update | Complete | Query | OtherAction

  datatype QueryType = AllQuery | ProjectTasksQuery | OverdueQuery | TodayQuery | SearchQuery | OtherQuery

  /** The `updates` object of the request; each field may be missing. */
  datatype TaskUpdates = TaskUpdates(
    description: Option<string>,
    priority: Option<Priority>,
    deadline: Option<Time>,
    status: Option<TaskStatus>)

  datatype TaskRequest = TaskRequest(
    action: RequestAction,
    taskDescription: Option<string>,
    taskId: Option<Id>,
    projectId: Option<Id>,
    deadline: Option<Time>,
    priority: Option<Priority>,
    updates: TaskUpdates,
    queryType: Option<QueryType>,
    searchTerm: Option<string>)

  /** What a specialist is told besides the message: the resolved entities and the
      active context. */
  datatype AgentContext = AgentContext(resolved: ResolvedEntities, active: ActiveContext)

  /** The instant and the bounds of the current day, as the datastore's clock sees them. */
  datatype Clock = Clock(now: Time, dayStart: Time, dayEnd: Time)

  /** `xs[0]?.id`. */
  function FirstRefId(refs: seq<EntityRef>): (r: Option<Id>)
    ensures r.Some? <==> refs != []
    ensures refs != [] ==> r.value == refs[0].id
  {
    if refs == [] then None else Some(refs[0].id)
  }

  /** The task an update or a completion is about: the request's id, else the first
      resolved task, else the current task of the context (the first truthy one). */
  function TargetTaskId(req: TaskRequest, ctx: AgentContext): (r: Option<Id>)
    ensures Present(req.taskId) ==> r == req.taskId
    ensures !Present(req.taskId) && Present(FirstRefId(ctx.resolved.tasks)) ==> r == FirstRefId(ctx.resolved.tasks)
    ensures !Present(req.taskId) && !Present(FirstRefId(ctx.resolved.tasks)) ==> r == ctx.active.currentTaskId
  {
    Or(req.taskId, Or(FirstRefId(ctx.resolved.tasks), ctx.active.currentTaskId))
  }

  function Failure(action: TaskAction, message: string): (r: TaskAgentResult)
    ensures r.action == action && r.task.None? && r.tasks.None? && r.error == Some(message)
  {
    TaskAgentResult(action, None, None, Some(message))
  }

  /** `handleTaskCreate`: a task needs a description; it is filed under the first
      resolved project, else the project the request names. */
  function HandleTaskCreate(db: Db, req: TaskRequest, ctx: AgentContext): (r: (TaskAgentResult, Db))
    ensures !Present(req.taskDescription) ==> r == (Failure(CreatedTask, "No task description provided"), db)
    ensures Present(req.taskDescription) ==> r.0.action == CreatedTask && r.0.error.None? && r.0.task.Some?
    ensures Present(req.taskDescription) && r.0.task.Some? ==>
      var t := r.0.task.value;
      t.description == req.taskDescription.value &&
      t.projectId == OrNull(Or(FirstRefId(ctx.resolved.projects), req.projectId)) &&
      t.priority == (if req.priority.Some? then req.priority.value else Medium) &&
      t.deadline == req.deadline && t.status == Pending && t.id == FreshId(db.nextId) &&
      t.lastRemindedAt.None? && t.completedAt.None? &&
      r.1.tasks == [t] + db.tasks && r.1.projects == db.projects && r.1.knowledge == db.knowledge
  {
    if !Present(req.taskDescription) then (Failure(CreatedTask, "No task description provided"), db)
    else
      var projectId := Or(FirstRefId(ctx.resolved.projects), req.projectId);
      var (t, db') := CreateTask(db, req.taskDescription.value, projectId, req.deadline, req.priority);
      (TaskAgentResult(CreatedTask, Some(t), None, None), db')
  }

  /** The field-by-field `updates` map: only truthy fields of the request's `updates`
      are copied, then a top-level priority or deadline overrides its counterpart. */
  method BuildTaskUpdates(req: TaskRequest) returns (u: TaskUpdates)
    ensures u.description == OrNull(req.updates.description)
    ensures u.priority == if req.priority.Some? then req.priority else req.updates.priority
    ensures u.deadline == if req.deadline.Some? then req.deadline else req.updates.deadline
    ensures u.status == req.updates.status
  {
    u := TaskUpdates(None, None, None, None);
    if Present(req.updates.description) {
      u := u.(description := req.updates.description);
    }
    if req.updates.priority.Some? {
      u := u.(priority := req.updates.priority);
    }
    if req.updates.deadline.Some? {
      u := u.(deadline := req.updates.deadline);
    }
    if req.updates.status.Some? {
      u := u.(status := req.updates.status);
    }
    if req.priority.Some? {
      u := u.(priority := req.priority);
    }
    if req.deadline.Some? {
      u := u.(deadline := req.deadline);
    }
  }

  /** `updateTask`: the fields present in the map replace the row's; the rest stay. */
  function ApplyTaskUpdates(t: Task, u: TaskUpdates): (r: Task)
    ensures r.id == t.id && r.projectId == t.projectId
    ensures r.lastRemindedAt == t.lastRemindedAt && r.completedAt == t.completedAt
    ensures u.description.Some? ==> r.description == u.description.value
    ensures u.description.None? ==> r.description == t.description
    ensures u.priority.Some? ==> r.priority == u.priority.value
    ensures u.priority.None? ==> r.priority == t.priority
    ensures r.deadline == if u.deadline.Some? then u.deadline else t.deadline
    ensures u.status.Some? ==> r.status == u.status.value
    ensures u.status.None? ==> r.status == t.status
  {
    t.(description := if u.description.Some? then u.description.value else t.description,
       priority := if u.priority.Some? then u.priority.value else t.priority,
       deadline := if u.deadline.Some? then u.deadline else t.deadline,
       status := if u.status.Some? then u.status.value else t.status)
  }

  /** The task an update leaves behind, read off the request: a non-empty
      description, a status, a priority and a deadline in `updates` each replace the
      row's, a top-level priority or deadline wins over its `updates` counterpart,
      and the id, the project and both stamps are kept. */
  function Revised(t: Task, req: TaskRequest): (r: Task)
    ensures r.id == t.id && r.projectId == t.projectId
    ensures r.lastRemindedAt == t.lastRemindedAt && r.completedAt == t.completedAt
  {
    Task(t.id, t.projectId,
         if Present(req.updates.description) then req.updates.description.value else t.description,
         if req.updates.status.Some? then req.updates.status.value else t.status,
         if req.priority.Some? then req.priority.value
         else if req.updates.priority.Some? then req.updates.priority.value else t.priority,
         if req.deadline.Some? then req.deadline
         else if req.updates.deadline.Some? then req.updates.deadline else t.deadline,
         t.lastRemindedAt, t.completedAt)
  }

  /** What `handleTaskUpdate` returns and leaves in the store: the two errors change
      nothing; otherwise the target row is replaced in place by its revision. */
  predicate UpdateAnswered(db: Db, req: TaskRequest, ctx: AgentContext, r: TaskAgentResult, db': Db)
  {
    var id := TargetTaskId(req, ctx);
    if !Present(id) then
      r == Failure(UpdatedTask, "Could not identify which task to update") && db' == db
    else if TaskById(db.tasks, id.value).None? then
      r == Failure(UpdatedTask, "Task not found") && db' == db
    else
      var t := Revised(TaskById(db.tasks, id.value).value, req);
      r == TaskAgentResult(UpdatedTask, Some(t), None, None) && db' == db.(tasks := ReplaceTask(db.tasks, t))
  }

  /** `handleTaskUpdate`: the `updates` map built field by field and applied to the
      found row gives exactly the revision the request asks for. */
  method HandleTaskUpdate(db: Db, req: TaskRequest, ctx: AgentContext) returns (r: TaskAgentResult, db': Db)
    ensures UpdateAnswered(db, req, ctx, r, db')
    ensures r.error.None? ==> r.task.Some? && r.task.value.id == TargetTaskId(req, ctx).value
  {
    var taskId := TargetTaskId(req, ctx);
    if !Present(taskId) {
      return Failure(UpdatedTask, "Could not identify which task to update"), db;
    }
    var existing := TaskById(db.tasks, taskId.value);
    if existing.None? {
      return Failure(UpdatedTask, "Task not found"), db;
    }
    var updates := BuildTaskUpdates(req);
    var task := ApplyTaskUpdates(existing.value, updates);
    assert task == Revised(existing.value, req);
    return TaskAgentResult(UpdatedTask, Some(task), None, None), db.(tasks := ReplaceTask(db.tasks, task));
  }

  /** A successful update is what the store returns for that id afterwards; every
      other id reads as before. */
  lemma UpdateIsStored(db: Db, req: TaskRequest, ctx: AgentContext, r: TaskAgentResult, db': Db, id: Id)
    requires UpdateAnswered(db, req, ctx, r, db') && r.error.None?
    ensures r.task.Some?
    ensures TaskById(db'.tasks, id) == if id == r.task.value.id then r.task else TaskById(db.tasks, id)
  {
    var t := r.task.value;
    ReplaceTaskReadsBack(db.tasks, t, id);
  }

  /** `completeTask`: status completed, completion stamped now. */
  function MarkCompleted(t: Task, now: Time): (r: Task)
    ensures r.id == t.id && r.description == t.description && r.projectId == t.projectId
    ensures r.status == Completed && r.completedAt == Some(now)
  {
    t.(status := Completed, completedAt := Some(now))
  }

  /** `handleTaskComplete`. */
  function HandleTaskComplete(db: Db, req: TaskRequest, ctx: AgentContext, now: Time): (r: (TaskAgentResult, Db))
    ensures !Present(TargetTaskId(req, ctx)) ==>
              r == (Failure(CompletedTask, "Could not identify which task to complete"), db)
    ensures Present(TargetTaskId(req, ctx)) && TaskById(db.tasks, TargetTaskId(req, ctx).value).None? ==>
              r == (Failure(CompletedTask, "Task not found"), db)
    ensures Present(TargetTaskId(req, ctx)) && TaskById(db.tasks, TargetTaskId(req, ctx).value).Some? ==>
              var found := TaskById(db.tasks, TargetTaskId(req, ctx).value).value;
              r.0.action == CompletedTask && r.0.error.None? && r.0.task == Some(MarkCompleted(found, now)) &&
              r.1 == db.(tasks := ReplaceTask(db.tasks, MarkCompleted(found, now)))
  {
    var taskId := TargetTaskId(req, ctx);
    if !Present(taskId) then (Failure(CompletedTask, "Could not identify which task to complete"), db)
    else
      var existing := TaskById(db.tasks, taskId.value);
      if existing.None? then (Failure(CompletedTask, "Task not found"), db)
      else
        var task := MarkCompleted(existing.value, now);
        (TaskAgentResult(CompletedTask, Some(task), None, None), db.(tasks := ReplaceTask(db.tasks, task)))
  }

  /** A completed task leaves the open-task list, so it is no longer a candidate for
      the entity resolver; every other open task stays. */
  lemma CompletionLeavesOpenTasks(ts: seq<Task>, t: Task, now: Time)
    ensures MarkCompleted(t, now) !in OpenTasks(ReplaceTask(ts, MarkCompleted(t, now)))
    ensures forall u :: u in OpenTasks(ts) && u.id != t.id ==> u in OpenTasks(ReplaceTask(ts, MarkCompleted(t, now)))
  {
    var ts' := ReplaceTask(ts, MarkCompleted(t, now));
    forall u | u in OpenTasks(ts) && u.id != t.id
      ensures u in OpenTasks(ts')
    {
      var i :| 0 <= i < |ts| && ts[i] == u;
      assert ts'[i] == u;
    }
  }

  /** The project a project query is about: the first resolved project, else the
      request's, else the context's current project. */
  function QueryProjectId(req: TaskRequest, ctx: AgentContext): (r: Option<Id>)
    ensures Present(FirstRefId(ctx.resolved.projects)) ==> r == FirstRefId(ctx.resolved.projects)
    ensures !Present(FirstRefId(ctx.resolved.projects)) && Present(req.projectId) ==> r == req.projectId
    ensures !Present(FirstRefId(ctx.resolved.projects)) && !Present(req.projectId) ==> r == ctx.active.currentProjectId
  {
    Or(FirstRefId(ctx.resolved.projects), Or(req.projectId, ctx.active.currentProjectId))
  }

  /** The query types that end in the plain pending list. */
  predicate FallsBackToPending(req: TaskRequest, ctx: AgentContext)
  {
    req.queryType.None? || req.queryType == Some(AllQuery) || req.queryType == Some(OtherQuery) ||
    (req.queryType == Some(ProjectTasksQuery) && !Present(QueryProjectId(req, ctx))) ||
    (req.queryType == Some(SearchQuery) && !Present(req.searchTerm))
  }

  /** What `handleTaskQuery` returns: a successful query whose list is the one the
      query type selects. */
  predicate QueryAnswered(db: Db, req: TaskRequest, ctx: AgentContext, clock: Clock, r: TaskAgentResult)
  {
    r.action == QueriedTasks && r.task.None? && r.error.None? && r.tasks.Some? &&
    (FallsBackToPending(req, ctx) ==> r.tasks.value == PendingTasks(db.tasks)) &&
    (req.queryType == Some(ProjectTasksQuery) && Present(QueryProjectId(req, ctx)) ==>
       r.tasks.value == TasksOfProject(db.tasks, QueryProjectId(req, ctx).value)) &&
    (req.queryType == Some(OverdueQuery) ==> r.tasks.value == OverdueTasks(db.tasks, clock.now)) &&
    (req.queryType == Some(TodayQuery) ==> r.tasks.value == TodaysTasks(db.tasks, clock.dayStart, clock.dayEnd)) &&
    (req.queryType == Some(SearchQuery) && Present(req.searchTerm) ==>
       r.tasks.value == SearchTasks(db.tasks, req.searchTerm.value))
  }

  /** `handleTaskQuery`: the list chosen by the query type; nothing is written. */
  method HandleTaskQuery(db: Db, req: TaskRequest, ctx: AgentContext, clock: Clock) returns (r: TaskAgentResult)
    ensures QueryAnswered(db, req, ctx, clock, r)
  {
    var tasks: seq<Task> := [];
    var qt := if req.queryType.Some? then req.queryType.value else OtherQuery;
    match qt {
      case ProjectTasksQuery =>
        var projectId := QueryProjectId(req, ctx);
        if Present(projectId) {
          tasks := TasksOfProject(db.tasks, projectId.value);
        } else {
          tasks := PendingTasks(db.tasks);
        }
      case OverdueQuery =>
        tasks := OverdueTasks(db.tasks, clock.now);
      case TodayQuery =>
        tasks := TodaysTasks(db.tasks, clock.dayStart, clock.dayEnd);
      case SearchQuery =>
        if Present(req.searchTerm) {
          tasks := SearchTasks(db.tasks, req.searchTerm.value);
        } else {
          tasks := PendingTasks(db.tasks);
        }
      case AllQuery =>
        tasks := PendingTasks(db.tasks);
      case OtherQuery =>
        tasks := PendingTasks(db.tasks);
    }
    return TaskAgentResult(QueriedTasks, None, Some(tasks), None);
  }

  /** What `handleTaskIntent` answers and leaves in the store, branch by branch:
      the handler of the requested action, or a fixed failure. */
  predicate IntentAnswered(db: Db, req: Option<TaskRequest>, ctx: AgentContext, clock: Clock,
                           r: TaskAgentResult, db': Db)
  {
    match req
    case None => r == Failure(QueriedTasks, Apology) && db' == db
    case Some(q) =>
      match q.action
      case Create => (r, db') == HandleTaskCreate(db, q, ctx)
      case Update => UpdateAnswered(db, q, ctx, r, db')
      case Complete => (r, db') == HandleTaskComplete(db, q, ctx, clock.now)
      case Query => QueryAnswered(db, q, ctx, clock, r) && db' == db
      case OtherAction => r == Failure(QueriedTasks, "Unknown action requested") && db' == db
  }

  /** `handleTaskIntent`: dispatch on the requested action. An unknown action, or a
      request that could not be obtained, is a failed query with a fixed message. */
  method HandleTaskIntent(db: Db, req: Option<TaskRequest>, ctx: AgentContext, clock: Clock)
    returns (r: TaskAgentResult, db': Db)
    ensures req.None? ==> r == Failure(QueriedTasks, Apology) && db' == db
    ensures req.Some? && req.value.action == OtherAction ==>
              r == Failure(QueriedTasks, "Unknown action requested") && db' == db
    ensures req.Some? && req.value.action == Create ==> (r, db') == HandleTaskCreate(db, req.value, ctx)
    ensures req.Some? && req.value.action == Complete ==> (r, db') == HandleTaskComplete(db, req.value, ctx, clock.now)
    ensures req.Some? && req.value.action == Update ==> UpdateAnswered(db, req.value, ctx, r, db')
    ensures req.Some? && req.value.action == Query ==> QueryAnswered(db, req.value, ctx, clock, r) && db' == db
    ensures r.error.None? ==> r.action != QueriedTasks ==> r.task.Some?
    ensures IntentAnswered(db, req, ctx, clock, r, db')
  {
    if req.None? {
      return Failure(QueriedTasks, Apology), db;
    }
    match req.value.action {
      case Create =>
        r, db' := HandleTaskCreate(db, req.value, ctx).0, HandleTaskCreate(db, req.value, ctx).1;
      case Update =>
        r, db' := HandleTaskUpdate(db, req.value, ctx);
      case Complete =>
        r, db' := HandleTaskComplete(db, req.value, ctx, clock.now).0, HandleTaskComplete(db, req.value, ctx, clock.now).1;
      case Query =>
        r := HandleTaskQuery(db, req.value, ctx, clock);
        db' := db;
      case OtherAction =>
        r, db' := Failure(QueriedTasks, "Unknown action requested"), db;
    }
  }
}
