/** The project specialist (lib/agents/project.ts). The structured request comes
    from a language model and is an input here (`None` when obtaining it threw). */
module ProjectAgent {
  import opened Types
  import opened Store
  import TaskAgent

  /** A request field that distinguishes "not given" from an explicit null. */
  datatype Field = Undefined | Null | Given(value: string)

  /** A field's value, with an explicit null and a missing field both read as null. */
  function FieldValue(f: Field): (r: Option<string>)
    ensures r.Some? <==> f.Given?
  {
    if f.Given? then Some(f.value) else None
  }

  datatype ProjectRequest = ProjectRequest(
    action: string,
    name: Option<string>,
    projectId: Option<Id>,
    clientName: Field,
    address: Field,
    projectType: Field,
    status: Option<ProjectStatus>)

  /** The `updates` map: a missing entry leaves the column alone. The three nullable
      columns can be set to null, so their entries carry an `Option`. */
  datatype ProjectUpdates = ProjectUpdates(
    name: Option<string>,
    clientName: Option<Option<string>>,
    address: Option<Option<string>>,
    projectType: Option<Option<string>>,
    status: Option<ProjectStatus>)

  function Failure(action: ProjectAction, message: string): (r: ProjectAgentResult)
    ensures r.action == action && r.project.None? && r.error == Some(message)
  {
    ProjectAgentResult(action, None, Some(message))
  }

  /** `handleProjectCreate`: a project needs a name; the status defaults to future. */
  function HandleProjectCreate(db: Db, req: ProjectRequest): (r: (ProjectAgentResult, Db))
    ensures !Present(req.name) ==> r == (Failure(CreatedProject, "No project name provided"), db)
    ensures Present(req.name) ==> r.0.action == CreatedProject && r.0.error.None? && r.0.project.Some?
    ensures Present(req.name) && r.0.project.Some? ==>
      var p := r.0.project.value;
      p.name == req.name.value && p.id == FreshId(db.nextId) &&
      p.status == (if req.status.Some? then req.status.value else Future) &&
      p.clientName == OrNull(FieldValue(req.clientName)) &&
      p.address == OrNull(FieldValue(req.address)) &&
      p.projectType == OrNull(FieldValue(req.projectType)) &&
      r.1.projects == [p] + db.projects && r.1.tasks == db.tasks && r.1.knowledge == db.knowledge
  {
    if !Present(req.name) then (Failure(CreatedProject, "No project name provided"), db)
    else
      var (p, db') := CreateProject(db, req.name.value, FieldValue(req.clientName), FieldValue(req.address),
                                    FieldValue(req.projectType), req.status);
      (ProjectAgentResult(CreatedProject, Some(p), None), db')
  }

  /** The project an update is about: the request's id, else the first resolved
      project, else the context's current project. */
  function TargetProjectId(req: ProjectRequest, ctx: TaskAgent.AgentContext): (r: Option<Id>)
    ensures Present(req.projectId) ==> r == req.projectId
    ensures !Present(req.projectId) && ctx.resolved.projects != [] && ctx.resolved.projects[0].id != "" ==>
              r == Some(ctx.resolved.projects[0].id)
    ensures !Present(req.projectId) && !Present(TaskAgent.FirstRefId(ctx.resolved.projects)) ==>
              r == ctx.active.currentProjectId
  {
    Or(req.projectId, Or(TaskAgent.FirstRefId(ctx.resolved.projects), ctx.active.currentProjectId))
  }

  /** The field-by-field `updates` map: name and status only when truthy; client,
      address and type whenever the request mentions them, so an explicit null
      clears the column. */
  method BuildProjectUpdates(req: ProjectRequest) returns (u: ProjectUpdates)
    ensures u.name == OrNull(req.name)
    ensures u.status == req.status
    ensures u.clientName == if req.clientName.Undefined? then None else Some(FieldValue(req.clientName))
    ensures u.address == if req.address.Undefined? then None else Some(FieldValue(req.address))
    ensures u.projectType == if req.projectType.Undefined? then None else Some(FieldValue(req.projectType))
  {
    u := ProjectUpdates(None, None, None, None, None);
    if Present(req.name) {
      u := u.(name := req.name);
    }
    if !req.clientName.Undefined? {
      u := u.(clientName := Some(FieldValue(req.clientName)));
    }
    if !req.address.Undefined? {
      u := u.(address := Some(FieldValue(req.address)));
    }
    if !req.projectType.Undefined? {
      u := u.(projectType := Some(FieldValue(req.projectType)));
    }
    if req.status.Some? {
      u := u.(status := req.status);
    }
  }

  /** `updateProject`: the entries present in the map replace the row's columns. */
  function ApplyProjectUpdates(p: Project, u: ProjectUpdates): (r: Project)
    ensures r.id == p.id
    ensures r.name == if u.name.Some? then u.name.value else p.name
    ensures r.clientName == if u.clientName.Some? then u.clientName.value else p.clientName
    ensures r.address == if u.address.Some? then u.address.value else p.address
    ensures r.projectType == if u.projectType.Some? then u.projectType.value else p.projectType
    ensures r.status == if u.status.Some? then u.status.value else p.status
  {
    Project(p.id,
            if u.name.Some? then u.name.value else p.name,
            if u.clientName.Some? then u.clientName.value else p.clientName,
            if u.address.Some? then u.address.value else p.address,
            if u.projectType.Some? then u.projectType.value else p.projectType,
            if u.status.Some? then u.status.value else p.status)
  }

  /** A nullable column after an update: kept when the request leaves the field
      out, cleared by an explicit null, replaced by a given value. */
  function Overwrite(column: Option<string>, f: Field): (r: Option<string>)
    ensures f.Undefined? ==> r == column
    ensures !f.Undefined? ==> r == FieldValue(f)
  {
    match f
    case Undefined => column
    case Null => None
    case Given(v) => Some(v)
  }

  /** The project an update leaves behind, read off the request: a non-empty name
      and a status replace the row's, the three nullable columns follow `Overwrite`,
      and the id is kept. */
  function Revised(p: Project, req: ProjectRequest): (r: Project)
    ensures r.id == p.id
  {
    Project(p.id,
            if Present(req.name) then req.name.value else p.name,
            Overwrite(p.clientName, req.clientName),
            Overwrite(p.address, req.address),
            Overwrite(p.projectType, req.projectType),
            if req.status.Some? then req.status.value else p.status)
  }

  /** What `handleProjectUpdate` returns and leaves in the store: the two errors
      change nothing; otherwise the revised project replaces the row and, its update
      stamp being the newest, moves to the front of the project list. */
  predicate UpdateAnswered(db: Db, req: ProjectRequest, ctx: TaskAgent.AgentContext, r: ProjectAgentResult, db': Db)
  {
    var id := TargetProjectId(req, ctx);
    if !Present(id) then
      r == Failure(UpdatedProject, "Could not identify which project to update") && db' == db
    else if ProjectById(db.projects, id.value).None? then
      r == Failure(UpdatedProject, "Project not found") && db' == db
    else
      var p := Revised(ProjectById(db.projects, id.value).value, req);
      r == ProjectAgentResult(UpdatedProject, Some(p), None) && db' == db.(projects := TouchProject(db.projects, p))
  }

  /** `handleProjectUpdate`: the `updates` map built field by field and applied to
      the found row gives exactly the revision the request asks for. */
  method HandleProjectUpdate(db: Db, req: ProjectRequest, ctx: TaskAgent.AgentContext)
    returns (r: ProjectAgentResult, db': Db)
    ensures UpdateAnswered(db, req, ctx, r, db')
    ensures r.error.None? ==> r.project.Some? && r.project.value.id == TargetProjectId(req, ctx).value
  {
    var projectId := TargetProjectId(req, ctx);
    if !Present(projectId) {
      return Failure(UpdatedProject, "Could not identify which project to update"), db;
    }
    var existing := ProjectById(db.projects, projectId.value);
    if existing.None? {
      return Failure(UpdatedProject, "Project not found"), db;
    }
    var updates := BuildProjectUpdates(req);
    var project := ApplyProjectUpdates(existing.value, updates);
    assert project == Revised(existing.value, req);
    return ProjectAgentResult(UpdatedProject, Some(project), None), db.(projects := TouchProject(db.projects, project));
  }

  /** A successful update is what the store returns for that id afterwards; every
      other id reads as before. */
  lemma UpdateIsStored(db: Db, req: ProjectRequest, ctx: TaskAgent.AgentContext, r: ProjectAgentResult, db': Db, id: Id)
    requires UpdateAnswered(db, req, ctx, r, db') && r.error.None?
    ensures r.project.Some?
    ensures ProjectById(db'.projects, id) == if id == r.project.value.id then r.project else ProjectById(db.projects, id)
  {
    var p := r.project.value;
    if id != p.id {
      WithoutReadsBack(db.projects, p.id, id);
    }
  }

  /** `handleProjectIntent`: "create" creates, any other action updates; a request
      that could not be obtained is a failed creation with the apology. */
  method HandleProjectIntent(db: Db, req: Option<ProjectRequest>, ctx: TaskAgent.AgentContext)
    returns (r: ProjectAgentResult, db': Db)
    ensures req.None? ==> r == Failure(CreatedProject, Apology) && db' == db
    ensures req.Some? && req.value.action == "create" ==> (r, db') == HandleProjectCreate(db, req.value)
    ensures req.Some? && req.value.action != "create" ==> UpdateAnswered(db, req.value, ctx, r, db')
    ensures r.error.None? ==> r.project.Some?
    ensures r.error.Some? ==> r.project.None? && db' == db
    ensures db'.tasks == db.tasks && db'.knowledge == db.knowledge
  {
    if req.None? {
      return Failure(CreatedProject, Apology), db;
    }
    if req.value.action == "create" {
      r, db' := HandleProjectCreate(db, req.value).0, HandleProjectCreate(db, req.value).1;
    } else {
      r, db' := HandleProjectUpdate(db, req.value, ctx);
    }
  }

  /** An explicit null clears a nullable column, while leaving it out keeps it. */
  lemma NullClearsUndefinedKeeps(p: Project, req: ProjectRequest, u: ProjectUpdates)
    requires u.address == (if req.address.Undefined? then None else Some(FieldValue(req.address)))
    ensures req.address.Null? ==> ApplyProjectUpdates(p, u).address.None?
    ensures req.address.Undefined? ==> ApplyProjectUpdates(p, u).address == p.address
    ensures req.address.Given? ==> ApplyProjectUpdates(p, u).address == Some(req.address.value)
  {
  }
}
