/** The records and enumerations of lib/utils/types.ts, plus the optional-value
    conventions the TypeScript code relies on (`null`/`undefined` and truthiness). */
module Types {

  datatype Option<T> = None | Some(value: T)

  /** Row identifiers are opaque strings (UUIDs in the datastore). */
  type Id = string

  /** Instants are milliseconds since the epoch, as `Date.getTime()` gives them. */
  type Time = int

  const MillisPerMinute: int := 60000
  const MillisPerHour: int := 3600000
  const MillisPerDay: int := 86400000

  /** JavaScript truthiness of an optional string: present and not empty. */
  predicate Present(o: Option<string>)
  {
    o.Some? && o.value != ""
  }

  /** `a || b` on optional strings: a when it is truthy, otherwise b. */
  function Or(a: Option<string>, b: Option<string>): (r: Option<string>)
    ensures Present(a) ==> r == a
    ensures !Present(a) ==> r == b
  {
    if Present(a) then a else b
  }

  /** `a || null`: the empty string is stored as null. */
  function OrNull(a: Option<string>): (r: Option<string>)
    ensures Present(a) <==> r.Some?
    ensures r.Some? ==> r == a
  {
    if Present(a) then a else None
  }

  datatype ProjectStatus = Future | Active | OnHold | Finished
  datatype TaskStatus = Pending | Completed | Paused | Cancelled
  datatype Priority = Low | Medium | High | Urgent
  datatype Role = UserRole | AssistantRole
  datatype KnowledgeSource = Meeting | ChatSource | Manual
  datatype Confidence = HighConfidence | MediumConfidence | LowConfidence

  function PriorityName(p: Priority): string
  {
    match p
    case Low => "low"
    case Medium => "medium"
    case High => "high"
    case Urgent => "urgent"
  }

  function ConfidenceName(c: Confidence): string
  {
    match c
    case HighConfidence => "high"
    case MediumConfidence => "medium"
    case LowConfidence => "low"
  }

  function ProjectStatusName(s: ProjectStatus): string
  {
    match s
    case Future => "future"
    case Active => "active"
    case OnHold => "on_hold"
    case Finished => "completed"
  }

  function KnowledgeSourceName(s: KnowledgeSource): string
  {
    match s
    case Meeting => "meeting"
    case ChatSource => "chat"
    case Manual => "manual"
  }

  /** A project row; the datastore's creation and update stamps are represented by
      the position of the row in `Store.Db.projects` (newest update first). */
  datatype Project = Project(
    id: Id,
    name: string,
    clientName: Option<string>,
    address: Option<string>,
    projectType: Option<string>,
    status: ProjectStatus)

  /** A task row; the creation stamp is represented by the position of the row
      in `Store.Db.tasks` (newest first). */
  datatype Task = Task(
    id: Id,
    projectId: Option<Id>,
    description: string,
    status: TaskStatus,
    priority: Priority,
    deadline: Option<Time>,
    lastRemindedAt: Option<Time>,
    completedAt: Option<Time>)

  /** A project_knowledge row; `createdAt` is the display form of its stamp. */
  datatype Knowledge = Knowledge(
    id: Id,
    projectId: Option<Id>,
    content: string,
    embedding: Option<seq<real>>,
    source: KnowledgeSource,
    sourceId: Option<Id>,
    createdAt: string)

  /** The short-term conversational memory saved with every message. */
  datatype ActiveContext = ActiveContext(
    currentTaskId: Option<Id>,
    currentProjectId: Option<Id>,
    recentTasks: seq<Id>,
    recentProjects: seq<Id>)

  /** `{ name, id }` for a project, `{ description, id }` for a task. */
  datatype EntityRef = EntityRef(title: string, id: Id)

  datatype ResolvedEntities = ResolvedEntities(projects: seq<EntityRef>, tasks: seq<EntityRef>)

  /** The ten intents the router can classify a message as. */
  datatype Intent =
    | TaskCreate | TaskUpdate | TaskComplete | TaskQuery
    | ProjectCreate | ProjectUpdate | ProjectQuery
    | ScheduleQuery | KnowledgeQuery | GeneralChat

  datatype RouterResult = RouterResult(
    intent: Intent,
    projectRefs: seq<string>,
    taskRefs: seq<string>,
    deadline: Option<string>,
    priority: Option<Priority>,
    requiresLookup: bool,
    confidence: Confidence)

  datatype Message = Message(role: Role, content: string)

  datatype TaskAction = CreatedTask | UpdatedTask | CompletedTask | QueriedTasks

  datatype TaskAgentResult = TaskAgentResult(
    action: TaskAction,
    task: Option<Task>,
    tasks: Option<seq<Task>>,
    error: Option<string>)

  datatype ProjectAction = CreatedProject | UpdatedProject

  datatype ProjectAgentResult = ProjectAgentResult(
    action: ProjectAction,
    project: Option<Project>,
    error: Option<string>)

  datatype SourceRef = SourceRef(content: string, createdAt: string)

  datatype KnowledgeAgentResult = KnowledgeAgentResult(
    answer: string,
    sources: seq<SourceRef>,
    confidence: Confidence)

  /** A task extracted from a transcript; its deadline is still the text the extractor gave. */
  datatype TranscriptTask = TranscriptTask(
    description: string,
    projectName: Option<string>,
    deadline: Option<string>,
    priority: Option<Priority>)

  datatype TranscriptKnowledge = TranscriptKnowledge(projectName: Option<string>, content: string)

  datatype NewProject = NewProject(name: string, clientName: Option<string>, projectType: Option<string>)

  datatype TranscriptResult = TranscriptResult(
    tasks: seq<TranscriptTask>,
    knowledge: seq<TranscriptKnowledge>,
    newProjects: seq<NewProject>)

  datatype CalendarEvent = CalendarEvent(
    id: string,
    summary: string,
    start: string,
    end: string,
    location: Option<string>)

  /** The apology every specialist falls back to when it throws. */
  const Apology: string := "Your nephew Aidan failed to build me correctly. Blame him not me."
}
