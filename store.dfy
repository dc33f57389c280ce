/** The datastore (lib/db/queries.ts) as a value: the rows of the three tables the
    core reads and writes, each kept in the order its listing query returns them.
    Projects are listed newest update first, tasks and knowledge newest creation
    first, so a created row goes to the front, an updated project moves to the
    front and an updated task keeps its place. Fresh ids come from a counter. */
module Store {
  import opened Types
  import opened Strings

  datatype Db = Db(projects: seq<Project>, tasks: seq<Task>, knowledge: seq<Knowledge>, nextId: nat)

  /** The id the datastore gives the n-th inserted row. */
  function FreshId(n: nat): (id: Id)
    ensures StartsWith(id, "id-")
  {
    "id-" + NatToString(n)
  }

  lemma FreshIdInjective(n: nat, m: nat)
    requires FreshId(n) == FreshId(m)
    ensures n == m
  {
    assert FreshId(n)[3..] == NatToString(n);
    assert FreshId(m)[3..] == NatToString(m);
    ParseNatToString(n);
    ParseNatToString(m);
  }

  /** `getProjectById`: the row with that id, if any. */
  function ProjectById(ps: seq<Project>, id: Id): (r: Option<Project>)
    ensures r.Some? ==> r.value in ps && r.value.id == id
    ensures r.None? <==> forall p :: p in ps ==> p.id != id
  {
    if ps == [] then None
    else if ps[0].id == id then Some(ps[0])
    else ProjectById(ps[1..], id)
  }

  /** `getTaskById`: the row with that id, whatever its status. */
  function TaskById(ts: seq<Task>, id: Id): (r: Option<Task>)
    ensures r.Some? ==> r.value in ts && r.value.id == id
    ensures r.None? <==> forall t :: t in ts ==> t.id != id
  {
    if ts == [] then None
    else if ts[0].id == id then Some(ts[0])
    else TaskById(ts[1..], id)
  }

  /** `getAllTasks`: every task that is not completed, newest first. */
  function OpenTasks(ts: seq<Task>): (r: seq<Task>)
    ensures forall t :: t in r <==> t in ts && t.status != Completed
    ensures |r| <= |ts|
  {
    if ts == [] then []
    else (if ts[0].status != Completed then [ts[0]] else []) + OpenTasks(ts[1..])
  }

  /** `getPendingTasks`: the pending tasks. The datastore orders them by priority
      text and deadline; here they keep the table order. */
  function PendingTasks(ts: seq<Task>): (r: seq<Task>)
    ensures forall t :: t in r <==> t in ts && t.status == Pending
  {
    if ts == [] then [] else (if ts[0].status == Pending then [ts[0]] else []) + PendingTasks(ts[1..])
  }

  predicate IsOverdue(t: Task, now: Time)
  {
    t.status == Pending && t.deadline.Some? && t.deadline.value < now
  }

  /** `getOverdueTasks`: pending tasks whose deadline has passed. */
  function OverdueTasks(ts: seq<Task>, now: Time): (r: seq<Task>)
    ensures forall t :: t in r <==> t in ts && IsOverdue(t, now)
  {
    if ts == [] then [] else (if IsOverdue(ts[0], now) then [ts[0]] else []) + OverdueTasks(ts[1..], now)
  }

  predicate DueWithin(t: Task, dayStart: Time, dayEnd: Time)
  {
    t.status == Pending && t.deadline.Some? && dayStart <= t.deadline.value <= dayEnd
  }

  /** `getTodaysTasks`: pending tasks due between the start and the end of the
      server's current day (both given). */
  function TodaysTasks(ts: seq<Task>, dayStart: Time, dayEnd: Time): (r: seq<Task>)
    ensures forall t :: t in r <==> t in ts && DueWithin(t, dayStart, dayEnd)
  {
    if ts == [] then [] else (if DueWithin(ts[0], dayStart, dayEnd) then [ts[0]] else []) + TodaysTasks(ts[1..], dayStart, dayEnd)
  }

  const SearchLimit: nat := 10

  predicate DescriptionMatches(t: Task, term: string)
  {
    t.status != Completed && Contains(Lower(t.description), Lower(term))
  }

  function AllMatches(ts: seq<Task>, term: string): (r: seq<Task>)
    ensures forall t :: t in r <==> t in ts && DescriptionMatches(t, term)
  {
    if ts == [] then [] else (if DescriptionMatches(ts[0], term) then [ts[0]] else []) + AllMatches(ts[1..], term)
  }

  /** `searchTasks`: the ten newest open tasks whose description contains the term,
      ignoring case. */
  function SearchTasks(ts: seq<Task>, term: string): (r: seq<Task>)
    ensures |r| <= SearchLimit
    ensures forall t :: t in r ==> t in ts && DescriptionMatches(t, term)
    ensures |AllMatches(ts, term)| <= SearchLimit ==> r == AllMatches(ts, term)
    ensures |AllMatches(ts, term)| > SearchLimit ==> r == AllMatches(ts, term)[..SearchLimit]
  {
    var all := AllMatches(ts, term);
    if |all| <= SearchLimit then all else all[..SearchLimit]
  }

  /** `getTasksByProject`: the open tasks of one project, newest first. */
  function TasksOfProject(ts: seq<Task>, pid: Id): (r: seq<Task>)
    ensures forall t :: t in r <==> t in ts && t.status != Completed && t.projectId == Some(pid)
  {
    if ts == [] then [] else
      var head := if ts[0].status != Completed && ts[0].projectId == Some(pid) then [ts[0]] else [];
      head + TasksOfProject(ts[1..], pid)
  }

  /** `getProjectByName`: a case-insensitive whole-name match; the first one listed. */
  function ProjectByName(ps: seq<Project>, name: string): (r: Option<Project>)
    ensures r.Some? ==> r.value in ps && Lower(r.value.name) == Lower(name)
    ensures r.None? <==> forall p :: p in ps ==> Lower(p.name) != Lower(name)
  {
    if ps == [] then None
    else if Lower(ps[0].name) == Lower(name) then Some(ps[0])
    else ProjectByName(ps[1..], name)
  }

  /** `getProjectKnowledge`: the notes filed under one project, newest first. */
  function KnowledgeOf(ks: seq<Knowledge>, pid: Id): (r: seq<Knowledge>)
    ensures forall k :: k in r <==> k in ks && k.projectId == Some(pid)
    ensures |r| <= |ks|
  {
    if ks == [] then []
    else (if ks[0].projectId == Some(pid) then [ks[0]] else []) + KnowledgeOf(ks[1..], pid)
  }

  /** `createTask`: empty project and deadline become null, priority defaults to medium. */
  function CreateTask(db: Db, description: string, projectId: Option<Id>, deadline: Option<Time>,
                      priority: Option<Priority>): (r: (Task, Db))
    ensures r.0.id == FreshId(db.nextId) && r.0.description == description
    ensures r.0.projectId == OrNull(projectId) && r.0.deadline == deadline
    ensures r.0.priority == (if priority.Some? then priority.value else Medium)
    ensures r.0.status == Pending && r.0.lastRemindedAt == None && r.0.completedAt == None
    ensures r.1 == db.(tasks := [r.0] + db.tasks, nextId := db.nextId + 1)
  {
    var t := Task(FreshId(db.nextId), OrNull(projectId), description, Pending,
                  if priority.Some? then priority.value else Medium, deadline, None, None);
    (t, db.(tasks := [t] + db.tasks, nextId := db.nextId + 1))
  }

  /** Replaces the task with t's id by t, in place. */
  function ReplaceTask(ts: seq<Task>, t: Task): (r: seq<Task>)
    ensures |r| == |ts|
    ensures forall i :: 0 <= i < |ts| ==> r[i] == if ts[i].id == t.id then t else ts[i]
  {
    if ts == [] then [] else [if ts[0].id == t.id then t else ts[0]] + ReplaceTask(ts[1..], t)
  }

  /** After a replacement, looking the id up finds the new row, and every other id
      finds what it found before. */
  lemma {:induction false} ReplaceTaskReadsBack(ts: seq<Task>, t: Task, id: Id)
    requires TaskById(ts, t.id).Some?
    ensures TaskById(ReplaceTask(ts, t), id) == if id == t.id then Some(t) else TaskById(ts, id)
  {
    if ts[0].id != t.id {
      ReplaceTaskReadsBack(ts[1..], t, id);
      assert ReplaceTask(ts, t)[1..] == ReplaceTask(ts[1..], t);
    } else if id != t.id {
      assert ReplaceTask(ts, t)[1..] == ReplaceTask(ts[1..], t);
      ReplaceAbsent(ts[1..], t, id);
    }
  }

  lemma {:induction false} ReplaceAbsent(ts: seq<Task>, t: Task, id: Id)
    requires id != t.id
    ensures TaskById(ReplaceTask(ts, t), id) == TaskById(ts, id)
  {
    if ts != [] {
      ReplaceAbsent(ts[1..], t, id);
      assert ReplaceTask(ts, t)[1..] == ReplaceTask(ts[1..], t);
    }
  }

  /** Replaces the project with p's id by p and moves it to the front (its update stamp is now the newest). */
  function TouchProject(ps: seq<Project>, p: Project): (r: seq<Project>)
    ensures |r| >= 1 && r[0] == p
    ensures forall q :: q in r[1..] <==> q in ps && q.id != p.id
  {
    [p] + Without(ps, p.id)
  }

  function Without(ps: seq<Project>, id: Id): (r: seq<Project>)
    ensures forall q :: q in r <==> q in ps && q.id != id
  {
    if ps == [] then [] else (if ps[0].id != id then [ps[0]] else []) + Without(ps[1..], id)
  }

  /** Dropping one id's rows leaves every other id's lookup as it was. */
  lemma {:induction false} WithoutReadsBack(ps: seq<Project>, gone: Id, id: Id)
    requires id != gone
    ensures ProjectById(Without(ps, gone), id) == ProjectById(ps, id)
  {
    if ps != [] {
      var rest := Without(ps[1..], gone);
      WithoutReadsBack(ps[1..], gone, id);
      if ps[0].id != gone {
        assert Without(ps, gone) == [ps[0]] + rest;
        assert ([ps[0]] + rest)[1..] == rest;
      } else {
        assert Without(ps, gone) == rest;
      }
    }
  }

  /** `createProject`: empty optional fields become null, status defaults to future. */
  function CreateProject(db: Db, name: string, clientName: Option<string>, address: Option<string>,
                         projectType: Option<string>, status: Option<ProjectStatus>): (r: (Project, Db))
    ensures r.0.id == FreshId(db.nextId) && r.0.name == name
    ensures r.0.clientName == OrNull(clientName) && r.0.address == OrNull(address)
    ensures r.0.projectType == OrNull(projectType)
    ensures r.0.status == (if status.Some? then status.value else Future)
    ensures r.1 == db.(projects := [r.0] + db.projects, nextId := db.nextId + 1)
  {
    var p := Project(FreshId(db.nextId), name, OrNull(clientName), OrNull(address), OrNull(projectType),
                     if status.Some? then status.value else Future);
    (p, db.(projects := [p] + db.projects, nextId := db.nextId + 1))
  }

  /** `addProjectKnowledge`: an empty project id or source id becomes null; `stamp`
      is the creation time the datastore gives the row. */
  function AddKnowledge(db: Db, projectId: Option<Id>, content: string, embedding: Option<seq<real>>,
                        source: KnowledgeSource, sourceId: Option<Id>, stamp: string): (r: (Knowledge, Db))
    ensures r.0.id == FreshId(db.nextId) && r.0.content == content && r.0.embedding == embedding
    ensures r.0.projectId == OrNull(projectId) && r.0.sourceId == OrNull(sourceId)
    ensures r.0.source == source && r.0.createdAt == stamp
    ensures r.1 == db.(knowledge := [r.0] + db.knowledge, nextId := db.nextId + 1)
  {
    var k := Knowledge(FreshId(db.nextId), OrNull(projectId), content, embedding, source, OrNull(sourceId), stamp);
    (k, db.(knowledge := [k] + db.knowledge, nextId := db.nextId + 1))
  }
}
