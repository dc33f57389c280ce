/** Voice-transcript results (lib/agents/transcript.ts): the confirmation summary
    shown before saving, and the commit that writes the approved result to the
    datastore. The extraction itself is a language-model call; its output is an
    input here. */
module Transcript {
  import opened Types
  import opened Strings
  import opened Store

  const NothingToExtract: string := "Nothing to extract from this transcript."
  const ProjectsHeader: string := "New projects to create: "
  const TasksHeader: string := "Tasks to create ("
  const KnowledgeHeader: string := "Knowledge chunks to store: "
  const ListedTasks: nat := 5

  function Min(x: nat, y: nat): nat
  {
    if x <= y then x else y
  }

  /** `processTranscript`'s failure rule: when extraction fails, three empty lists. */
  function ProcessTranscript(extracted: Option<TranscriptResult>): (r: TranscriptResult)
    ensures extracted.None? ==> r.tasks == [] && r.knowledge == [] && r.newProjects == []
    ensures extracted.Some? ==> r == extracted.value
  {
    if extracted.Some? then extracted.value else TranscriptResult([], [], [])
  }

  function ProjectNames(ps: seq<NewProject>): (r: seq<string>)
    ensures |r| == |ps| && forall k :: 0 <= k < |ps| ==> r[k] == ps[k].name
  {
    seq(|ps|, k requires 0 <= k < |ps| => ps[k].name)
  }

  /** One listed task: its description, tagged with its project when it has one. */
  function TaskLine(t: TranscriptTask): (r: string)
    ensures StartsWith(r, "  - " + t.description)
    ensures !Present(t.projectName) ==> r == "  - " + t.description
    ensures Present(t.projectName) ==>
              EndsWith(r, " [" + t.projectName.value + "]") &&
              |r| == |"  - " + t.description| + |" [" + t.projectName.value + "]"|
  {
    var tag := if Present(t.projectName) then " [" + t.projectName.value + "]" else "";
    EndsWithAppend("  - " + t.description, tag);
    assert ("  - " + t.description + tag)[..|"  - " + t.description|] == "  - " + t.description;
    "  - " + t.description + tag
  }

  function TaskLines(ts: seq<TranscriptTask>): (r: seq<string>)
    ensures |r| == |ts| && forall k :: 0 <= k < |ts| ==> r[k] == TaskLine(ts[k])
  {
    seq(|ts|, k requires 0 <= k < |ts| => TaskLine(ts[k]))
  }

  function MoreLine(n: nat): string
  {
    "  ... and " + NatToString(n) + " more"
  }

  /** The task section: a count header, the first five tasks, and a line saying how
      many more there are when there are more than five. */
  function TaskSection(ts: seq<TranscriptTask>): (r: seq<string>)
    ensures ts == [] ==> r == []
    ensures ts != [] ==> |r| == 1 + Min(ListedTasks, |ts|) + (if |ts| > ListedTasks then 1 else 0)
    ensures ts != [] ==> r[0] == TasksHeader + NatToString(|ts|) + "):"
    ensures forall k :: 0 <= k < Min(ListedTasks, |ts|) ==> r[k + 1] == TaskLine(ts[k])
    ensures |ts| > ListedTasks ==> r[|r| - 1] == MoreLine(|ts| - ListedTasks)
  {
    if ts == [] then []
    else
      var shown := if |ts| > ListedTasks then ts[..ListedTasks] else ts;
      [TasksHeader + NatToString(|ts|) + "):"] + TaskLines(shown) +
      (if |ts| > ListedTasks then [MoreLine(|ts| - ListedTasks)] else [])
  }

  function ProjectSection(ps: seq<NewProject>): (r: seq<string>)
    ensures ps == [] ==> r == []
    ensures ps != [] ==> r == [ProjectsHeader + Join(ProjectNames(ps), ", ")]
  {
    if ps == [] then [] else [ProjectsHeader + Join(ProjectNames(ps), ", ")]
  }

  function KnowledgeSection(ks: seq<TranscriptKnowledge>): (r: seq<string>)
    ensures ks == [] ==> r == []
    ensures ks != [] ==> r == [KnowledgeHeader + NatToString(|ks|)]
  {
    if ks == [] then [] else [KnowledgeHeader + NatToString(|ks|)]
  }

  /** The summary lines in section order: new projects, tasks, knowledge. */
  function SummaryParts(res: TranscriptResult): (r: seq<string>)
    ensures r == [] <==> res.newProjects == [] && res.tasks == [] && res.knowledge == []
  {
    ProjectSection(res.newProjects) + TaskSection(res.tasks) + KnowledgeSection(res.knowledge)
  }

  /** Pushes the task section onto `parts0`. */
  method PushTaskSection(parts0: seq<string>, ts: seq<TranscriptTask>) returns (parts: seq<string>)
    ensures parts == parts0 + TaskSection(ts)
  {
    parts := parts0;
    if |ts| > 0 {
      var header := TasksHeader + NatToString(|ts|) + "):";
      parts := parts + [header];
      var shown := if |ts| > ListedTasks then ts[..ListedTasks] else ts;
      var lines := TaskLines(shown);
      for i := 0 to |shown|
        invariant parts == parts0 + [header] + lines[..i]
      {
        PushNext(parts0 + [header], lines, i);
        parts := parts + [TaskLine(shown[i])];
      }
      assert lines[..|shown|] == lines;
      var more := if |ts| > ListedTasks then [MoreLine(|ts| - ListedTasks)] else [];
      parts := parts + more;
      assert parts == parts0 + ([header] + lines + more);
    }
  }

  /** `generateTranscriptSummary`. */
  method GenerateTranscriptSummary(res: TranscriptResult) returns (summary: string)
    ensures SummaryParts(res) == [] ==> summary == NothingToExtract
    ensures SummaryParts(res) != [] ==> summary == Join(SummaryParts(res), "\n")
  {
    var parts: seq<string> := [];
    if |res.newProjects| > 0 {
      parts := parts + [ProjectsHeader + Join(ProjectNames(res.newProjects), ", ")];
    }
    assert parts == ProjectSection(res.newProjects);
    parts := PushTaskSection(parts, res.tasks);
    if |res.knowledge| > 0 {
      parts := parts + [KnowledgeHeader + NatToString(|res.knowledge|)];
    }
    assert parts == SummaryParts(res);
    if |parts| == 0 {
      return NothingToExtract;
    }
    return Join(parts, "\n");
  }

  /** The fixed sentence is given exactly when there is nothing at all: any section
      makes the summary open with its own header, which the sentence does not. */
  lemma NothingIffEmpty(res: TranscriptResult)
    requires SummaryParts(res) != []
    ensures Join(SummaryParts(res), "\n") != NothingToExtract
  {
    var parts := SummaryParts(res);
    var r := Join(parts, "\n");
    SummaryOpening(res);
    JoinStartsWithFirst(parts, "\n");
    var h := if res.newProjects != [] then ProjectsHeader
             else if res.tasks != [] then TasksHeader
             else KnowledgeHeader;
    assert r[..|h|] == parts[0][..|h|] == h;
    HeaderIsNotNothing(h);
  }

  /** None of the three section headers opens the fixed sentence. */
  lemma HeaderIsNotNothing(h: string)
    requires h == ProjectsHeader || h == TasksHeader || h == KnowledgeHeader
    ensures !StartsWith(NothingToExtract, h)
  {
    var n := NothingToExtract[..|h|];
    assert n[1] == NothingToExtract[1] == 'o';
    assert h[1] != 'o';
  }

  /** The first line of a non-empty summary opens with the header of the first
      section present: new projects, else tasks, else knowledge. */
  lemma SummaryOpening(res: TranscriptResult)
    requires SummaryParts(res) != []
    ensures res.newProjects != [] ==> StartsWith(SummaryParts(res)[0], ProjectsHeader)
    ensures res.newProjects == [] && res.tasks != [] ==> StartsWith(SummaryParts(res)[0], TasksHeader)
    ensures res.newProjects == [] && res.tasks == [] ==> StartsWith(SummaryParts(res)[0], KnowledgeHeader)
  {
    var p, t, k := ProjectSection(res.newProjects), TaskSection(res.tasks), KnowledgeSection(res.knowledge);
    assert SummaryParts(res) == p + (t + k);
    if res.newProjects != [] {
      OpensWith(ProjectsHeader, Join(ProjectNames(res.newProjects), ", "));
      assert (p + (t + k))[0] == p[0];
    } else if res.tasks != [] {
      OpensWith(TasksHeader, NatToString(|res.tasks|) + "):");
      assert TasksHeader + NatToString(|res.tasks|) + "):" == TasksHeader + (NatToString(|res.tasks|) + "):");
      assert p + (t + k) == t + k;
      assert (t + k)[0] == t[0];
    } else {
      OpensWith(KnowledgeHeader, NatToString(|res.knowledge|));
      assert p + (t + k) == k;
    }
  }

  lemma OpensWith(h: string, x: string)
    ensures StartsWith(h + x, h)
  {
    assert (h + x)[..|h|] == h;
  }

  /** The "... and N more" line is there exactly when more than five tasks were extracted. */
  lemma MoreLineIffOverFive(ts: seq<TranscriptTask>)
    requires ts != []
    ensures |TaskSection(ts)| == 1 + Min(ListedTasks, |ts|) <==> |ts| <= ListedTasks
  {
  }

  /** The state threaded through `commitTranscriptData`: the datastore, the map from
      lower-cased project name to id, and the three counters. */
  datatype CommitState = CommitState(
    db: Db,
    projectMap: map<string, Id>,
    projectsCreated: nat,
    tasksCreated: nat,
    knowledgeAdded: nat)

  /** One new project: a nameless one is skipped, an existing one (found by name,
      ignoring case) is only recorded in the map, otherwise it is created as a
      future project and counted. */
  function ProjectStep(st: CommitState, np: NewProject): (r: CommitState)
    ensures r.tasksCreated == st.tasksCreated && r.knowledgeAdded == st.knowledgeAdded
    ensures r.db.tasks == st.db.tasks && r.db.knowledge == st.db.knowledge
    ensures np.name == "" ==> r == st
    ensures np.name != "" && ProjectByName(st.db.projects, np.name).Some? ==>
              r == st.(projectMap := st.projectMap[Lower(np.name) := ProjectByName(st.db.projects, np.name).value.id])
    ensures np.name != "" && ProjectByName(st.db.projects, np.name).None? ==>
              r.projectsCreated == st.projectsCreated + 1 &&
              |r.db.projects| == |st.db.projects| + 1 && r.db.projects[1..] == st.db.projects &&
              r.db.projects[0].name == np.name && r.db.projects[0].status == Future &&
              r.db.projects[0].clientName == OrNull(np.clientName) &&
              r.db.projects[0].projectType == OrNull(np.projectType) && r.db.projects[0].address.None? &&
              r.projectMap == st.projectMap[Lower(np.name) := r.db.projects[0].id]
  {
    if np.name == "" then st
    else
      var existing := ProjectByName(st.db.projects, np.name);
      if existing.Some? then st.(projectMap := st.projectMap[Lower(np.name) := existing.value.id])
      else
        var (p, db') := CreateProject(st.db, np.name, np.clientName, None, np.projectType, Some(Future));
        st.(db := db', projectMap := st.projectMap[Lower(np.name) := p.id], projectsCreated := st.projectsCreated + 1)
  }

  /** The project a task or a note is filed under: none without a project name;
      otherwise the existing project of that name, else the one recorded in the map,
      else none. */
  function LinkedProjectId(st: CommitState, name: Option<string>): (r: Option<Id>)
    ensures !Present(name) ==> r.None?
    ensures Present(name) && ProjectByName(st.db.projects, name.value).Some? &&
            ProjectByName(st.db.projects, name.value).value.id != "" ==>
              r == Some(ProjectByName(st.db.projects, name.value).value.id)
    ensures r.Some? ==> r.value != ""
  {
    if !Present(name) then None
    else
      var existing := ProjectByName(st.db.projects, name.value);
      var fromExisting := if existing.Some? then Some(existing.value.id) else None;
      var fromMap := if Lower(name.value) in st.projectMap then Some(st.projectMap[Lower(name.value)]) else None;
      OrNull(Or(fromExisting, fromMap))
  }

  /** One extracted task: skipped without a description, otherwise created and
      counted. `deadlineOf` is the datastore's reading of the deadline text. */
  function TaskStep(st: CommitState, t: TranscriptTask, deadlineOf: string -> Time): (r: CommitState)
    ensures r.projectsCreated == st.projectsCreated && r.knowledgeAdded == st.knowledgeAdded
    ensures r.projectMap == st.projectMap && r.db.projects == st.db.projects && r.db.knowledge == st.db.knowledge
    ensures t.description == "" ==> r == st
    ensures t.description != "" ==>
              r.tasksCreated == st.tasksCreated + 1 && |r.db.tasks| == |st.db.tasks| + 1 &&
              r.db.tasks[1..] == st.db.tasks && r.db.tasks[0].description == t.description &&
              r.db.tasks[0].projectId == LinkedProjectId(st, t.projectName) &&
              r.db.tasks[0].priority == (if t.priority.Some? then t.priority.value else Medium) &&
              r.db.tasks[0].deadline == (if Present(t.deadline) then Some(deadlineOf(t.deadline.value)) else None) &&
              r.db.tasks[0].status == Pending &&
              r.db.tasks[0].lastRemindedAt.None? && r.db.tasks[0].completedAt.None?
  {
    if t.description == "" then st
    else
      var deadline := if Present(t.deadline) then Some(deadlineOf(t.deadline.value)) else None;
      var (_, db') := CreateTask(st.db, t.description, LinkedProjectId(st, t.projectName), deadline, t.priority);
      st.(db := db', tasksCreated := st.tasksCreated + 1)
  }

  /** One knowledge item: skipped without content, otherwise stored as meeting
      knowledge under the transcript's source id and counted. `embed` is the embedding service; when it fails the
      item is still stored, without an embedding. */
  function KnowledgeStep(st: CommitState, k: TranscriptKnowledge, embed: string -> Option<seq<real>>,
                         stamp: string, sourceId: Id): (r: CommitState)
    ensures r.projectsCreated == st.projectsCreated && r.tasksCreated == st.tasksCreated
    ensures r.projectMap == st.projectMap && r.db.projects == st.db.projects && r.db.tasks == st.db.tasks
    ensures k.content == "" ==> r == st
    ensures k.content != "" ==>
              r.knowledgeAdded == st.knowledgeAdded + 1 && |r.db.knowledge| == |st.db.knowledge| + 1 &&
              r.db.knowledge[1..] == st.db.knowledge && r.db.knowledge[0].content == k.content &&
              r.db.knowledge[0].embedding == embed(k.content) && r.db.knowledge[0].source == Meeting &&
              r.db.knowledge[0].projectId == LinkedProjectId(st, k.projectName) &&
              r.db.knowledge[0].sourceId == OrNull(Some(sourceId)) && r.db.knowledge[0].createdAt == stamp
  {
    if k.content == "" then st
    else
      var (_, db') := AddKnowledge(st.db, LinkedProjectId(st, k.projectName), k.content, embed(k.content), Meeting,
                                   Some(sourceId), stamp);
      st.(db := db', knowledgeAdded := st.knowledgeAdded + 1)
  }

  function FoldProjects(st: CommitState, ps: seq<NewProject>): CommitState
  {
    if ps == [] then st else ProjectStep(FoldProjects(st, ps[..|ps| - 1]), ps[|ps| - 1])
  }

  function FoldTasks(st: CommitState, ts: seq<TranscriptTask>, deadlineOf: string -> Time): CommitState
  {
    if ts == [] then st else TaskStep(FoldTasks(st, ts[..|ts| - 1], deadlineOf), ts[|ts| - 1], deadlineOf)
  }

  function FoldKnowledge(st: CommitState, ks: seq<TranscriptKnowledge>, embed: string -> Option<seq<real>>,
                         stamp: string, sourceId: Id): CommitState
  {
    if ks == [] then st else KnowledgeStep(FoldKnowledge(st, ks[..|ks| - 1], embed, stamp, sourceId), ks[|ks| - 1], embed, stamp, sourceId)
  }

  /** The whole commit: projects first, then tasks, then knowledge. */
  function Committed(db: Db, res: TranscriptResult, deadlineOf: string -> Time,
                     embed: string -> Option<seq<real>>, stamp: string, sourceId: Id): CommitState
  {
    var afterProjects := FoldProjects(CommitState(db, map[], 0, 0, 0), res.newProjects);
    var afterTasks := FoldTasks(afterProjects, res.tasks, deadlineOf);
    FoldKnowledge(afterTasks, res.knowledge, embed, stamp, sourceId)
  }

  method CommitProjects(st0: CommitState, ps: seq<NewProject>) returns (st: CommitState)
    ensures st == FoldProjects(st0, ps)
  {
    var db := st0.db;
    var projectMap := st0.projectMap;
    var projectsCreated := st0.projectsCreated;
    for i := 0 to |ps|
      invariant CommitState(db, projectMap, projectsCreated, st0.tasksCreated, st0.knowledgeAdded) == FoldProjects(st0, ps[..i])
    {
      assert ps[..i + 1][..i] == ps[..i];
      var np := ps[i];
      if np.name == "" {
        continue;
      }
      var existing := ProjectByName(db.projects, np.name);
      if existing.Some? {
        projectMap := projectMap[Lower(np.name) := existing.value.id];
        continue;
      }
      var (project, db') := CreateProject(db, np.name, np.clientName, None, np.projectType, Some(Future));
      db := db';
      projectMap := projectMap[Lower(np.name) := project.id];
      projectsCreated := projectsCreated + 1;
    }
    assert ps[..|ps|] == ps;
    st := CommitState(db, projectMap, projectsCreated, st0.tasksCreated, st0.knowledgeAdded);
  }

  method CommitTasks(st0: CommitState, ts: seq<TranscriptTask>, deadlineOf: string -> Time) returns (st: CommitState)
    ensures st == FoldTasks(st0, ts, deadlineOf)
  {
    st := st0;
    for i := 0 to |ts|
      invariant st == FoldTasks(st0, ts[..i], deadlineOf)
    {
      assert ts[..i + 1][..i] == ts[..i];
      var t := ts[i];
      if t.description == "" {
        continue;
      }
      var projectId := LinkedProjectId(st, t.projectName);
      var deadline := if Present(t.deadline) then Some(deadlineOf(t.deadline.value)) else None;
      var (_, db') := CreateTask(st.db, t.description, projectId, deadline, t.priority);
      st := st.(db := db', tasksCreated := st.tasksCreated + 1);
    }
    assert ts[..|ts|] == ts;
  }

  method CommitKnowledge(st0: CommitState, ks: seq<TranscriptKnowledge>, embed: string -> Option<seq<real>>,
                         stamp: string, sourceId: Id) returns (st: CommitState)
    ensures st == FoldKnowledge(st0, ks, embed, stamp, sourceId)
  {
    st := st0;
    for i := 0 to |ks|
      invariant st == FoldKnowledge(st0, ks[..i], embed, stamp, sourceId)
    {
      assert ks[..i + 1][..i] == ks[..i];
      var k := ks[i];
      if k.content == "" {
        continue;
      }
      var projectId := LinkedProjectId(st, k.projectName);
      var embedding := embed(k.content);
      var (_, db') := AddKnowledge(st.db, projectId, k.content, embedding, Meeting, Some(sourceId), stamp);
      st := st.(db := db', knowledgeAdded := st.knowledgeAdded + 1);
    }
    assert ks[..|ks|] == ks;
  }

  /** `commitTranscriptData`: returns the three counters and the new datastore. */
  method CommitTranscriptData(db: Db, res: TranscriptResult, deadlineOf: string -> Time,
                              embed: string -> Option<seq<real>>, stamp: string, sourceId: Id)
    returns (tasksCreated: nat, knowledgeAdded: nat, projectsCreated: nat, db': Db)
    ensures var st := Committed(db, res, deadlineOf, embed, stamp, sourceId);
            db' == st.db && tasksCreated == st.tasksCreated &&
            knowledgeAdded == st.knowledgeAdded && projectsCreated == st.projectsCreated
    ensures tasksCreated == Described(res.tasks) && |db'.tasks| == |db.tasks| + tasksCreated
    ensures knowledgeAdded == WithContent(res.knowledge) && |db'.knowledge| == |db.knowledge| + knowledgeAdded
    ensures projectsCreated <= Named(res.newProjects) && |db'.projects| == |db.projects| + projectsCreated
    ensures db'.knowledge[knowledgeAdded..] == db.knowledge
    ensures forall i :: 0 <= i < knowledgeAdded ==>
              db'.knowledge[i].source == Meeting && db'.knowledge[i].sourceId == OrNull(Some(sourceId)) &&
              db'.knowledge[i].createdAt == stamp
  {
    var st := CommitState(db, map[], 0, 0, 0);
    st := CommitProjects(st, res.newProjects);
    ghost var afterProjects := st;
    st := CommitTasks(st, res.tasks, deadlineOf);
    ghost var afterTasks := st;
    st := CommitKnowledge(st, res.knowledge, embed, stamp, sourceId);
    ProjectsCount(CommitState(db, map[], 0, 0, 0), res.newProjects);
    TasksCount(afterProjects, res.tasks, deadlineOf);
    KnowledgeCount(afterTasks, res.knowledge, embed, stamp, sourceId);
    KnowledgeTagged(afterTasks, res.knowledge, embed, stamp, sourceId);
    return st.tasksCreated, st.knowledgeAdded, st.projectsCreated, st.db;
  }

  function Named(ps: seq<NewProject>): nat
  {
    if ps == [] then 0 else Named(ps[..|ps| - 1]) + (if ps[|ps| - 1].name != "" then 1 else 0)
  }

  function Described(ts: seq<TranscriptTask>): nat
  {
    if ts == [] then 0 else Described(ts[..|ts| - 1]) + (if ts[|ts| - 1].description != "" then 1 else 0)
  }

  function WithContent(ks: seq<TranscriptKnowledge>): nat
  {
    if ks == [] then 0 else WithContent(ks[..|ks| - 1]) + (if ks[|ks| - 1].content != "" then 1 else 0)
  }

  /** Only real creations are counted: the count grows with the project list, never
      past the number of named new projects, and nothing else is written. */
  lemma {:induction false} ProjectsCount(st: CommitState, ps: seq<NewProject>)
    ensures var r := FoldProjects(st, ps);
            r.projectsCreated - st.projectsCreated == |r.db.projects| - |st.db.projects| &&
            st.projectsCreated <= r.projectsCreated <= st.projectsCreated + Named(ps) &&
            r.tasksCreated == st.tasksCreated && r.knowledgeAdded == st.knowledgeAdded &&
            r.db.tasks == st.db.tasks && r.db.knowledge == st.db.knowledge
  {
    if ps != [] {
      ProjectsCount(st, ps[..|ps| - 1]);
    }
  }

  /** Every task with a description is created and counted, and only those. */
  lemma {:induction false} TasksCount(st: CommitState, ts: seq<TranscriptTask>, deadlineOf: string -> Time)
    ensures var r := FoldTasks(st, ts, deadlineOf);
            r.tasksCreated == st.tasksCreated + Described(ts) &&
            |r.db.tasks| == |st.db.tasks| + Described(ts) &&
            r.projectsCreated == st.projectsCreated && r.knowledgeAdded == st.knowledgeAdded &&
            r.db.projects == st.db.projects && r.db.knowledge == st.db.knowledge
  {
    if ts != [] {
      TasksCount(st, ts[..|ts| - 1], deadlineOf);
    }
  }

  /** Every knowledge item with content is stored and counted, and only those. */
  lemma {:induction false} KnowledgeCount(st: CommitState, ks: seq<TranscriptKnowledge>,
                                          embed: string -> Option<seq<real>>, stamp: string, sourceId: Id)
    ensures var r := FoldKnowledge(st, ks, embed, stamp, sourceId);
            r.knowledgeAdded == st.knowledgeAdded + WithContent(ks) &&
            |r.db.knowledge| == |st.db.knowledge| + WithContent(ks) &&
            r.projectsCreated == st.projectsCreated && r.tasksCreated == st.tasksCreated &&
            r.db.projects == st.db.projects && r.db.tasks == st.db.tasks
  {
    if ks != [] {
      KnowledgeCount(st, ks[..|ks| - 1], embed, stamp, sourceId);
    }
  }

  /** Every knowledge row the commit adds sits in front of the rows already stored
      and is meeting knowledge carrying the transcript's source id and the commit's
      stamp. */
  lemma {:induction false} KnowledgeTagged(st: CommitState, ks: seq<TranscriptKnowledge>,
                                           embed: string -> Option<seq<real>>, stamp: string, sourceId: Id)
    ensures var r := FoldKnowledge(st, ks, embed, stamp, sourceId);
            |r.db.knowledge| == |st.db.knowledge| + WithContent(ks) &&
            r.db.knowledge[WithContent(ks)..] == st.db.knowledge &&
            forall i :: 0 <= i < WithContent(ks) ==>
              r.db.knowledge[i].source == Meeting && r.db.knowledge[i].sourceId == OrNull(Some(sourceId)) &&
              r.db.knowledge[i].createdAt == stamp
  {
    if ks != [] {
      var front := ks[..|ks| - 1];
      KnowledgeTagged(st, front, embed, stamp, sourceId);
      var mid := FoldKnowledge(st, front, embed, stamp, sourceId);
      var r := KnowledgeStep(mid, ks[|ks| - 1], embed, stamp, sourceId);
      if ks[|ks| - 1].content != "" {
        assert r.db.knowledge[1..] == mid.db.knowledge;
        assert r.db.knowledge[WithContent(ks)..] == mid.db.knowledge[WithContent(front)..];
      }
    }
  }

  /** A project that already exists is reused, not created again, even when the
      transcript names it twice. */
  lemma RepeatedNewProjectCreatedOnce(db: Db, np: NewProject)
    requires np.name != "" && ProjectByName(db.projects, np.name).None?
    ensures FoldProjects(CommitState(db, map[], 0, 0, 0), [np, np]).projectsCreated == 1
  {
    var st0 := CommitState(db, map[], 0, 0, 0);
    assert [np, np][..1] == [np];
    assert [np][..0] == [];
    var st1 := ProjectStep(st0, np);
    assert FoldProjects(st0, [np]) == st1;
    assert st1.db.projects[0].name == np.name;
    assert ProjectByName(st1.db.projects, np.name).Some?;
  }
}
