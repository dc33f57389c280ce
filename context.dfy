/** The short-term conversational memory (lib/utils/context.ts): which project and
    task are "current", and the five most recently mentioned ids of each kind. */
module Context {
  import opened Types
  import opened Strings

  const MaxRecent: nat := 5

  predicate NoDup(s: seq<Id>)
  {
    forall i, j :: 0 <= i < j < |s| ==> s[i] != s[j]
  }

  /** `slice(0, n)`. */
  function Take(s: seq<Id>, n: nat): (r: seq<Id>)
    ensures |r| <= n && r <= s
    ensures |s| <= n ==> r == s
  {
    if |s| <= n then s else s[..n]
  }

  lemma TakeNoDup(s: seq<Id>, n: nat)
    requires NoDup(s)
    ensures NoDup(Take(s, n))
  {
  }

  /** `createEmptyContext`. */
  function CreateEmptyContext(): (c: ActiveContext)
    ensures c.currentTaskId.None? && c.currentProjectId.None?
    ensures c.recentTasks == [] && c.recentProjects == []
  {
    ActiveContext(None, None, [], [])
  }

  /** `loadActiveContext`: the context saved with the conversation's last message,
      or an empty one when there is none. */
  function LoadActiveContext(last: Option<ActiveContext>): (c: ActiveContext)
    ensures last.Some? ==> c == last.value
    ensures last.None? ==> c.currentTaskId.None? && c.currentProjectId.None? && c.recentTasks == [] && c.recentProjects == []
  {
    if last.Some? then last.value else CreateEmptyContext()
  }

  // ---------------------------------------------------------------- merging

  /** The recency list after the merge loop's `unshift`s and before truncation: each
      id not yet listed goes to the front; a listed id stays where it is. */
  function PrependNew(list: seq<Id>, refs: seq<EntityRef>): seq<Id>
  {
    if refs == [] then list
    else
      var l := PrependNew(list, refs[..|refs| - 1]);
      var id := refs[|refs| - 1].id;
      if id in l then l else [id] + l
  }

  /** Some reference of refs carries this id. */
  predicate Mentions(refs: seq<EntityRef>, id: Id)
  {
    exists k | 0 <= k < |refs| :: refs[k].id == id
  }

  /** The merge loop only adds the new ids, at the front: the old list survives
      intact as a suffix (so an id already present keeps its place), and the list
      stays duplicate-free. */
  lemma {:induction false} PrependNewFacts(list: seq<Id>, refs: seq<EntityRef>)
    ensures |list| <= |PrependNew(list, refs)|
    ensures PrependNew(list, refs)[|PrependNew(list, refs)| - |list|..] == list
    ensures forall x :: x in PrependNew(list, refs) <==> x in list || Mentions(refs, x)
    ensures NoDup(list) ==> NoDup(PrependNew(list, refs))
  {
    if refs != [] {
      var init := refs[..|refs| - 1];
      PrependNewFacts(list, init);
      var l := PrependNew(list, init);
      var id := refs[|refs| - 1].id;
      forall x ensures Mentions(refs, x) <==> Mentions(init, x) || x == id {
        if Mentions(refs, x) {
          var k :| 0 <= k < |refs| && refs[k].id == x;
          if k < |init| {
            assert init[k] == refs[k];
          }
        }
        if Mentions(init, x) {
          var k :| 0 <= k < |init| && init[k].id == x;
          assert refs[k] == init[k];
        }
      }
      if id !in l {
        var r := [id] + l;
        assert r[|r| - |list|..] == l[|l| - |list|..];
        if NoDup(l) {
          forall i, j | 0 <= i < j < |r| ensures r[i] != r[j] {
            if i == 0 {
              assert r[j] == l[j - 1];
            }
          }
        }
      }
    }
  }

  /** The id of the last reference, or the given current id when there is none. */
  function LastId(refs: seq<EntityRef>, current: Option<Id>): Option<Id>
  {
    if refs == [] then current else Some(refs[|refs| - 1].id)
  }

  /** The context `mergeContext` returns. */
  function Merged(existing: ActiveContext, found: ResolvedEntities): ActiveContext
  {
    ActiveContext(
      LastId(found.tasks, existing.currentTaskId),
      LastId(found.projects, existing.currentProjectId),
      Take(PrependNew(existing.recentTasks, found.tasks), MaxRecent),
      Take(PrependNew(existing.recentProjects, found.projects), MaxRecent))
  }

  /** `mergeContext`: copies the lists, `unshift`s each new id, makes the last
      mentioned entity of each kind current, and keeps the first five ids. */
  method MergeContext(existing: ActiveContext, found: ResolvedEntities) returns (updated: ActiveContext)
    ensures updated == Merged(existing, found)
    ensures |updated.recentProjects| <= MaxRecent && |updated.recentTasks| <= MaxRecent
    ensures updated.currentProjectId ==
              if found.projects == [] then existing.currentProjectId else Some(found.projects[|found.projects| - 1].id)
    ensures updated.currentTaskId ==
              if found.tasks == [] then existing.currentTaskId else Some(found.tasks[|found.tasks| - 1].id)
  {
    var projects := existing.recentProjects;
    var tasks := existing.recentTasks;
    var currentProject := existing.currentProjectId;
    var currentTask := existing.currentTaskId;
    for i := 0 to |found.projects|
      invariant projects == PrependNew(existing.recentProjects, found.projects[..i])
      invariant currentProject == LastId(found.projects[..i], existing.currentProjectId)
    {
      assert found.projects[..i + 1][..i] == found.projects[..i];
      var id := found.projects[i].id;
      if id !in projects {
        projects := [id] + projects;
      }
      currentProject := Some(id);
    }
    for i := 0 to |found.tasks|
      invariant tasks == PrependNew(existing.recentTasks, found.tasks[..i])
      invariant currentTask == LastId(found.tasks[..i], existing.currentTaskId)
    {
      assert found.tasks[..i + 1][..i] == found.tasks[..i];
      var id := found.tasks[i].id;
      if id !in tasks {
        tasks := [id] + tasks;
      }
      currentTask := Some(id);
    }
    assert found.projects[..|found.projects|] == found.projects;
    assert found.tasks[..|found.tasks|] == found.tasks;
    updated := ActiveContext(currentTask, currentProject, Take(tasks, MaxRecent), Take(projects, MaxRecent));
  }

  /** Merging keeps both recency lists duplicate-free, and every listed id is
      an old one or a newly mentioned one. */
  lemma MergedLists(existing: ActiveContext, found: ResolvedEntities)
    requires NoDup(existing.recentProjects) && NoDup(existing.recentTasks)
    ensures NoDup(Merged(existing, found).recentProjects) && NoDup(Merged(existing, found).recentTasks)
    ensures forall x :: x in Merged(existing, found).recentProjects ==> x in existing.recentProjects || Mentions(found.projects, x)
    ensures forall x :: x in Merged(existing, found).recentTasks ==> x in existing.recentTasks || Mentions(found.tasks, x)
  {
    PrependNewFacts(existing.recentProjects, found.projects);
    PrependNewFacts(existing.recentTasks, found.tasks);
  }

  /** With nothing new, a merge only truncates the lists to five. */
  lemma MergeNothing(existing: ActiveContext)
    ensures Merged(existing, ResolvedEntities([], [])) ==
              existing.(recentTasks := Take(existing.recentTasks, MaxRecent),
                        recentProjects := Take(existing.recentProjects, MaxRecent))
  {
  }

  /** A re-mentioned project becomes current without moving to the front of the
      recency list, so "current" and "most recent" can disagree. */
  lemma RementionedIdStaysInPlace()
    ensures var ctx := ActiveContext(None, None, [], ["p1", "p2"]);
            var m := Merged(ctx, ResolvedEntities([EntityRef("Chen deck", "p2")], []));
            m.currentProjectId == Some("p2") && m.recentProjects == ["p1", "p2"]
  {
    var refs := [EntityRef("Chen deck", "p2")];
    assert refs[..0] == [];
    assert "p2" in ["p1", "p2"];
    assert PrependNew(["p1", "p2"], refs) == ["p1", "p2"];
  }

  // ---------------------------------------------------------------- creation helpers

  /** The list without id, in order. */
  function Remove(s: seq<Id>, id: Id): (r: seq<Id>)
    ensures forall x :: x in r <==> x in s && x != id
    ensures |r| <= |s|
    ensures id !in s ==> r == s
    ensures NoDup(s) ==> NoDup(r)
  {
    if s == [] then []
    else
      assert NoDup(s) ==> NoDup(s[1..]) && s[0] !in s[1..];
      var rest := Remove(s[1..], id);
      if s[0] == id then rest
      else
        var r := [s[0]] + rest;
        assert forall j :: 0 < j < |r| ==> r[j] == rest[j - 1];
        assert forall j :: 0 < j < |r| ==> r[j] in rest;
        r
  }

  /** Filtering distributes over concatenation. */
  lemma {:induction false} RemoveAppend(a: seq<Id>, b: seq<Id>, id: Id)
    ensures Remove(a + b, id) == Remove(a, id) + Remove(b, id)
  {
    if a == [] {
      assert a + b == b;
    } else {
      assert (a + b)[0] == a[0];
      assert (a + b)[1..] == a[1..] + b;
      RemoveAppend(a[1..], b, id);
    }
  }

  /** In a duplicate-free list, removing an id present at offset k closes the gap
      and leaves every other id in its order. */
  lemma RemoveAt(s: seq<Id>, k: nat)
    requires NoDup(s) && k < |s|
    ensures Remove(s, s[k]) == s[..k] + s[k + 1..]
  {
    OnlyAt(s, k);
    RemoveBetween(s[..k], s[k], s[k + 1..]);
  }

  /** Removing an id that occurs once, between two lists without it. */
  lemma RemoveBetween(front: seq<Id>, id: Id, back: seq<Id>)
    requires id !in front && id !in back
    ensures Remove(front + [id] + back, id) == front + back
  {
    calc {
      Remove(front + [id] + back, id);
      { assert front + [id] + back == front + ([id] + back); }
      Remove(front + ([id] + back), id);
      { RemoveAppend(front, [id] + back, id); }
      Remove(front, id) + Remove([id] + back, id);
      { assert ([id] + back)[0] == id && ([id] + back)[1..] == back; }
      front + back;
    }
  }

  /** In a duplicate-free list the id at offset k occurs nowhere else. */
  lemma OnlyAt(s: seq<Id>, k: nat)
    requires NoDup(s) && k < |s|
    ensures s[k] !in s[..k] && s[k] !in s[k + 1..]
    ensures s == s[..k] + [s[k]] + s[k + 1..]
  {
    var front := s[..k];
    forall j | 0 <= j < k ensures front[j] != s[k] {
      assert front[j] == s[j];
    }
    var back := s[k + 1..];
    forall j | 0 <= j < |back| ensures back[j] != s[k] {
      assert back[j] == s[k + 1 + j];
    }
  }

  /** `[id, ...list.filter(x => x !== id)].slice(0, 5)`: the id heads the list and
      the other ids follow in their old order, up to five in all. */
  function MoveToFront(list: seq<Id>, id: Id): (r: seq<Id>)
    ensures 1 <= |r| <= MaxRecent && r[0] == id
    ensures id !in r[1..]
    ensures r[1..] <= Remove(list, id)
    ensures |r| == if 1 + |Remove(list, id)| < MaxRecent then 1 + |Remove(list, id)| else MaxRecent
    ensures forall x :: x in r ==> x == id || x in list
    ensures NoDup(list) ==> NoDup(r)
  {
    var rest := Remove(list, id);
    var full := [id] + rest;
    assert full[1..] == rest;
    var r := Take(full, MaxRecent);
    assert r[1..] <= rest;
    assert forall x :: x in r[1..] ==> x in rest;
    assert forall x :: x in r ==> x in full;
    r
  }

  /** Moving an id to the front of a duplicate-free list: a newcomer pushes the
      others back, a listed id leaves its place and the rest keep their order. */
  lemma MoveToFrontOrder(list: seq<Id>, id: Id)
    requires NoDup(list)
    ensures id !in list ==> MoveToFront(list, id) == Take([id] + list, MaxRecent)
    ensures forall k :: 0 <= k < |list| && list[k] == id ==>
              MoveToFront(list, id) == Take([id] + list[..k] + list[k + 1..], MaxRecent)
  {
    forall k | 0 <= k < |list| && list[k] == id
      ensures MoveToFront(list, id) == Take([id] + list[..k] + list[k + 1..], MaxRecent)
    {
      RemoveAt(list, k);
      assert [id] + list[..k] + list[k + 1..] == [id] + (list[..k] + list[k + 1..]);
    }
  }

  /** `updateContextWithNewTask`: the task becomes current and heads the task list
      exactly once; the project side is untouched. */
  function UpdateContextWithNewTask(existing: ActiveContext, taskId: Id): (r: ActiveContext)
    ensures r.currentTaskId == Some(taskId)
    ensures 1 <= |r.recentTasks| <= MaxRecent && r.recentTasks[0] == taskId && taskId !in r.recentTasks[1..]
    ensures forall x :: x in r.recentTasks ==> x == taskId || x in existing.recentTasks
    ensures r.recentTasks == MoveToFront(existing.recentTasks, taskId)
    ensures r.currentProjectId == existing.currentProjectId && r.recentProjects == existing.recentProjects
  {
    existing.(currentTaskId := Some(taskId), recentTasks := MoveToFront(existing.recentTasks, taskId))
  }

  /** `updateContextWithNewProject`: the mirror image for projects. */
  function UpdateContextWithNewProject(existing: ActiveContext, projectId: Id): (r: ActiveContext)
    ensures r.currentProjectId == Some(projectId)
    ensures 1 <= |r.recentProjects| <= MaxRecent && r.recentProjects[0] == projectId
    ensures projectId !in r.recentProjects[1..]
    ensures forall x :: x in r.recentProjects ==> x == projectId || x in existing.recentProjects
    ensures r.recentProjects == MoveToFront(existing.recentProjects, projectId)
    ensures r.currentTaskId == existing.currentTaskId && r.recentTasks == existing.recentTasks
  {
    existing.(currentProjectId := Some(projectId), recentProjects := MoveToFront(existing.recentProjects, projectId))
  }

  /** `clearCurrentEntities`: forgets both current ids and keeps the lists. */
  function ClearCurrentEntities(existing: ActiveContext): (r: ActiveContext)
    ensures r.currentTaskId.None? && r.currentProjectId.None?
    ensures r.recentTasks == existing.recentTasks && r.recentProjects == existing.recentProjects
  {
    existing.(currentTaskId := None, currentProjectId := None)
  }

  /** `detectTopicChange`: deliberately conservative, it never reports a change. */
  function DetectTopicChange(previous: seq<Message>, newMessage: string): (changed: bool)
    ensures !changed
  {
    false
  }

  // ---------------------------------------------------------------- summary

  const NoContext: string := "No active context."

  /** Nothing worth summarising: both current ids falsy and both lists empty. */
  predicate IsBlank(ctx: ActiveContext)
  {
    !Present(ctx.currentProjectId) && !Present(ctx.currentTaskId) && ctx.recentProjects == [] && ctx.recentTasks == []
  }

  /** The summary's lines: the current project, the current task, the recent
      projects and the recent tasks, in that order, each only when it has something
      to show. */
  function SummaryLines(ctx: ActiveContext): (lines: seq<string>)
    ensures lines == [] <==> IsBlank(ctx)
    ensures |lines| <= 4
    ensures forall k :: 0 <= k < |lines| ==> lines[k] != []
  {
    (if Present(ctx.currentProjectId) then ["Current project: " + ctx.currentProjectId.value] else []) +
    (if Present(ctx.currentTaskId) then ["Current task: " + ctx.currentTaskId.value] else []) +
    (if |ctx.recentProjects| > 0 then ["Recently mentioned projects: " + Join(ctx.recentProjects, ", ")] else []) +
    (if |ctx.recentTasks| > 0 then ["Recently mentioned tasks: " + Join(ctx.recentTasks, ", ")] else [])
  }

  /** `buildContextSummary`: the summary lines joined by newlines, or the fixed
      sentence when there are none. */
  method BuildContextSummary(ctx: ActiveContext) returns (summary: string)
    ensures summary == NoContext <==> IsBlank(ctx)
    ensures !IsBlank(ctx) ==> summary == Join(SummaryLines(ctx), "\n")
    ensures Present(ctx.currentProjectId) ==> StartsWith(summary, "Current project: " + ctx.currentProjectId.value)
    ensures !Present(ctx.currentProjectId) && Present(ctx.currentTaskId) ==>
              StartsWith(summary, "Current task: " + ctx.currentTaskId.value)
  {
    var parts: seq<string> := [];
    if Present(ctx.currentProjectId) {
      parts := parts + ["Current project: " + ctx.currentProjectId.value];
    }
    if Present(ctx.currentTaskId) {
      parts := parts + ["Current task: " + ctx.currentTaskId.value];
    }
    if |ctx.recentProjects| > 0 {
      parts := parts + ["Recently mentioned projects: " + Join(ctx.recentProjects, ", ")];
    }
    if |ctx.recentTasks| > 0 {
      parts := parts + ["Recently mentioned tasks: " + Join(ctx.recentTasks, ", ")];
    }
    assert parts == SummaryLines(ctx);
    if |parts| > 0 {
      summary := Join(parts, "\n");
      JoinStartsWithFirst(parts, "\n");
      assert summary[0] == parts[0][0];
      assert parts[0][0] == 'C' || parts[0][0] == 'R';
    } else {
      summary := NoContext;
    }
  }

  predicate NoBreak(s: string)
  {
    '\n' !in s
  }

  /** When no id contains a line break, the summary splits back into exactly its
      lines, in the order they were pushed. */
  lemma SummaryReadsBack(ctx: ActiveContext)
    requires !IsBlank(ctx)
    requires ctx.currentProjectId.Some? ==> NoBreak(ctx.currentProjectId.value)
    requires ctx.currentTaskId.Some? ==> NoBreak(ctx.currentTaskId.value)
    requires forall k :: 0 <= k < |ctx.recentProjects| ==> NoBreak(ctx.recentProjects[k])
    requires forall k :: 0 <= k < |ctx.recentTasks| ==> NoBreak(ctx.recentTasks[k])
    ensures Split(Join(SummaryLines(ctx), "\n"), '\n') == SummaryLines(ctx)
  {
    var lines := SummaryLines(ctx);
    if Present(ctx.currentProjectId) {
      NotInAppend("Current project: ", ctx.currentProjectId.value, '\n');
    }
    if Present(ctx.currentTaskId) {
      NotInAppend("Current task: ", ctx.currentTaskId.value, '\n');
    }
    JoinAvoids(ctx.recentProjects, ", ", '\n');
    JoinAvoids(ctx.recentTasks, ", ", '\n');
    NotInAppend("Recently mentioned projects: ", Join(ctx.recentProjects, ", "), '\n');
    NotInAppend("Recently mentioned tasks: ", Join(ctx.recentTasks, ", "), '\n');
    assert forall x :: x in lines ==> NoBreak(x);
    SplitJoin(lines, '\n');
  }
}
