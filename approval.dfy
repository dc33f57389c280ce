/** Edits to a pending transcript result (lib/agents/approval.ts, `applyEdits`).
    The operator's reply is turned into a list of edits by a language model; that
    list is an input here. Each edit names a 0-based task index (optional) and a
    new value (optional). */
module Approval {
  import opened Types
  import opened Sorting

  datatype EditKind = RemoveTask | UpdateTaskDescription | UpdateDeadline | ChangeProject | AddTask

  datatype Edit = Edit(kind: EditKind, taskIndex: Option<nat>, newValue: Option<string>)

  /** The sort key: the task index, an absent index counting as 0. */
  function EditKey(e: Edit): (k: real)
    ensures k >= 0.0
    ensures e.taskIndex.Some? ==> k == e.taskIndex.value as real
    ensures forall n: nat :: Targets(e, n) ==> k < n as real
  {
    if e.taskIndex.Some? then e.taskIndex.value as real else 0.0
  }

  /** Whether the edit's index names an entry of a list of length n. */
  predicate Targets(e: Edit, n: nat)
  {
    e.taskIndex.Some? && e.taskIndex.value < n
  }

  /** The task an `add_task` edit appends. */
  function AddedTask(description: string): TranscriptTask
  {
    TranscriptTask(description, None, None, None)
  }

  /** The effect of one edit on the task list. */
  function ApplyEdit(ts: seq<TranscriptTask>, e: Edit): (r: seq<TranscriptTask>)
    ensures e.kind == RemoveTask && Targets(e, |ts|) ==>
              r == ts[..e.taskIndex.value] + ts[e.taskIndex.value + 1..]
    ensures e.kind == AddTask && Present(e.newValue) ==> r == ts + [AddedTask(e.newValue.value)]
    ensures |r| == if e.kind == RemoveTask && Targets(e, |ts|) then |ts| - 1
                   else if e.kind == AddTask && Present(e.newValue) then |ts| + 1
                   else |ts|
    ensures e.kind != RemoveTask && e.kind != AddTask ==>
              forall j :: 0 <= j < |ts| && !(Targets(e, |ts|) && j == e.taskIndex.value) ==> r[j] == ts[j]
    ensures e.kind == UpdateTaskDescription && Targets(e, |ts|) ==>
              var k := e.taskIndex.value;
              r[k] == if Present(e.newValue) then ts[k].(description := e.newValue.value) else ts[k]
    ensures e.kind == UpdateDeadline && Targets(e, |ts|) ==>
              var k := e.taskIndex.value;
              r[k] == ts[k].(deadline := OrNull(e.newValue))
    ensures e.kind == ChangeProject && Targets(e, |ts|) ==>
              var k := e.taskIndex.value;
              r[k] == ts[k].(projectName := OrNull(e.newValue))
  {
    match e.kind
    case RemoveTask =>
      if Targets(e, |ts|) then ts[..e.taskIndex.value] + ts[e.taskIndex.value + 1..] else ts
    case UpdateTaskDescription =>
      if Targets(e, |ts|) && Present(e.newValue) then
        ts[e.taskIndex.value := ts[e.taskIndex.value].(description := e.newValue.value)]
      else ts
    case UpdateDeadline =>
      if Targets(e, |ts|) then ts[e.taskIndex.value := ts[e.taskIndex.value].(deadline := OrNull(e.newValue))] else ts
    case ChangeProject =>
      if Targets(e, |ts|) then ts[e.taskIndex.value := ts[e.taskIndex.value].(projectName := OrNull(e.newValue))] else ts
    case AddTask =>
      if Present(e.newValue) then ts + [AddedTask(e.newValue.value)] else ts
  }

  /** The edits applied one after another, in list order. */
  function ApplyAll(ts: seq<TranscriptTask>, es: seq<Edit>): seq<TranscriptTask>
  {
    if es == [] then ts else ApplyEdit(ApplyAll(ts, es[..|es| - 1]), es[|es| - 1])
  }

  /** Applying one more edit of a list. */
  lemma ApplyAllNext(ts: seq<TranscriptTask>, es: seq<Edit>, i: nat)
    requires i < |es|
    ensures ApplyAll(ts, es[..i + 1]) == ApplyEdit(ApplyAll(ts, es[..i]), es[i])
  {
    assert es[..i + 1][..i] == es[..i];
  }

  /** `applyEdits`: no edits returns the input itself; otherwise the edits, sorted by
      descending index (stable, absent = 0), are applied to a copy of the task list,
      and knowledge and new projects are carried over unchanged. */
  method ApplyEdits(result: TranscriptResult, edits: Option<seq<Edit>>) returns (updated: TranscriptResult)
    ensures edits.None? || edits.value == [] ==> updated == result
    ensures updated.knowledge == result.knowledge && updated.newProjects == result.newProjects
    ensures edits.Some? ==> updated.tasks == ApplyAll(result.tasks, SortDesc(edits.value, EditKey))
  {
    if edits.None? || |edits.value| == 0 {
      return result;
    }
    var tasks := result.tasks;
    var sorted := SortDesc(edits.value, EditKey);
    for i := 0 to |sorted|
      invariant tasks == ApplyAll(result.tasks, sorted[..i])
    {
      var edit := sorted[i];
      ghost var before := tasks;
      match edit.kind {
        case RemoveTask =>
          if edit.taskIndex.Some? && edit.taskIndex.value < |tasks| {
            var k := edit.taskIndex.value;
            tasks := tasks[..k] + tasks[k + 1..];
          }
        case UpdateTaskDescription =>
          if edit.taskIndex.Some? && edit.taskIndex.value < |tasks| && Present(edit.newValue) {
            var k := edit.taskIndex.value;
            tasks := tasks[k := tasks[k].(description := edit.newValue.value)];
          }
        case UpdateDeadline =>
          if edit.taskIndex.Some? && edit.taskIndex.value < |tasks| {
            var k := edit.taskIndex.value;
            tasks := tasks[k := tasks[k].(deadline := if Present(edit.newValue) then edit.newValue else None)];
          }
        case ChangeProject =>
          if edit.taskIndex.Some? && edit.taskIndex.value < |tasks| {
            var k := edit.taskIndex.value;
            tasks := tasks[k := tasks[k].(projectName := if Present(edit.newValue) then edit.newValue else None)];
          }
        case AddTask =>
          if Present(edit.newValue) {
            tasks := tasks + [TranscriptTask(edit.newValue.value, None, None, None)];
          }
      }
      assert tasks == ApplyEdit(before, edit);
      ApplyAllNext(result.tasks, sorted, i);
    }
    assert sorted[..|sorted|] == sorted;
    return TranscriptResult(tasks, result.knowledge, result.newProjects);
  }

  /** The applied order is non-increasing in index, and edits with the same index keep
      the order they were given in. */
  lemma AppliedOrder(edits: seq<Edit>, v: real)
    ensures SortedDesc(SortDesc(edits, EditKey), EditKey)
    ensures WithKey(SortDesc(edits, EditKey), EditKey, v) == WithKey(edits, EditKey, v)
    ensures multiset(SortDesc(edits, EditKey)) == multiset(edits)
  {
    SortDescSorted(edits, EditKey);
    SortDescStable(edits, EditKey, v);
  }

  predicate Neutral(e: Edit)
  {
    e.kind != AddTask && e.kind != RemoveTask
  }

  function Adds(es: seq<Edit>): nat
  {
    if es == [] then 0 else Adds(es[..|es| - 1]) + (if es[|es| - 1].kind == AddTask then 1 else 0)
  }

  function Removes(es: seq<Edit>): nat
  {
    if es == [] then 0 else Removes(es[..|es| - 1]) + (if es[|es| - 1].kind == RemoveTask then 1 else 0)
  }

  /** Only `add_task` grows the list, by one entry each, and only `remove_task`
      shrinks it, by at most one entry each. */
  lemma {:induction false} ApplyAllLength(ts: seq<TranscriptTask>, es: seq<Edit>)
    ensures |ts| - Removes(es) <= |ApplyAll(ts, es)| <= |ts| + Adds(es)
    ensures (forall k :: 0 <= k < |es| ==> Neutral(es[k])) ==> |ApplyAll(ts, es)| == |ts|
  {
    if es != [] {
      var init := es[..|es| - 1];
      ApplyAllLength(ts, init);
      assert forall k :: 0 <= k < |init| ==> init[k] == es[k];
    }
  }

  /** Why the edits run from the highest index down: removing entries i > j, given
      in either order, removes exactly the two entries the operator numbered. */
  lemma TwoRemovalsHitTheirTargets(ts: seq<TranscriptTask>, i: nat, j: nat)
    requires j < i < |ts|
    ensures ApplyAll(ts, SortDesc([Edit(RemoveTask, Some(j), None), Edit(RemoveTask, Some(i), None)], EditKey))
            == ts[..j] + ts[j + 1..i] + ts[i + 1..]
  {
    SortTwoRemovals(i, j);
    RemoveHighThenLow(ts, i, j);
  }

  lemma SortTwoRemovals(i: nat, j: nat)
    requires j < i
    ensures SortDesc([Edit(RemoveTask, Some(j), None), Edit(RemoveTask, Some(i), None)], EditKey)
            == [Edit(RemoveTask, Some(i), None), Edit(RemoveTask, Some(j), None)]
  {
    var ej := Edit(RemoveTask, Some(j), None);
    var ei := Edit(RemoveTask, Some(i), None);
    assert [ei][1..] == [];
    assert SortDesc([ei], EditKey) == Insert(ei, [], EditKey) == [ei];
    assert [ej, ei][1..] == [ei];
    assert Insert(ej, [ei], EditKey) == [ei] + Insert(ej, [], EditKey);
  }

  lemma RemoveHighThenLow(ts: seq<TranscriptTask>, i: nat, j: nat)
    requires j < i < |ts|
    ensures ApplyAll(ts, [Edit(RemoveTask, Some(i), None), Edit(RemoveTask, Some(j), None)])
            == ts[..j] + ts[j + 1..i] + ts[i + 1..]
  {
    var ej := Edit(RemoveTask, Some(j), None);
    var ei := Edit(RemoveTask, Some(i), None);
    ApplyTwo(ts, ei, ej);
    var once := ts[..i] + ts[i + 1..];
    assert ApplyEdit(ts, ei) == once;
    SliceAfterRemoval(ts, i, j);
  }

  lemma ApplyTwo(ts: seq<TranscriptTask>, e1: Edit, e2: Edit)
    ensures ApplyAll(ts, [e1, e2]) == ApplyEdit(ApplyEdit(ts, e1), e2)
  {
    assert [e1][..0] == [];
    assert ApplyAll(ts, [e1]) == ApplyEdit(ts, e1);
    assert [e1, e2][..1] == [e1];
  }

  lemma SliceAfterRemoval(ts: seq<TranscriptTask>, i: nat, j: nat)
    requires j < i < |ts|
    ensures var once := ts[..i] + ts[i + 1..];
            once[..j] + once[j + 1..] == ts[..j] + ts[j + 1..i] + ts[i + 1..]
  {
    var once := ts[..i] + ts[i + 1..];
    assert once[..j] == ts[..j];
    assert once[j + 1..] == ts[j + 1..i] + ts[i + 1..];
  }
}
