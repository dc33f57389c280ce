/** Fuzzy resolution of the project and task names a user mentions
    (lib/utils/entity-resolver.ts): an edit distance, a tiered similarity score,
    a threshold-and-sort ranker, a recency boost, a three-tier selection rule,
    a shortcut for pronouns such as "that project", and the de-duplicating
    resolution of every reference the router extracted. */
module EntityResolver {
  import opened Types
  import opened Strings
  import opened Sorting
  import Store

  // ---------------------------------------------------------------- edit distance

  function Min3(x: nat, y: nat, z: nat): (r: nat)
    ensures r <= x && r <= y && r <= z
    ensures r == x || r == y || r == z
  {
    if x <= y && x <= z then x else if y <= z then y else z
  }

  function Max(x: nat, y: nat): nat
  {
    if x >= y then x else y
  }

  /** The matrix entry the source computes for the first i characters of b and the
      first j characters of a (row i, column j). */
  function Lev(a: string, b: string, i: nat, j: nat): nat
    requires i <= |b| && j <= |a|
    decreases i + j
  {
    if i == 0 then j
    else if j == 0 then i
    else if b[i - 1] == a[j - 1] then Lev(a, b, i - 1, j - 1)
    else Min3(Lev(a, b, i - 1, j - 1) + 1, Lev(a, b, i, j - 1) + 1, Lev(a, b, i - 1, j) + 1)
  }

  /** `levenshteinDistance(a, b)`: the bottom-right corner of the matrix. */
  function EditDistance(a: string, b: string): nat
  {
    Lev(a, b, |b|, |a|)
  }

  lemma {:induction false} LevSelf(a: string, i: nat)
    requires i <= |a|
    ensures Lev(a, a, i, i) == 0
  {
    if i > 0 {
      LevSelf(a, i - 1);
    }
  }

  lemma {:induction false} LevUpper(a: string, b: string, i: nat, j: nat)
    requires i <= |b| && j <= |a|
    ensures Lev(a, b, i, j) <= Max(i, j)
    decreases i + j
  {
    if i > 0 && j > 0 {
      LevUpper(a, b, i - 1, j - 1);
    }
  }

  lemma {:induction false} LevLower(a: string, b: string, i: nat, j: nat)
    requires i <= |b| && j <= |a|
    ensures Lev(a, b, i, j) >= i - j && Lev(a, b, i, j) >= j - i
    decreases i + j
  {
    if i > 0 && j > 0 {
      LevLower(a, b, i - 1, j - 1);
      LevLower(a, b, i, j - 1);
      LevLower(a, b, i - 1, j);
    }
  }

  lemma {:induction false} LevZero(a: string, b: string, i: nat, j: nat)
    requires i <= |b| && j <= |a|
    requires Lev(a, b, i, j) == 0
    ensures i == j && a[..j] == b[..i]
    decreases i + j
  {
    if i > 0 && j > 0 {
      if b[i - 1] == a[j - 1] {
        LevZero(a, b, i - 1, j - 1);
        assert a[..j] == a[..j - 1] + [a[j - 1]];
        assert b[..i] == b[..i - 1] + [b[i - 1]];
      }
    }
  }

  /** The distance is a metric-like measure: zero exactly on equal strings, at most
      the longer length, at least the length difference, and the length of a
      against the empty string. */
  lemma EditDistanceBounds(a: string, b: string)
    ensures EditDistance(a, b) == 0 <==> a == b
    ensures EditDistance(a, b) <= Max(|a|, |b|)
    ensures EditDistance(a, b) >= |a| - |b| && EditDistance(a, b) >= |b| - |a|
    ensures EditDistance(a, "") == |a|
  {
    LevUpper(a, b, |b|, |a|);
    LevLower(a, b, |b|, |a|);
    if EditDistance(a, b) == 0 {
      LevZero(a, b, |b|, |a|);
      assert a == a[..|a|] && b == b[..|b|];
    }
    if a == b {
      LevSelf(a, |a|);
    }
  }

  /** `levenshteinDistance`: the source fills a (|b|+1) x (|a|+1) matrix row by row. */
  method LevenshteinDistance(a: string, b: string) returns (d: nat)
    ensures d == EditDistance(a, b)
  {
    var m := new nat[|b| + 1, |a| + 1];
    var i := 0;
    while i <= |b|
      invariant 0 <= i <= |b| + 1
      invariant forall x :: 0 <= x < i ==> m[x, 0] == x
    {
      m[i, 0] := i;
      i := i + 1;
    }
    var j := 0;
    while j <= |a|
      invariant 0 <= j <= |a| + 1
      invariant forall y :: 0 <= y < j ==> m[0, y] == y
      invariant forall x :: 0 <= x <= |b| ==> m[x, 0] == x
    {
      m[0, j] := j;
      j := j + 1;
    }
    i := 1;
    while i <= |b|
      invariant 1 <= i <= |b| + 1
      invariant forall x, y {:trigger m[x, y]} :: 0 <= x < i && 0 <= y <= |a| ==> m[x, y] == Lev(a, b, x, y)
      invariant forall x :: i <= x <= |b| ==> m[x, 0] == x
    {
      FillRow(a, b, m, i);
      i := i + 1;
    }
    d := m[|b|, |a|];
  }

  /** The inner loop: row i from the row above it, left to right. */
  method FillRow(a: string, b: string, m: array2<nat>, i: nat)
    requires m.Length0 == |b| + 1 && m.Length1 == |a| + 1
    requires 1 <= i <= |b|
    requires forall x, y {:trigger m[x, y]} :: 0 <= x < i && 0 <= y <= |a| ==> m[x, y] == Lev(a, b, x, y)
    requires m[i, 0] == i
    requires forall x :: i < x <= |b| ==> m[x, 0] == x
    modifies m
    ensures forall x, y {:trigger m[x, y]} :: 0 <= x <= i && 0 <= y <= |a| ==> m[x, y] == Lev(a, b, x, y)
    ensures forall x :: i < x <= |b| ==> m[x, 0] == x
  {
    var j := 1;
    while j <= |a|
      invariant 1 <= j <= |a| + 1
      invariant forall x, y {:trigger m[x, y]} :: 0 <= x < i && 0 <= y <= |a| ==> m[x, y] == Lev(a, b, x, y)
      invariant forall y {:trigger m[i, y]} :: 0 <= y < j ==> m[i, y] == Lev(a, b, i, y)
      invariant forall x :: i < x <= |b| ==> m[x, 0] == x
    {
      var v: nat;
      if b[i - 1] == a[j - 1] {
        v := m[i - 1, j - 1];
      } else {
        v := Min3(m[i - 1, j - 1] + 1, m[i, j - 1] + 1, m[i - 1, j] + 1);
      }
      assert v == Lev(a, b, i, j);
      m[i, j] := v;
      j := j + 1;
    }
  }

  // ---------------------------------------------------------------- similarity

  /** `1 - distance / maxLen`, reached only with two different strings. */
  function LevenSimilarity(q: string, c: string): (r: real)
    requires q != c
    ensures 0.0 <= r < 1.0
  {
    EditDistanceBounds(q, c);
    assert Max(|q|, |c|) > 0;
    RatioBounds(EditDistance(q, c), Max(|q|, |c|));
    1.0 - (EditDistance(q, c) as real) / (Max(|q|, |c|) as real)
  }

  lemma RatioBounds(d: nat, n: nat)
    requires 0 < d <= n
    ensures 0.0 < (d as real) / (n as real) <= 1.0
  {
  }

  /** `similarityScore`: 1 for case-insensitively equal strings, 0.9 when the
      candidate contains the query, 0.85 when the query contains the candidate,
      otherwise the normalised edit similarity, which is below 1. */
  function SimilarityScore(query: string, candidate: string): (r: real)
    ensures 0.0 <= r <= 1.0
    ensures r == 1.0 <==> Lower(query) == Lower(candidate)
    ensures Lower(query) != Lower(candidate) && Contains(Lower(candidate), Lower(query)) ==> r == 0.9
    ensures (Lower(query) != Lower(candidate) && !Contains(Lower(candidate), Lower(query))
             && Contains(Lower(query), Lower(candidate))) ==> r == 0.85
  {
    var q := Lower(query);
    var c := Lower(candidate);
    if q == c then 1.0
    else if Contains(c, q) then 0.9
    else if Contains(q, c) then 0.85
    else LevenSimilarity(q, c)
  }

  /** The empty query is contained in every label, so it scores 0.9 against any
      non-empty one; the edit-distance branch is never reached with it. */
  lemma EmptyQueryScore(candidate: string)
    requires candidate != ""
    ensures SimilarityScore("", candidate) == 0.9
  {
    assert Lower("") == "";
    assert Lower(candidate) != "" by {
      assert |Lower(candidate)| == |candidate|;
    }
    ContainsEmpty(Lower(candidate));
  }

  // ---------------------------------------------------------------- entities

  datatype Kind = ProjectKind | TaskKind

  /** A candidate row of either table. */
  datatype Entity = ProjectEntity(project: Project) | TaskEntity(task: Task)

  function EntityId(e: Entity): Id
  {
    match e
    case ProjectEntity(p) => p.id
    case TaskEntity(t) => t.id
  }

  /** The label matched against: a project's name, a task's description. */
  function Label(e: Entity): string
  {
    match e
    case ProjectEntity(p) => p.name
    case TaskEntity(t) => t.description
  }

  function KindOf(e: Entity): Kind
  {
    match e
    case ProjectEntity(_) => ProjectKind
    case TaskEntity(_) => TaskKind
  }

  function ProjectEntities(ps: seq<Project>): (r: seq<Entity>)
    ensures |r| == |ps| && forall k :: 0 <= k < |ps| ==> r[k] == ProjectEntity(ps[k])
  {
    seq(|ps|, k requires 0 <= k < |ps| => ProjectEntity(ps[k]))
  }

  function TaskEntities(ts: seq<Task>): (r: seq<Entity>)
    ensures |r| == |ts| && forall k :: 0 <= k < |ts| ==> r[k] == TaskEntity(ts[k])
  {
    seq(|ts|, k requires 0 <= k < |ts| => TaskEntity(ts[k]))
  }

  // ---------------------------------------------------------------- ranking

  datatype Match = Match(item: Entity, score: real)

  function ScoreOf(m: Match): real
  {
    m.score
  }

  function Items(ms: seq<Match>): (r: seq<Entity>)
    ensures |r| == |ms| && forall k :: 0 <= k < |ms| ==> r[k] == ms[k].item
  {
    seq(|ms|, k requires 0 <= k < |ms| => ms[k].item)
  }

  /** The candidates scoring at least the threshold, with their scores, in input order. */
  function Scored(query: string, cands: seq<Entity>, threshold: real): (r: seq<Match>)
    ensures forall m :: m in r ==> m.item in cands && m.score == SimilarityScore(query, Label(m.item))
                                   && m.score >= threshold
    ensures forall e :: e in cands && SimilarityScore(query, Label(e)) >= threshold
                        ==> Match(e, SimilarityScore(query, Label(e))) in r
  {
    if cands == [] then []
    else
      var init := cands[..|cands| - 1];
      var e := cands[|cands| - 1];
      assert cands == init + [e];
      var s := SimilarityScore(query, Label(e));
      Scored(query, init, threshold) + (if s >= threshold then [Match(e, s)] else [])
  }

  /** `findBestMatches`: the candidates at or above the threshold, best first,
      candidates with equal scores in input order. */
  method FindBestMatches(query: string, candidates: seq<Entity>, threshold: real) returns (matches: seq<Match>)
    ensures matches == SortDesc(Scored(query, candidates, threshold), ScoreOf)
    ensures SortedDesc(matches, ScoreOf)
    ensures forall m :: m in matches <==> m in Scored(query, candidates, threshold)
    ensures forall v :: WithKey(matches, ScoreOf, v) == WithKey(Scored(query, candidates, threshold), ScoreOf, v)
  {
    matches := [];
    for i := 0 to |candidates|
      invariant matches == Scored(query, candidates[..i], threshold)
    {
      assert candidates[..i + 1][..i] == candidates[..i];
      var score := SimilarityScore(query, Label(candidates[i]));
      if score >= threshold {
        matches := matches + [Match(candidates[i], score)];
      }
    }
    assert candidates[..|candidates|] == candidates;
    ghost var found := matches;
    matches := SortDesc(matches, ScoreOf);
    SortDescSorted(found, ScoreOf);
    forall v | true
      ensures WithKey(matches, ScoreOf, v) == WithKey(found, ScoreOf, v)
    {
      SortDescStable(found, ScoreOf, v);
    }
    assert forall m :: m in matches <==> m in multiset(found);
  }

  /** The boost the resolvers apply in place: +0.2 for a recently mentioned id. */
  function Bump(m: Match, recent: seq<Id>): Match
  {
    if EntityId(m.item) in recent then Match(m.item, m.score + 0.2) else m
  }

  function Boosted(ms: seq<Match>, recent: seq<Id>): (r: seq<Match>)
    ensures |r| == |ms|
  {
    seq(|ms|, k requires 0 <= k < |ms| => Bump(ms[k], recent))
  }

  /** The loop that raises the score of each recently mentioned match by exactly 0.2
      (no clamping) and leaves every other score and every item as it was. */
  method BoostRecent(ms: seq<Match>, recent: seq<Id>) returns (r: seq<Match>)
    ensures r == Boosted(ms, recent)
    ensures |r| == |ms|
    ensures forall k :: 0 <= k < |ms| ==> r[k].item == ms[k].item
    ensures forall k :: 0 <= k < |ms| ==>
              r[k].score == ms[k].score + (if EntityId(ms[k].item) in recent then 0.2 else 0.0)
  {
    r := ms;
    for i := 0 to |ms|
      invariant |r| == |ms|
      invariant forall k :: 0 <= k < i ==> r[k] == Bump(ms[k], recent)
      invariant forall k :: i <= k < |ms| ==> r[k] == ms[k]
    {
      if EntityId(r[i].item) in recent {
        r := r[i := Match(r[i].item, r[i].score + 0.2)];
      }
    }
  }

  /** The three-tier selection: nothing without matches; the top match alone when it
      scores at least 0.9, is the only one, or leads the second by more than 0.2;
      otherwise the first three, for disambiguation. */
  function Select(ms: seq<Match>): (r: seq<Entity>)
    ensures |r| <= 3 && |r| <= |ms|
    ensures forall k :: 0 <= k < |r| ==> r[k] == ms[k].item
    ensures |ms| > 0 ==> |r| >= 1
    ensures |r| > 1 <==> |ms| > 1 && ms[0].score < 0.9 && ms[0].score - ms[1].score <= 0.2
    ensures |r| > 1 ==> |r| == if |ms| < 3 then |ms| else 3
  {
    if |ms| == 0 then []
    else if ms[0].score >= 0.9 then [ms[0].item]
    else if |ms| == 1 || ms[0].score - ms[1].score > 0.2 then [ms[0].item]
    else Items(ms[..if |ms| < 3 then |ms| else 3])
  }

  // ---------------------------------------------------------------- contextual references

  const ProjectPhrases: seq<string> := ["that project", "this project", "the project", "it"]
  const TaskPhrases: seq<string> := ["that task", "this task", "the task", "it", "that", "this one"]

  function Phrases(kind: Kind): seq<string>
  {
    if kind == ProjectKind then ProjectPhrases else TaskPhrases
  }

  /** The lower-cased reference contains one of the phrases as a raw substring. */
  predicate IsContextual(reference: string, phrases: seq<string>)
  {
    exists k | 0 <= k < |phrases| :: Contains(Lower(reference), phrases[k])
  }

  /** "it" hides inside ordinary names: "Smith" is read as a pronoun. */
  lemma SmithIsContextual()
    ensures IsContextual("Smith", ProjectPhrases)
    ensures IsContextual("Smith", TaskPhrases)
  {
    assert Lower("Smith") == "smith";
    assert OccursAt("smith", "it", 2);
    assert ProjectPhrases[3] == "it" && TaskPhrases[3] == "it";
  }

  function CurrentId(ctx: ActiveContext, kind: Kind): Option<Id>
  {
    if kind == ProjectKind then ctx.currentProjectId else ctx.currentTaskId
  }

  function RecentIds(ctx: ActiveContext, kind: Kind): seq<Id>
  {
    if kind == ProjectKind then ctx.recentProjects else ctx.recentTasks
  }

  /** `getProjectById` / `getTaskById` as an entity of the requested kind. */
  function Lookup(db: Store.Db, kind: Kind, id: Id): (r: Option<Entity>)
    ensures r.Some? ==> KindOf(r.value) == kind && EntityId(r.value) == id
  {
    match kind
    case ProjectKind =>
      (match Store.ProjectById(db.projects, id)
       case Some(p) => Some(ProjectEntity(p))
       case None => None)
    case TaskKind =>
      (match Store.TaskById(db.tasks, id)
       case Some(t) => Some(TaskEntity(t))
       case None => None)
  }

  /** The first of the ids that resolves to a row. */
  function FirstFound(db: Store.Db, kind: Kind, ids: seq<Id>): (r: Option<Entity>)
    ensures r.None? <==> forall k :: 0 <= k < |ids| ==> Lookup(db, kind, ids[k]).None?
  {
    if ids == [] then None
    else if Lookup(db, kind, ids[0]).Some? then Lookup(db, kind, ids[0])
    else
      var r := FirstFound(db, kind, ids[1..]);
      assert forall k :: 1 <= k < |ids| ==> ids[k] == ids[1..][k - 1];
      r
  }

  lemma {:induction false} FirstFoundAt(db: Store.Db, kind: Kind, ids: seq<Id>, i: nat)
    requires i < |ids| && Lookup(db, kind, ids[i]).Some?
    requires forall k :: 0 <= k < i ==> Lookup(db, kind, ids[k]).None?
    ensures FirstFound(db, kind, ids) == Lookup(db, kind, ids[i])
  {
    if i > 0 {
      FirstFoundAt(db, kind, ids[1..], i - 1);
    }
  }

  /** The pronoun path: the current id if it resolves, else the first resolvable
      recently mentioned id, else nothing. */
  function ContextualPick(db: Store.Db, kind: Kind, ctx: ActiveContext): (r: seq<Entity>)
    ensures |r| <= 1
  {
    var current := CurrentId(ctx, kind);
    if Present(current) && Lookup(db, kind, current.value).Some? then [Lookup(db, kind, current.value).value]
    else
      match FirstFound(db, kind, RecentIds(ctx, kind))
      case Some(e) => [e]
      case None => []
  }

  /** The source's early-return walk over the current id and then the recency list. */
  method ResolveContextual(db: Store.Db, kind: Kind, ctx: ActiveContext) returns (r: seq<Entity>)
    ensures r == ContextualPick(db, kind, ctx)
    ensures |r| <= 1
    ensures forall e :: e in r ==> KindOf(e) == kind
  {
    var current := CurrentId(ctx, kind);
    if Present(current) {
      var found := Lookup(db, kind, current.value);
      if found.Some? {
        return [found.value];
      }
    }
    var ids := RecentIds(ctx, kind);
    for i := 0 to |ids|
      invariant forall k :: 0 <= k < i ==> Lookup(db, kind, ids[k]).None?
    {
      var found := Lookup(db, kind, ids[i]);
      if found.Some? {
        FirstFoundAt(db, kind, ids, i);
        return [found.value];
      }
    }
    return [];
  }

  // ---------------------------------------------------------------- one reference

  /** The candidates a reference is matched against: every project (newest update
      first), or every open task (newest first), narrowed to one project's tasks
      when a project id is given and non-empty. */
  function Candidates(db: Store.Db, kind: Kind, projectFilter: Option<Id>): seq<Entity>
  {
    if kind == ProjectKind then ProjectEntities(db.projects)
    else if Present(projectFilter) then TaskEntities(Store.TasksOfProject(db.tasks, projectFilter.value))
    else TaskEntities(Store.OpenTasks(db.tasks))
  }

  const Threshold: real := 0.4

  /** Matches at or above 0.4, boosted by recency and sorted again. */
  function Ranked(db: Store.Db, kind: Kind, reference: string, ctx: ActiveContext, projectFilter: Option<Id>): seq<Match>
  {
    var matches := SortDesc(Scored(reference, Candidates(db, kind, projectFilter), Threshold), ScoreOf);
    SortDesc(Boosted(matches, RecentIds(ctx, kind)), ScoreOf)
  }

  /** What `resolveProjectReference` (kind project) and `resolveTaskReference` (kind task) return. */
  function Resolution(db: Store.Db, kind: Kind, reference: string, ctx: ActiveContext, projectFilter: Option<Id>): seq<Entity>
  {
    if IsContextual(reference, Phrases(kind)) then ContextualPick(db, kind, ctx)
    else Select(Ranked(db, kind, reference, ctx, projectFilter))
  }

  /** `resolveProjectReference` / `resolveTaskReference`. */
  method ResolveReference(db: Store.Db, kind: Kind, reference: string, ctx: ActiveContext, projectFilter: Option<Id>)
    returns (r: seq<Entity>)
    ensures r == Resolution(db, kind, reference, ctx, projectFilter)
    ensures |r| <= 3
  {
    if IsContextual(reference, Phrases(kind)) {
      r := ResolveContextual(db, kind, ctx);
      return;
    }
    var matches := FindBestMatches(reference, Candidates(db, kind, projectFilter), Threshold);
    matches := BoostRecent(matches, RecentIds(ctx, kind));
    matches := SortDesc(matches, ScoreOf);
    r := Select(matches);
  }

  lemma {:induction false} SortDescMembers(s: seq<Match>, m: Match)
    ensures m in SortDesc(s, ScoreOf) <==> m in s
  {
    assert m in SortDesc(s, ScoreOf) <==> m in multiset(SortDesc(s, ScoreOf));
  }

  /** Every entity a fuzzy resolution returns is a candidate scoring at least 0.4
      before the boost, and the first one has the highest boosted score of all
      ranked matches. */
  lemma FuzzyResolutionSound(db: Store.Db, kind: Kind, reference: string, ctx: ActiveContext,
                             projectFilter: Option<Id>, e: Entity)
    requires !IsContextual(reference, Phrases(kind))
    requires e in Resolution(db, kind, reference, ctx, projectFilter)
    ensures e in Candidates(db, kind, projectFilter)
    ensures SimilarityScore(reference, Label(e)) >= Threshold
  {
    var cands := Candidates(db, kind, projectFilter);
    var scored := Scored(reference, cands, Threshold);
    var sorted := SortDesc(scored, ScoreOf);
    var boosted := Boosted(sorted, RecentIds(ctx, kind));
    var ranked := SortDesc(boosted, ScoreOf);
    var r := Select(ranked);
    var k :| 0 <= k < |r| && r[k] == e;
    SortDescMembers(boosted, ranked[k]);
    var j :| 0 <= j < |boosted| && boosted[j] == ranked[k];
    SortDescMembers(scored, sorted[j]);
  }

  /** The winner of a fuzzy resolution has the highest boosted score. */
  lemma FuzzyTopIsBest(db: Store.Db, kind: Kind, reference: string, ctx: ActiveContext, projectFilter: Option<Id>)
    ensures forall m :: m in Ranked(db, kind, reference, ctx, projectFilter) ==>
              Ranked(db, kind, reference, ctx, projectFilter)[0].score >= m.score
  {
    var ranked := Ranked(db, kind, reference, ctx, projectFilter);
    var sorted := SortDesc(Scored(reference, Candidates(db, kind, projectFilter), Threshold), ScoreOf);
    SortDescSorted(Boosted(sorted, RecentIds(ctx, kind)), ScoreOf);
    forall m | m in ranked ensures ranked[0].score >= m.score {
      var k :| 0 <= k < |ranked| && ranked[k] == m;
      if k > 0 {
        assert ScoreOf(ranked[0]) >= ScoreOf(ranked[k]);
      }
    }
  }

  /** A pronoun reference yields at most one entity and ignores fuzzy matching. */
  lemma ContextualAtMostOne(db: Store.Db, kind: Kind, reference: string, ctx: ActiveContext, projectFilter: Option<Id>)
    requires IsContextual(reference, Phrases(kind))
    ensures |Resolution(db, kind, reference, ctx, projectFilter)| <= 1
    ensures Resolution(db, kind, reference, ctx, projectFilter) == Resolution(db, kind, reference, ctx, None)
  {
  }

  // ---------------------------------------------------------------- all references

  predicate HasId(acc: seq<EntityRef>, id: Id)
  {
    exists k | 0 <= k < |acc| :: acc[k].id == id
  }

  predicate DistinctIds(acc: seq<EntityRef>)
  {
    forall i, j :: 0 <= i < j < |acc| ==> acc[i].id != acc[j].id
  }

  function RefOf(e: Entity): EntityRef
  {
    EntityRef(Label(e), EntityId(e))
  }

  /** Some entity of es has this id. */
  predicate Mentions(es: seq<Entity>, id: Id)
  {
    exists k | 0 <= k < |es| :: EntityId(es[k]) == id
  }

  /** Appends e unless an entry with its id is already present (the `find` test). */
  function AddOne(acc: seq<EntityRef>, e: Entity): (r: seq<EntityRef>)
    ensures DistinctIds(acc) ==> DistinctIds(r)
    ensures acc <= r
    ensures forall id :: HasId(r, id) <==> HasId(acc, id) || id == EntityId(e)
  {
    if HasId(acc, EntityId(e)) then acc
    else
      var r := acc + [RefOf(e)];
      assert r[|acc|].id == EntityId(e);
      r
  }

  /** Adds the entities one after another. */
  function AddAll(acc: seq<EntityRef>, es: seq<Entity>): (r: seq<EntityRef>)
  {
    if es == [] then acc else AddOne(AddAll(acc, es[..|es| - 1]), es[|es| - 1])
  }

  lemma {:induction false} AddAllFacts(acc: seq<EntityRef>, es: seq<Entity>)
    ensures DistinctIds(acc) ==> DistinctIds(AddAll(acc, es))
    ensures acc <= AddAll(acc, es)
    ensures forall id :: HasId(AddAll(acc, es), id) <==> HasId(acc, id) || Mentions(es, id)
  {
    if es != [] {
      var init := es[..|es| - 1];
      AddAllFacts(acc, init);
      MentionsSnoc(es);
    }
  }

  /** The entities mentioned by a list are those of its front and its last one. */
  lemma MentionsSnoc(es: seq<Entity>)
    requires es != []
    ensures forall id :: Mentions(es, id) <==> Mentions(es[..|es| - 1], id) || EntityId(es[|es| - 1]) == id
  {
    var init := es[..|es| - 1];
    forall id ensures Mentions(es, id) <==> Mentions(init, id) || EntityId(es[|es| - 1]) == id
    {
      if Mentions(es, id) {
        var k :| 0 <= k < |es| && EntityId(es[k]) == id;
        if k < |init| {
          assert init[k] == es[k];
        }
      }
      if Mentions(init, id) {
        var k :| 0 <= k < |init| && EntityId(init[k]) == id;
        assert es[k] == init[k];
      }
    }
  }

  /** Every reference resolved in turn, de-duplicated in first-seen order. */
  function ResolveAll(db: Store.Db, kind: Kind, refs: seq<string>, ctx: ActiveContext, projectFilter: Option<Id>): seq<EntityRef>
  {
    if refs == [] then []
    else AddAll(ResolveAll(db, kind, refs[..|refs| - 1], ctx, projectFilter),
                Resolution(db, kind, refs[|refs| - 1], ctx, projectFilter))
  }

  lemma {:induction false} ResolveAllDistinct(db: Store.Db, kind: Kind, refs: seq<string>, ctx: ActiveContext,
                                              projectFilter: Option<Id>)
    ensures DistinctIds(ResolveAll(db, kind, refs, ctx, projectFilter))
  {
    if refs != [] {
      var init := refs[..|refs| - 1];
      ResolveAllDistinct(db, kind, init, ctx, projectFilter);
      AddAllFacts(ResolveAll(db, kind, init, ctx, projectFilter),
                  Resolution(db, kind, refs[|refs| - 1], ctx, projectFilter));
    }
  }

  /** Earlier references keep their entries at the front: the list only grows at the end. */
  lemma {:induction false} ResolveAllPrefix(db: Store.Db, kind: Kind, refs: seq<string>, n: nat, ctx: ActiveContext,
                                            projectFilter: Option<Id>)
    requires n <= |refs|
    ensures ResolveAll(db, kind, refs[..n], ctx, projectFilter) <= ResolveAll(db, kind, refs, ctx, projectFilter)
    decreases |refs|
  {
    if n < |refs| {
      var init := refs[..|refs| - 1];
      assert init[..n] == refs[..n];
      ResolveAllPrefix(db, kind, init, n, ctx, projectFilter);
      AddAllFacts(ResolveAll(db, kind, init, ctx, projectFilter),
                  Resolution(db, kind, refs[|refs| - 1], ctx, projectFilter));
    } else {
      assert refs[..n] == refs;
    }
  }

  /** The project id that narrows the task search: the first resolved project's. */
  function FirstProjectId(projects: seq<EntityRef>): Option<Id>
  {
    if |projects| > 0 then Some(projects[0].id) else None
  }

  function EntitiesResolution(db: Store.Db, projectRefs: seq<string>, taskRefs: seq<string>, ctx: ActiveContext): ResolvedEntities
  {
    var projects := ResolveAll(db, ProjectKind, projectRefs, ctx, None);
    ResolvedEntities(projects, ResolveAll(db, TaskKind, taskRefs, ctx, FirstProjectId(projects)))
  }

  /** Resolves the references of one kind, pushing each new id once. */
  method ResolveRefs(db: Store.Db, kind: Kind, refs: seq<string>, ctx: ActiveContext, projectFilter: Option<Id>)
    returns (acc: seq<EntityRef>)
    ensures acc == ResolveAll(db, kind, refs, ctx, projectFilter)
  {
    acc := [];
    for i := 0 to |refs|
      invariant acc == ResolveAll(db, kind, refs[..i], ctx, projectFilter)
    {
      ResolveAllNext(db, kind, refs, i, ctx, projectFilter);
      var matches := ResolveReference(db, kind, refs[i], ctx, projectFilter);
      acc := AddMatches(acc, matches);
    }
    assert refs[..|refs|] == refs;
  }

  /** One more reference resolved: its matches are added to what the earlier ones gave. */
  lemma ResolveAllNext(db: Store.Db, kind: Kind, refs: seq<string>, i: nat, ctx: ActiveContext, projectFilter: Option<Id>)
    requires i < |refs|
    ensures ResolveAll(db, kind, refs[..i + 1], ctx, projectFilter) ==
            AddAll(ResolveAll(db, kind, refs[..i], ctx, projectFilter), Resolution(db, kind, refs[i], ctx, projectFilter))
  {
    assert refs[..i + 1][..i] == refs[..i];
  }

  /** The inner loop of `resolveEntities`: push each match whose id is not yet listed. */
  method AddMatches(acc0: seq<EntityRef>, matches: seq<Entity>) returns (acc: seq<EntityRef>)
    ensures acc == AddAll(acc0, matches)
  {
    acc := acc0;
    for j := 0 to |matches|
      invariant acc == AddAll(acc0, matches[..j])
    {
      assert matches[..j + 1][..j] == matches[..j];
      if !HasId(acc, EntityId(matches[j])) {
        acc := acc + [RefOf(matches[j])];
      }
    }
    assert matches[..|matches|] == matches;
  }

  /** `resolveEntities`: both id lists are duplicate-free, and task references are
      searched among the first resolved project's tasks when a project resolved. */
  method ResolveEntities(db: Store.Db, projectRefs: seq<string>, taskRefs: seq<string>, ctx: ActiveContext)
    returns (result: ResolvedEntities)
    ensures result == EntitiesResolution(db, projectRefs, taskRefs, ctx)
    ensures DistinctIds(result.projects) && DistinctIds(result.tasks)
  {
    var projects := ResolveRefs(db, ProjectKind, projectRefs, ctx, None);
    var tasks := ResolveRefs(db, TaskKind, taskRefs, ctx, FirstProjectId(projects));
    result := ResolvedEntities(projects, tasks);
    ResolveAllDistinct(db, ProjectKind, projectRefs, ctx, None);
    ResolveAllDistinct(db, TaskKind, taskRefs, ctx, FirstProjectId(projects));
  }

  /** With a project resolved, a fuzzy task match is one of that project's open tasks. */
  lemma TaskSearchNarrowed(db: Store.Db, reference: string, ctx: ActiveContext, pid: Id, e: Entity)
    requires pid != ""
    requires !IsContextual(reference, TaskPhrases)
    requires e in Resolution(db, TaskKind, reference, ctx, Some(pid))
    ensures e.TaskEntity? && e.task in db.tasks && e.task.projectId == Some(pid) && e.task.status != Completed
  {
    FuzzyResolutionSound(db, TaskKind, reference, ctx, Some(pid), e);
    var ts := Store.TasksOfProject(db.tasks, pid);
    var k :| 0 <= k < |ts| && TaskEntities(ts)[k] == e;
    assert ts[k] in ts;
  }

  // ---------------------------------------------------------------- new-entity hint

  const NewIndicators: seq<string> := ["new", "create", "add", "start", "starting"]

  /** `suggestsNewEntity`: the lower-cased reference contains one of the indicators. */
  function SuggestsNewEntity(reference: string): (b: bool)
    ensures b ==> |reference| >= 3
  {
    exists k | 0 <= k < |NewIndicators| :: Contains(Lower(reference), NewIndicators[k])
  }

  /** "starting" adds nothing to the list, since it contains "start". */
  lemma SuggestsNewEntityWithoutStarting(reference: string)
    ensures SuggestsNewEntity(reference) <==> exists k | 0 <= k < 4 :: Contains(Lower(reference), NewIndicators[k])
  {
    if Contains(Lower(reference), "starting") {
      assert StartsWith("starting", "start");
      PrefixContains("starting", "start");
      ContainsTransitive(Lower(reference), "starting", "start");
      assert NewIndicators[3] == "start";
    }
  }

  /** Any text containing a suggestive reference is suggestive too. */
  lemma SuggestsNewEntityMonotone(s: string, t: string)
    requires Contains(s, t) && SuggestsNewEntity(t)
    ensures SuggestsNewEntity(s)
  {
    var k :| 0 <= k < |NewIndicators| && Contains(Lower(t), NewIndicators[k]);
    ContainsLower(s, t);
    ContainsTransitive(Lower(s), Lower(t), NewIndicators[k]);
  }
}
