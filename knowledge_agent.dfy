/** The knowledge specialist (lib/agents/knowledge.ts): which project a question is
    about, the numbered knowledge excerpt given to the answering model, the
    confidence ladder, and the direct project-status answer. Semantic search and
    the answering model are inputs (None when the call throws). */
module KnowledgeAgent {
  import opened Types
  import opened Strings
  import opened Store
  import TaskAgent

  const NoKnowledge: string := "No relevant knowledge found in the database."
  const WhichProject: string := "Which project are you asking about?"
  const ProjectNotFound: string := "Project not found."
  const RecentNotesShown: nat := 5

  /** The project a question is about: the first resolved project, else the
      context's current project. */
  function QuestionProjectId(ctx: TaskAgent.AgentContext): (r: Option<Id>)
    ensures ctx.resolved.projects != [] && ctx.resolved.projects[0].id != "" ==> r == Some(ctx.resolved.projects[0].id)
    ensures (ctx.resolved.projects == [] || ctx.resolved.projects[0].id == "") ==> r == ctx.active.currentProjectId
  {
    Or(TaskAgent.FirstRefId(ctx.resolved.projects), ctx.active.currentProjectId)
  }

  /** The confidence ladder: three or more chunks high, one or two medium, none low. */
  function ConfidenceFor(found: nat): (c: Confidence)
    ensures c == HighConfidence <==> found >= 3
    ensures c == MediumConfidence <==> 1 <= found <= 2
    ensures c == LowConfidence <==> found == 0
  {
    if found >= 3 then HighConfidence else if found >= 1 then MediumConfidence else LowConfidence
  }

  /** More knowledge never lowers the confidence. */
  lemma ConfidenceMonotone(m: nat, n: nat)
    requires m <= n
    ensures ConfidenceRank(ConfidenceFor(m)) <= ConfidenceRank(ConfidenceFor(n))
  {
  }

  function ConfidenceRank(c: Confidence): nat
  {
    match c
    case LowConfidence => 0
    case MediumConfidence => 1
    case HighConfidence => 2
  }

  /** One numbered excerpt entry; `dateText` stands for the locale date rendering. */
  function ChunkLine(i: nat, k: Knowledge, dateText: string -> string): (r: string)
    ensures StartsWith(r, "[" + NatToString(i + 1) + "] (")
    ensures EndsWith(r, "): " + k.content)
    ensures r == "[" + NatToString(i + 1) + "] (" + dateText(k.createdAt) + ", " + KnowledgeSourceName(k.source) +
                 "): " + k.content
  {
    var head := "[" + NatToString(i + 1) + "] (";
    var tail := "): " + k.content;
    var r := head + dateText(k.createdAt) + ", " + KnowledgeSourceName(k.source) + tail;
    assert r == head + (dateText(k.createdAt) + ", " + KnowledgeSourceName(k.source) + tail);
    assert r[..|head|] == head;
    assert r == (head + dateText(k.createdAt) + ", " + KnowledgeSourceName(k.source)) + tail;
    EndsWithAppend(head + dateText(k.createdAt) + ", " + KnowledgeSourceName(k.source), tail);
    r
  }

  function ChunkLines(ks: seq<Knowledge>, dateText: string -> string): (r: seq<string>)
    ensures |r| == |ks| && forall i :: 0 <= i < |ks| ==> r[i] == ChunkLine(i, ks[i], dateText)
  {
    seq(|ks|, i requires 0 <= i < |ks| => ChunkLine(i, ks[i], dateText))
  }

  /** `formatKnowledgeChunks`: a fixed sentence for no chunks, otherwise the chunks
      numbered from 1 in order, separated by blank lines. */
  function FormatKnowledgeChunks(ks: seq<Knowledge>, dateText: string -> string): (r: string)
    ensures ks == [] ==> r == NoKnowledge
    ensures ks != [] ==> r == Join(ChunkLines(ks, dateText), "\n\n") && StartsWith(r, "[1] (")
  {
    if ks == [] then NoKnowledge
    else
      var lines := ChunkLines(ks, dateText);
      JoinStartsWithFirst(lines, "\n\n");
      assert NatToString(0 + 1) == "1";
      assert ("[" + NatToString(0 + 1) + "] (") == "[1] (";
      Join(lines, "\n\n")
  }

  /** Every chunk appears in the excerpt under its own number. */
  lemma ChunksAllNumbered(ks: seq<Knowledge>, dateText: string -> string, i: nat)
    requires i < |ks|
    ensures Contains(FormatKnowledgeChunks(ks, dateText), ChunkLine(i, ks[i], dateText))
  {
    JoinContainsPart(ChunkLines(ks, dateText), "\n\n", i);
  }

  function Sources(ks: seq<Knowledge>): (r: seq<SourceRef>)
    ensures |r| == |ks|
    ensures forall i :: 0 <= i < |ks| ==> r[i] == SourceRef(ks[i].content, ks[i].createdAt)
  {
    seq(|ks|, i requires 0 <= i < |ks| => SourceRef(ks[i].content, ks[i].createdAt))
  }

  /** `handleKnowledgeQuery`. `search` is the semantic search's answer (None when it
      throws) and `answer` the answering model's text (None when it throws, which
      ends in the apology). */
  method HandleKnowledgeQuery(db: Db, ctx: TaskAgent.AgentContext, search: Option<seq<Knowledge>>,
                              answer: Option<string>) returns (r: KnowledgeAgentResult)
    ensures answer.None? ==> r == KnowledgeAgentResult(Apology, [], LowConfidence)
    ensures answer.Some? ==> r.answer == Trim(answer.value)
    ensures answer.Some? && search.Some? ==>
              r.sources == Sources(search.value) && r.confidence == ConfidenceFor(|search.value|)
    ensures answer.Some? && search.None? && Present(QuestionProjectId(ctx)) ==>
              var fallback := KnowledgeOf(db.knowledge, QuestionProjectId(ctx).value);
              r.sources == Sources(fallback) && r.confidence == ConfidenceFor(|fallback|)
    ensures answer.Some? && search.None? && !Present(QuestionProjectId(ctx)) ==>
              r.sources == [] && r.confidence == LowConfidence
    ensures |r.sources| > 0 <==> r.confidence != LowConfidence
  {
    var projectId := QuestionProjectId(ctx);
    var chunks: seq<Knowledge> := [];
    if search.Some? {
      chunks := search.value;
    } else if Present(projectId) {
      chunks := KnowledgeOf(db.knowledge, projectId.value);
    }
    if answer.None? {
      return KnowledgeAgentResult(Apology, [], LowConfidence);
    }
    var confidence := LowConfidence;
    if |chunks| >= 3 {
      confidence := HighConfidence;
    } else if |chunks| >= 1 {
      confidence := MediumConfidence;
    }
    return KnowledgeAgentResult(Trim(answer.value), Sources(chunks), confidence);
  }

  /** `x || 'fallback'` for the optional project columns. */
  function OrText(o: Option<string>, fallback: string): (r: string)
    ensures Present(o) ==> r == o.value
    ensures !Present(o) ==> r == fallback
  {
    if Present(o) then o.value else fallback
  }

  /** The four lines of the status paragraph. */
  function StatusLines(p: Project): (r: seq<string>)
    ensures |r| == 4
  {
    [p.name + " is " + ProjectStatusName(p.status) + ".",
     "Client: " + OrText(p.clientName, "Unknown"),
     "Type: " + OrText(p.projectType, "Not specified"),
     "Address: " + OrText(p.address, "Not specified")]
  }

  /** The status paragraph: name and status, then client, type and address, with
      placeholders for the missing ones. */
  function StatusSummary(p: Project): (r: string)
    ensures r == Join(StatusLines(p), "\n")
    ensures StartsWith(r, p.name + " is " + ProjectStatusName(p.status) + ".")
    ensures EndsWith(r, "\nAddress: " + OrText(p.address, "Not specified"))
  {
    var ls := StatusLines(p);
    assert ls == [ls[0], ls[1], ls[2], ls[3]];
    JoinFour(ls[0], ls[1], ls[2], ls[3], "\n");
    assert "\n" + ls[3] == "\nAddress: " + OrText(p.address, "Not specified");
    Join(ls, "\n")
  }

  /** When the name and the three columns hold no line break, the paragraph splits
      back into its four lines: name and status, client, type, address. */
  lemma StatusReadsBack(p: Project)
    requires '\n' !in p.name
    requires p.clientName.Some? ==> '\n' !in p.clientName.value
    requires p.projectType.Some? ==> '\n' !in p.projectType.value
    requires p.address.Some? ==> '\n' !in p.address.value
    ensures Split(StatusSummary(p), '\n') == StatusLines(p)
  {
    var ls := StatusLines(p);
    assert '\n' !in ProjectStatusName(p.status) + ".";
    NotInAppend(p.name, " is ", '\n');
    NotInAppend(p.name + " is ", ProjectStatusName(p.status) + ".", '\n');
    assert p.name + " is " + ProjectStatusName(p.status) + "." == p.name + " is " + (ProjectStatusName(p.status) + ".");
    NotInAppend("Client: ", OrText(p.clientName, "Unknown"), '\n');
    NotInAppend("Type: ", OrText(p.projectType, "Not specified"), '\n');
    NotInAppend("Address: ", OrText(p.address, "Not specified"), '\n');
    SplitJoin(ls, '\n');
  }

  function NoteLines(ks: seq<Knowledge>): (r: seq<string>)
    ensures |r| == |ks| && forall i :: 0 <= i < |ks| ==> r[i] == "- " + ks[i].content
  {
    seq(|ks|, i requires 0 <= i < |ks| => "- " + ks[i].content)
  }

  /** The project's newest notes, at most five. */
  function RecentKnowledge(db: Db, pid: Id): (r: seq<Knowledge>)
    ensures |r| <= RecentNotesShown && |r| <= |KnowledgeOf(db.knowledge, pid)|
    ensures r == KnowledgeOf(db.knowledge, pid)[..|r|]
    ensures |r| < RecentNotesShown ==> r == KnowledgeOf(db.knowledge, pid)
  {
    var all := KnowledgeOf(db.knowledge, pid);
    if |all| <= RecentNotesShown then all else all[..RecentNotesShown]
  }

  /** `handleProjectQuery`. */
  function HandleProjectQuery(db: Db, ctx: TaskAgent.AgentContext): (r: KnowledgeAgentResult)
    ensures !Present(QuestionProjectId(ctx)) ==> r == KnowledgeAgentResult(WhichProject, [], LowConfidence)
    ensures Present(QuestionProjectId(ctx)) && ProjectById(db.projects, QuestionProjectId(ctx).value).None? ==>
              r == KnowledgeAgentResult(ProjectNotFound, [], LowConfidence)
    ensures Present(QuestionProjectId(ctx)) && ProjectById(db.projects, QuestionProjectId(ctx).value).Some? ==>
              var p := ProjectById(db.projects, QuestionProjectId(ctx).value).value;
              var recent := RecentKnowledge(db, QuestionProjectId(ctx).value);
              r.confidence == HighConfidence && r.sources == Sources(recent) && |r.sources| <= RecentNotesShown &&
              StartsWith(r.answer, StatusSummary(p)) &&
              (recent == [] ==> r.answer == StatusSummary(p)) &&
              (recent != [] ==> r.answer == StatusSummary(p) + "\n\nRecent notes:\n" + Join(NoteLines(recent), "\n"))
  {
    var projectId := QuestionProjectId(ctx);
    if !Present(projectId) then KnowledgeAgentResult(WhichProject, [], LowConfidence)
    else
      var found := ProjectById(db.projects, projectId.value);
      if found.None? then KnowledgeAgentResult(ProjectNotFound, [], LowConfidence)
      else
        var summary := StatusSummary(found.value);
        var recent := RecentKnowledge(db, projectId.value);
        if |recent| > 0 then
          var rest := "\n\nRecent notes:\n" + Join(NoteLines(recent), "\n");
          assert (summary + rest)[..|summary|] == summary;
          KnowledgeAgentResult(summary + rest, Sources(recent), HighConfidence)
        else KnowledgeAgentResult(summary, [], HighConfidence)
  }

  /** When no note has a line break, the answer for a project with notes is its
      status summary, the "Recent notes:" header, and then exactly one "- " line per
      recent note, newest first. */
  lemma RecentNotesReadBack(db: Db, ctx: TaskAgent.AgentContext)
    requires Present(QuestionProjectId(ctx)) && ProjectById(db.projects, QuestionProjectId(ctx).value).Some?
    requires RecentKnowledge(db, QuestionProjectId(ctx).value) != []
    requires forall k :: 0 <= k < |RecentKnowledge(db, QuestionProjectId(ctx).value)| ==>
               '\n' !in RecentKnowledge(db, QuestionProjectId(ctx).value)[k].content
    ensures var p := ProjectById(db.projects, QuestionProjectId(ctx).value).value;
            var head := StatusSummary(p) + "\n\nRecent notes:\n";
            var answer := HandleProjectQuery(db, ctx).answer;
            StartsWith(answer, head) &&
            Split(answer[|head|..], '\n') == NoteLines(RecentKnowledge(db, QuestionProjectId(ctx).value))
  {
    var recent := RecentKnowledge(db, QuestionProjectId(ctx).value);
    var head := StatusSummary(ProjectById(db.projects, QuestionProjectId(ctx).value).value) + "\n\nRecent notes:\n";
    var notes := Join(NoteLines(recent), "\n");
    var answer := HandleProjectQuery(db, ctx).answer;
    assert answer == head + notes;
    assert answer[..|head|] == head && answer[|head|..] == notes;
    var lines := NoteLines(recent);
    forall k | 0 <= k < |lines| ensures '\n' !in lines[k] {
      NotInAppend("- ", recent[k].content, '\n');
    }
    SplitJoin(lines, '\n');
  }
}
