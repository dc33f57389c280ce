/** Reply text (lib/agents/response.ts): the one-line task format, the result
    summary handed to the reply generator, the canned replies for small talk and
    the numbered disambiguation question. The language-model calls are inputs:
    `Some(text)` is what the model returned, `None` means the call threw. */
module Response {
  import opened Types
  import opened Strings
  import EntityResolver

  /** `formatTaskForResponse`: the description, then "due <date>" when a deadline is
      set, then "(<priority> priority)" unless the priority is medium, each part after
      the first preceded by " - ". `dateText` stands for the locale date rendering. */
  function FormatTaskForResponse(t: Task, dateText: Time -> string): (r: string)
    ensures StartsWith(r, t.description)
    ensures t.deadline.None? && t.priority == Medium ==> r == t.description
    ensures t.deadline.Some? && t.priority == Medium ==> r == t.description + " - due " + dateText(t.deadline.value)
    ensures t.deadline.None? && t.priority != Medium ==>
              r == t.description + " - (" + PriorityName(t.priority) + " priority)"
    ensures t.deadline.Some? && t.priority != Medium ==>
              r == t.description + " - due " + dateText(t.deadline.value) + " - (" + PriorityName(t.priority) + " priority)"
    ensures t.priority != Medium ==> EndsWith(r, " - (" + PriorityName(t.priority) + " priority)")
  {
    var due := if t.deadline.Some? then " - due " + dateText(t.deadline.value) else "";
    var pri := if t.priority != Medium then " - (" + PriorityName(t.priority) + " priority)" else "";
    EndsWithAppend(t.description + due, pri);
    assert (t.description + due + pri)[..|t.description|] == t.description;
    t.description + due + pri
  }

  /** A specialist result as the summariser sees it: a bag of optional fields.
      The three result shapes are told apart by which fields are present. */
  datatype ResultObject = ResultObject(
    action: Option<string>,
    task: Option<Task>,
    tasks: Option<seq<Task>>,
    error: Option<string>,
    project: Option<Project>,
    answer: Option<string>,
    confidence: Option<Confidence>)

  function TaskActionName(a: TaskAction): string
  {
    match a
    case CreatedTask => "created"
    case UpdatedTask => "updated"
    case CompletedTask => "completed"
    case QueriedTasks => "queried"
  }

  function ProjectActionName(a: ProjectAction): string
  {
    match a
    case CreatedProject => "created"
    case UpdatedProject => "updated"
  }

  function FromTaskResult(r: TaskAgentResult): (o: ResultObject)
    ensures Present(o.action) && o.task == r.task && o.error == r.error
  {
    ResultObject(Some(TaskActionName(r.action)), r.task, r.tasks, r.error, None, None, None)
  }

  /** A project result has an `action` too, and no `task` field. */
  function FromProjectResult(r: ProjectAgentResult): (o: ResultObject)
    ensures Present(o.action) && o.task.None? && o.project == r.project && o.error == r.error
  {
    ResultObject(Some(ProjectActionName(r.action)), None, None, r.error, r.project, None, None)
  }

  function FromKnowledgeResult(r: KnowledgeAgentResult): (o: ResultObject)
    ensures !Present(o.action) && o.project.None? && o.answer == Some(r.answer)
  {
    ResultObject(None, None, None, None, None, Some(r.answer), Some(r.confidence))
  }

  /** The summary handed to the reply generator, or the exception raised while building it. */
  datatype Summary = Text(text: string) | Crash

  /** The four action names the task branch's switch knows. */
  predicate KnownTaskAction(a: string)
  {
    a == "created" || a == "updated" || a == "completed" || a == "queried"
  }

  /** What the summariser does with a present result, once no explicit error was
      given and the intent is not the schedule query. Any truthy `action` enters the
      task branch; its `switch` dereferences the task with no check, so a missing
      task is a crash. An action the switch does not know falls through to the
      project and knowledge branches. */
  function ObjectSummary(r: ResultObject, dateText: Time -> string): (s: Summary)
    ensures Present(r.action) && Present(r.error) ==> s == Text("Error: " + r.error.value)
    ensures s.Crash? <==>
      (Present(r.action) && !Present(r.error) && r.task.None? &&
       (r.action.value == "created" || r.action.value == "updated" || r.action.value == "completed"))
    ensures (Present(r.action) && !Present(r.error) && r.action.value == "queried" &&
             (r.tasks.None? || r.tasks.value == [])) ==> s == Text("No matching tasks found.")
    ensures Present(r.action) && !Present(r.error) && r.action.value == "completed" && r.task.Some? ==>
            s == Text("Task completed: " + r.task.value.description)
    ensures (!Present(r.action) || (!KnownTaskAction(r.action.value) && !Present(r.error))) ==>
            (r.project.Some? && Present(r.error) ==> s == Text("Error: " + r.error.value)) &&
            (r.project.None? && r.answer.None? ==> s == Text("Result processed."))
  {
    if Present(r.action) && Present(r.error) then Text("Error: " + r.error.value)
    else if Present(r.action) && r.action.value == "created" then
      if r.task.None? then Crash else Text("Task created: " + FormatTaskForResponse(r.task.value, dateText))
    else if Present(r.action) && r.action.value == "updated" then
      if r.task.None? then Crash else Text("Task updated: " + FormatTaskForResponse(r.task.value, dateText))
    else if Present(r.action) && r.action.value == "completed" then
      if r.task.None? then Crash else Text("Task completed: " + r.task.value.description)
    else if Present(r.action) && r.action.value == "queried" then
      if r.tasks.None? || r.tasks.value == [] then Text("No matching tasks found.")
      else Text("Found " + NatToString(|r.tasks.value|) + " task(s):\n" + Join(TaskLines(r.tasks.value, dateText), "\n"))
    else if r.project.Some? then
      if Present(r.error) then Text("Error: " + r.error.value)
      else if r.action == Some("created") then
        Text("Project created: " + r.project.value.name + " (" + ProjectStatusName(r.project.value.status) + ")")
      else Text("Project updated: " + r.project.value.name + " is now " + ProjectStatusName(r.project.value.status))
    else if r.answer.Some? then
      Text(r.answer.value + "\n\nConfidence: " +
           (if r.confidence.Some? then ConfidenceName(r.confidence.value) else "undefined"))
    else Text("Result processed.")
  }

  /** One "- task" line per task, in order. */
  function TaskLines(ts: seq<Task>, dateText: Time -> string): (r: seq<string>)
    ensures |r| == |ts|
    ensures forall k :: 0 <= k < |ts| ==> r[k] == "- " + FormatTaskForResponse(ts[k], dateText)
  {
    seq(|ts|, k requires 0 <= k < |ts| => "- " + FormatTaskForResponse(ts[k], dateText))
  }

  function EventLine(e: CalendarEvent, timeText: string -> string): string
  {
    "- " + timeText(e.start) + ": " + e.summary
  }

  /** The task section of the schedule summary: a "Tasks (n):" header and one line
      per task, or nothing when there are no tasks. */
  function TaskSection(tasks: seq<Task>, dateText: Time -> string): (r: seq<string>)
    ensures |r| == if |tasks| > 0 then |tasks| + 1 else 0
    ensures |tasks| > 0 ==> r[0] == "Tasks (" + NatToString(|tasks|) + "):"
    ensures forall k :: 0 <= k < |tasks| ==> r[k + 1] == "- " + FormatTaskForResponse(tasks[k], dateText)
  {
    if |tasks| > 0 then ["Tasks (" + NatToString(|tasks|) + "):"] + TaskLines(tasks, dateText) else []
  }

  /** The event section: a "Calendar events:" header after a blank line and one
      "- time: summary" line per event, or nothing when there are no events. */
  function EventSection(events: seq<CalendarEvent>, timeText: string -> string): (r: seq<string>)
    ensures |r| == if |events| > 0 then |events| + 1 else 0
    ensures |events| > 0 ==> r[0] == "\nCalendar events:"
    ensures forall k :: 0 <= k < |events| ==> r[k + 1] == EventLine(events[k], timeText)
  {
    if |events| > 0 then ["\nCalendar events:"] + EventLines(events, timeText) else []
  }

  function EventLines(es: seq<CalendarEvent>, timeText: string -> string): (r: seq<string>)
    ensures |r| == |es| && forall k :: 0 <= k < |es| ==> r[k] == EventLine(es[k], timeText)
  {
    seq(|es|, k requires 0 <= k < |es| => EventLine(es[k], timeText))
  }

  function Count<T>(o: Option<seq<T>>): nat
  {
    if o.Some? then |o.value| else 0
  }

  function OrEmpty<T>(o: Option<seq<T>>): (r: seq<T>)
    ensures |r| == Count(o)
  {
    if o.Some? then o.value else []
  }

  /** Pushes the task section onto `parts0`. */
  method PushTaskSection(parts0: seq<string>, tasks: seq<Task>, dateText: Time -> string) returns (parts: seq<string>)
    ensures parts == parts0 + TaskSection(tasks, dateText)
  {
    parts := parts0;
    if |tasks| > 0 {
      var header := "Tasks (" + NatToString(|tasks|) + "):";
      var lines := TaskLines(tasks, dateText);
      parts := parts + [header];
      for i := 0 to |tasks|
        invariant parts == parts0 + [header] + lines[..i]
      {
        PushNext(parts0 + [header], lines, i);
        parts := parts + ["- " + FormatTaskForResponse(tasks[i], dateText)];
      }
      assert lines[..|tasks|] == lines;
      assert parts0 + [header] + lines == parts0 + ([header] + lines);
    }
  }

  /** Pushes the event section onto `parts0`. */
  method PushEventSection(parts0: seq<string>, events: seq<CalendarEvent>, timeText: string -> string) returns (parts: seq<string>)
    ensures parts == parts0 + EventSection(events, timeText)
  {
    parts := parts0;
    if |events| > 0 {
      var header := "\nCalendar events:";
      var lines := EventLines(events, timeText);
      parts := parts + [header];
      for i := 0 to |events|
        invariant parts == parts0 + [header] + lines[..i]
      {
        PushNext(parts0 + [header], lines, i);
        parts := parts + [EventLine(events[i], timeText)];
      }
      assert lines[..|events|] == lines;
      assert parts0 + [header] + lines == parts0 + ([header] + lines);
    }
  }

  /** The schedule branch of `buildResultSummary`: the task section then the event
      section, newline-joined, or a fixed sentence when both are empty. */
  method ScheduleSummary(tasks: seq<Task>, events: seq<CalendarEvent>, dateText: Time -> string,
                         timeText: string -> string) returns (text: string)
    ensures tasks == [] && events == [] ==> text == "No tasks or events today."
    ensures tasks != [] || events != [] ==>
              text == Join(TaskSection(tasks, dateText) + EventSection(events, timeText), "\n")
  {
    var parts := PushTaskSection([], tasks, dateText);
    parts := PushEventSection(parts, events, timeText);
    assert [] + TaskSection(tasks, dateText) == TaskSection(tasks, dateText);
    var joined := Join(parts, "\n");
    if tasks == [] && events == [] {
      assert parts == [];
    } else {
      JoinStartsWithFirst(parts, "\n");
      if tasks != [] {
        assert parts[0] == "Tasks (" + NatToString(|tasks|) + "):";
      } else {
        assert parts[0] == "\nCalendar events:";
      }
      assert joined != "";
    }
    text := if joined != "" then joined else "No tasks or events today.";
  }

  /** `buildResultSummary`. An explicit error wins; the schedule query lists today's
      tasks and events; otherwise the specialist's result is summarised by field
      presence (see `ObjectSummary`). */
  method BuildResultSummary(intent: Intent, result: Option<ResultObject>, tasks: Option<seq<Task>>,
                            events: Option<seq<CalendarEvent>>, error: Option<string>,
                            dateText: Time -> string, timeText: string -> string) returns (s: Summary)
    ensures Present(error) ==> s == Text("Error: " + error.value)
    ensures !Present(error) && intent == ScheduleQuery && Count(tasks) == 0 && Count(events) == 0 ==>
      s == Text("No tasks or events today.")
    ensures !Present(error) && intent == ScheduleQuery && (Count(tasks) > 0 || Count(events) > 0) ==>
      s == Text(Join(TaskSection(OrEmpty(tasks), dateText) + EventSection(OrEmpty(events), timeText), "\n"))
    ensures !Present(error) && intent != ScheduleQuery && result.None? ==> s == Text("No result from specialist agent.")
    ensures !Present(error) && intent != ScheduleQuery && result.Some? ==> s == ObjectSummary(result.value, dateText)
  {
    if Present(error) {
      return Text("Error: " + error.value);
    }
    if intent == ScheduleQuery {
      var text := ScheduleSummary(OrEmpty(tasks), OrEmpty(events), dateText, timeText);
      return Text(text);
    }
    if result.None? {
      return Text("No result from specialist agent.");
    }
    return ObjectSummary(result.value, dateText);
  }

  /** With tasks, the schedule summary opens with the task count. */
  lemma ScheduleOpensWithTaskCount(tasks: seq<Task>, events: seq<CalendarEvent>, dateText: Time -> string,
                                   timeText: string -> string)
    requires tasks != []
    ensures StartsWith(Join(TaskSection(tasks, dateText) + EventSection(events, timeText), "\n"),
                       "Tasks (" + NatToString(|tasks|) + "):")
  {
    JoinStartsWithFirst(TaskSection(tasks, dateText) + EventSection(events, timeText), "\n");
  }

  /** A successful project result takes the task branch (it has an `action`) and
      dereferences the task it does not have: summarising it raises. Only a failed
      one is summarised, as its error. */
  lemma ProjectResultTakesTaskBranch(r: ProjectAgentResult, dateText: Time -> string)
    ensures ObjectSummary(FromProjectResult(r), dateText) ==
            if Present(r.error) then Text("Error: " + r.error.value) else Crash
  {
  }

  /** Whatever the task branch answers (its error, a task line, the query lines)
      never reads as a project line: those come only from results the task
      branch does not take. */
  lemma TaskBranchNeverProjectLine(r: ResultObject, dateText: Time -> string)
    requires Present(r.action) && KnownTaskAction(r.action.value)
    requires ObjectSummary(r, dateText).Text?
    ensures !StartsWith(ObjectSummary(r, dateText).text, "Project ")
  {
    var t := ObjectSummary(r, dateText).text;
    if Present(r.error) {
      assert t == "Error: " + r.error.value;
    } else if r.action.value == "created" {
      assert t == "Task created: " + FormatTaskForResponse(r.task.value, dateText);
    } else if r.action.value == "updated" {
      assert t == "Task updated: " + FormatTaskForResponse(r.task.value, dateText);
    } else if r.action.value == "completed" {
      assert t == "Task completed: " + r.task.value.description;
    } else if r.tasks.None? || r.tasks.value == [] {
      assert t == "No matching tasks found.";
    } else {
      assert t == "Found " + NatToString(|r.tasks.value|) + " task(s):\n" + Join(TaskLines(r.tasks.value, dateText), "\n");
    }
    NotProjectLine(t);
  }

  /** A text whose first letter is not 'P' is not a project line. */
  lemma NotProjectLine(t: string)
    requires t != [] && t[0] != 'P'
    ensures !StartsWith(t, "Project ")
  {
    if |t| >= 8 {
      assert t[..8][0] == t[0];
    }
  }

  /** A knowledge result is always summarised as its answer plus its confidence. */
  lemma KnowledgeResultSummary(r: KnowledgeAgentResult, dateText: Time -> string)
    ensures ObjectSummary(FromKnowledgeResult(r), dateText) ==
            Text(r.answer + "\n\nConfidence: " + ConfidenceName(r.confidence))
  {
  }

  /** `generateResponse`: a summary that raised propagates; otherwise the generated
      text, trimmed, or the apology when generation failed. */
  function GenerateResponse(summary: Summary, generated: Option<string>): (r: Summary)
    ensures summary.Crash? <==> r.Crash?
    ensures summary.Text? && generated.None? ==> r == Text(Apology)
    ensures summary.Text? && generated.Some? ==> r.Text? && r.text == Trim(generated.value)
  {
    if summary.Crash? then Crash
    else if generated.Some? then Text(Trim(generated.value))
    else Text(Apology)
  }

  /** One row of the canned-reply table: the prefixes tested and the reply given. */
  datatype Canned = Canned(prefixes: seq<string>, reply: string)

  const CannedReplies: seq<Canned> := [
    Canned(["thanks", "thank you", "thx"], "Yep."),
    Canned(["ok", "okay", "got it", "gotcha"], "Let me know if you need anything."),
    Canned(["hi", "hello", "hey"], "What do you need?"),
    Canned(["bye", "later", "goodbye"], "Later.")
  ]

  /** Whether the text starts with one of the prefixes (a `^(a|b|c)` pattern). */
  function AnyPrefix(prefixes: seq<string>, text: string): (b: bool)
    ensures b <==> exists p :: p in prefixes && StartsWith(text, p)
  {
    if prefixes == [] then false
    else StartsWith(text, prefixes[0]) || AnyPrefix(prefixes[1..], text)
  }

  /** The reply of the first row of the table, from row i on, whose pattern matches. */
  function FirstCanned(table: seq<Canned>, text: string, i: nat): (r: Option<string>)
    requires i <= |table|
    ensures r.Some? <==> exists k :: i <= k < |table| && AnyPrefix(table[k].prefixes, text)
    ensures r.Some? ==> exists k :: i <= k < |table| && AnyPrefix(table[k].prefixes, text) &&
                                   r.value == table[k].reply &&
                                   forall j :: i <= j < k ==> !AnyPrefix(table[j].prefixes, text)
    decreases |table| - i
  {
    if i == |table| then None
    else if AnyPrefix(table[i].prefixes, text) then Some(table[i].reply)
    else FirstCanned(table, text, i + 1)
  }

  /** `generateGeneralChatResponse`: the lower-cased, trimmed message is tested against
      the table in order and the first matching row's reply is returned with no model
      call; otherwise the generated text, trimmed, or the apology. */
  method GenerateGeneralChatResponse(userMessage: string, generated: Option<string>) returns (reply: string)
    ensures FirstCanned(CannedReplies, Trim(Lower(userMessage)), 0).Some? ==> reply == FirstCanned(CannedReplies, Trim(Lower(userMessage)), 0).value
    ensures FirstCanned(CannedReplies, Trim(Lower(userMessage)), 0).None? ==>
              reply == if generated.Some? then Trim(generated.value) else Apology
  {
    var lower := Trim(Lower(userMessage));
    for i := 0 to |CannedReplies|
      invariant FirstCanned(CannedReplies, lower, 0) == FirstCanned(CannedReplies, lower, i)
    {
      if AnyPrefix(CannedReplies[i].prefixes, lower) {
        return CannedReplies[i].reply;
      }
    }
    if generated.Some? {
      return Trim(generated.value);
    }
    return Apology;
  }

  /** The patterns are prefixes with no word boundary: "history" gets the greeting reply. */
  lemma HistoryIsAGreeting()
    ensures FirstCanned(CannedReplies, Trim(Lower("history")), 0) == Some("What do you need?")
  {
    HistoryIsNormal();
    HistoryRow();
  }

  lemma HistoryIsNormal()
    ensures Trim(Lower("history")) == "history"
  {
    HistoryIsLower();
    var h := "history";
    assert !IsSpace(h[0]) && !IsSpace(h[|h| - 1]);
    assert TrimStart(h) == h;
    assert TrimEnd(h) == h;
  }

  lemma HistoryIsLower()
    ensures Lower("history") == "history"
  {
    var h := "history";
    forall i | 0 <= i < |h|
      ensures Lower(h)[i] == h[i]
    {
      assert 'a' <= h[i] <= 'z';
    }
  }

  lemma HistoryRow()
    ensures FirstCanned(CannedReplies, "history", 0) == Some("What do you need?")
  {
    var h := "history";
    var table := CannedReplies;
    NoPrefixDiffersAt(table[0].prefixes, h, 1);
    NoPrefixDiffersAt(table[1].prefixes, h, 0);
    assert StartsWith(h, table[2].prefixes[0]);
    assert FirstCanned(table, h, 2) == Some(table[2].reply);
    assert FirstCanned(table, h, 1) == FirstCanned(table, h, 2);
  }

  /** No prefix of the list matches a text that differs from each of them at offset i. */
  lemma NoPrefixDiffersAt(prefixes: seq<string>, text: string, i: nat)
    requires i < |text|
    requires forall k :: 0 <= k < |prefixes| ==> i < |prefixes[k]| && prefixes[k][i] != text[i]
    ensures !AnyPrefix(prefixes, text)
  {
    forall p | p in prefixes
      ensures !StartsWith(text, p)
    {
      var k :| 0 <= k < |prefixes| && prefixes[k] == p;
      if |p| <= |text| {
        assert text[..|p|][i] == text[i];
      }
    }
  }

  function KindName(kind: EntityResolver.Kind): string
  {
    match kind
    case ProjectKind => "project"
    case TaskKind => "task"
  }

  /** "i. label" for the i-th match, numbered from 1. */
  function NumberedLines(ms: seq<EntityRef>): (r: seq<string>)
    ensures |r| == |ms|
    ensures forall k :: 0 <= k < |ms| ==> r[k] == NatToString(k + 1) + ". " + ms[k].title
  {
    seq(|ms|, k requires 0 <= k < |ms| => NatToString(k + 1) + ". " + ms[k].title)
  }

  /** `generateDisambiguationResponse`: the question, then every match on a numbered
      line in input order. */
  function GenerateDisambiguationResponse(kind: EntityResolver.Kind, ms: seq<EntityRef>): (r: string)
    ensures r == "Which " + KindName(kind) + " do you mean?\n" + Join(NumberedLines(ms), "\n")
    ensures StartsWith(r, "Which " + KindName(kind) + " do you mean?\n")
    ensures forall k :: 0 <= k < |ms| ==> Contains(r, NatToString(k + 1) + ". " + ms[k].title)
    ensures ms == [] ==> r == "Which " + KindName(kind) + " do you mean?\n"
  {
    var header := "Which " + KindName(kind) + " do you mean?\n";
    var lines := NumberedLines(ms);
    var r := header + Join(lines, "\n");
    assert r[..|header|] == header;
    forall k | 0 <= k < |ms|
      ensures Contains(r, NatToString(k + 1) + ". " + ms[k].title)
    {
      JoinContainsPart(lines, "\n", k);
      ContainsRight(header, Join(lines, "\n"));
      ContainsTransitive(r, Join(lines, "\n"), lines[k]);
    }
    r
  }

  /** When no label contains a line break, the question splits back into the
      header line followed by exactly one numbered line per match, in input order. */
  lemma DisambiguationReadsBack(kind: EntityResolver.Kind, ms: seq<EntityRef>)
    requires ms != []
    requires forall k :: 0 <= k < |ms| ==> '\n' !in ms[k].title
    ensures Split(GenerateDisambiguationResponse(kind, ms), '\n') ==
              ["Which " + KindName(kind) + " do you mean?"] + NumberedLines(ms)
  {
    var q := "Which " + KindName(kind) + " do you mean?";
    var lines := NumberedLines(ms);
    var all := [q] + lines;
    assert all[1..] == lines;
    assert Join(all, "\n") == q + "\n" + Join(lines, "\n");
    assert q + "\n" == "Which " + KindName(kind) + " do you mean?\n";
    assert '\n' !in q by {
      assert '\n' !in KindName(kind);
      NotInAppend("Which " + KindName(kind), " do you mean?", '\n');
      NotInAppend("Which ", KindName(kind), '\n');
    }
    forall k | 0 <= k < |all| ensures '\n' !in all[k] {
      if k > 0 {
        NumberedLineAvoidsBreak(k, ms[k - 1]);
      }
    }
    SplitJoin(all, '\n');
  }

  lemma NumberedLineAvoidsBreak(n: nat, m: EntityRef)
    requires '\n' !in m.title
    ensures '\n' !in NatToString(n) + ". " + m.title
  {
    var d := NatToString(n);
    assert '\n' !in d by {
      forall i | 0 <= i < |d| ensures d[i] != '\n' {
        assert IsDigit(d[i]);
      }
    }
    NotInAppend(d, ". ", '\n');
    NotInAppend(d + ". ", m.title, '\n');
  }
}
