# Pat Assistant: the conversational core, modelled in Dafny

Pat Assistant is a Telegram assistant for one owner, a contractor named Patrick. A
message from the owner is routed by a classifier to one of ten intents. The
project and task references the classifier extracted are resolved against the
datastore, fuzzily or through the conversation's active context. When a single
reference matches several entities, a disambiguation question is asked.
Otherwise a specialist handles the intent and its result is summarised for the
writer model. The active context is then merged with the entities the turn
resolved and saved with the reply. Around this core sit:

- the approval flow for voice-memo transcripts;
- the hourly reminders, the morning brief and the quick status line;
- the calendar token cache and the event formatters;
- the relative-date helpers used by the task specialist.

The model keeps the source's structure, one module per source file:

- Pure code becomes functions with named results and lemmas.
- Code that works by loops becomes methods with loop invariants, proved against a specification function.
- The webhook's turn becomes a class, `Webhook.Bot`. It holds the datastore, the outbox of Telegram messages and the saved conversation, and `ProcessMessage` updates them.
- The datastore is the value `Store.Db`. Handlers that write return the new `Db` next to their result.

All external calls are inputs to the model, with `None` standing for a call that throws:

- the classifier's and the specialists' language-model calls, and the writer model;
- voice transcription, semantic search and the calendar API;
- the clock, given as a `Clock` of millisecond instants.

Some behaviour of the code is kept exactly as written, because the model
follows the code:

- A successful project create or update returns a result with an `action` and
  no `task`. `buildResultSummary` sends that result down its task branch, where
  reading the missing task raises. The project is already stored when this
  happens, and the turn ends in the operator error. `Response.ProjectResultTakesTaskBranch`
  and the last ensures of `Webhook.Bot.ProcessMessage` state this.
- An empty query is contained in every label, so it scores 0.9 against any
  non-empty label, not 0 (`EntityResolver.EmptyQueryScore`).
- The router knows exactly the ten intents of `lib/utils/types.ts`. There is no
  record-request intent.
- The canned replies are prefix tests with no word boundary, so "history" gets
  the greeting reply (`Response.HistoryIsAGreeting`).
- "Smith" contains "it", so it is read as a contextual reference (`EntityResolver.SmithIsContextual`).

Helper modules:

- `Types` holds the records of `lib/utils/types.ts`.
- `Strings` holds lower-casing, trimming, containment, joining and number printing.
- `Sorting` is a stable descending insertion sort standing for `Array.prototype.sort`. It is proved sorted, stable and a permutation.
- `Store` holds the datastore queries of `lib/db/queries.ts` that the core calls.

## Model

| member | source | states |
|---|---|---|
| EntityResolver.Min3 | lib/utils/entity-resolver.ts:23-27 | the minimum of three candidates is one of them and at most each |
| EntityResolver.LevSelf | lib/utils/entity-resolver.ts:7-33 | the edit distance of a prefix to itself is 0 |
| EntityResolver.LevUpper | lib/utils/entity-resolver.ts:7-33 | the edit distance of two prefixes is at most the longer length |
| EntityResolver.LevLower | lib/utils/entity-resolver.ts:7-33 | the edit distance is at least the difference of the lengths |
| EntityResolver.LevZero | lib/utils/entity-resolver.ts:7-33 | distance 0 only between equal prefixes |
| EntityResolver.EditDistanceBounds | lib/utils/entity-resolver.ts:7-33 | distance 0 iff the strings are equal; bounded by the longer length and by the length difference; distance to "" is the length |
| EntityResolver.LevenshteinDistance | lib/utils/entity-resolver.ts:7-33 | the matrix algorithm returns the recursive edit distance |
| EntityResolver.FillRow | lib/utils/entity-resolver.ts:19-29 | filling row i makes every entry of rows 0..i the edit distance of its prefixes |
| EntityResolver.LevenSimilarity | lib/utils/entity-resolver.ts:50-54 | one minus distance over the longer length lies in [0, 1) for different strings |
| EntityResolver.RatioBounds | lib/utils/entity-resolver.ts:52 | a positive distance over a length at least as large is in (0, 1] |
| EntityResolver.SimilarityScore | lib/utils/entity-resolver.ts:38-55 | score in [0, 1]; 1 iff equal after lower-casing; 0.9 when the label contains the query, else 0.85 when the query contains the label |
| EntityResolver.EmptyQueryScore | lib/utils/entity-resolver.ts:43-46 | an empty query scores 0.9 against any non-empty label |
| EntityResolver.ProjectEntities | lib/utils/entity-resolver.ts:114-117 | every project becomes a candidate, in order |
| EntityResolver.TaskEntities | lib/utils/entity-resolver.ts:171-176 | every task becomes a candidate, in order |
| EntityResolver.Items | lib/utils/entity-resolver.ts:142 | the items of the matches, in order |
| EntityResolver.Scored | lib/utils/entity-resolver.ts:73-80 | exactly the candidates scoring at least the threshold, each with its score |
| EntityResolver.FindBestMatches | lib/utils/entity-resolver.ts:65-86 | the matches are the scored candidates, sorted by score descending, stable, as a permutation |
| EntityResolver.Boosted | lib/utils/entity-resolver.ts:120-124 | boosting keeps the number of matches |
| EntityResolver.BoostRecent | lib/utils/entity-resolver.ts:120-124 | each match keeps its item and gains 0.2 exactly when its id was recently mentioned |
| EntityResolver.Select | lib/utils/entity-resolver.ts:130-142 | at most three items, a prefix of the ranking; more than one iff the top score is below 0.9 and within 0.2 of the second; then the first three |
| EntityResolver.SmithIsContextual | lib/utils/entity-resolver.ts:97-98 | "Smith" contains "it" and counts as a contextual project and task reference |
| EntityResolver.Lookup | lib/utils/entity-resolver.ts:100 | a found entity has the requested kind and id |
| EntityResolver.FirstFound | lib/utils/entity-resolver.ts:105-110 | nothing is found iff no recently mentioned id names an entity |
| EntityResolver.FirstFoundAt | lib/utils/entity-resolver.ts:105-108 | the first recently mentioned id that names an entity is the one returned |
| EntityResolver.ContextualPick | lib/utils/entity-resolver.ts:99-110 | a contextual reference yields at most one entity |
| EntityResolver.ResolveContextual | lib/utils/entity-resolver.ts:96-111 | the current entity if it exists, else the first existing recent one, else none; always of the requested kind |
| EntityResolver.ResolveReference | lib/utils/entity-resolver.ts:92-198 | the resolution of one reference, at most three entities |
| EntityResolver.SortDescMembers | lib/utils/entity-resolver.ts:127 | re-sorting keeps exactly the same matches |
| EntityResolver.FuzzyResolutionSound | lib/utils/entity-resolver.ts:113-142 | every fuzzily resolved entity is a candidate (project filter respected) scoring at least 0.4 |
| EntityResolver.FuzzyTopIsBest | lib/utils/entity-resolver.ts:127-139 | after boosting and re-sorting the first match has the highest score |
| EntityResolver.ContextualAtMostOne | lib/utils/entity-resolver.ts:153-168 | a contextual reference resolves to at most one entity and ignores the project filter |
| EntityResolver.AddOne | lib/utils/entity-resolver.ts:216-219 | appending an entity unless its id is present keeps ids distinct, extends the list, and adds exactly that id |
| EntityResolver.AddAllFacts | lib/utils/entity-resolver.ts:216-220 | adding a match list keeps ids distinct, extends the list, and the ids present are the old ones plus the matches' |
| EntityResolver.MentionsSnoc | lib/utils/entity-resolver.ts:216-220 | the ids of a list are those of its front plus its last one |
| EntityResolver.ResolveAllDistinct | lib/utils/entity-resolver.ts:214-221 | the resolved list never holds two entries with one id |
| EntityResolver.ResolveAllPrefix | lib/utils/entity-resolver.ts:214-221 | resolving more references only appends: earlier entries keep their place |
| EntityResolver.ResolveRefs | lib/utils/entity-resolver.ts:214-232 | the loop over the references computes the specification's de-duplicated resolution |
| EntityResolver.ResolveAllNext | lib/utils/entity-resolver.ts:214-221 | one more reference adds its matches to the list so far |
| EntityResolver.AddMatches | lib/utils/entity-resolver.ts:216-220 | the inner loop adds the matches one by one, skipping ids already present |
| EntityResolver.ResolveEntities | lib/utils/entity-resolver.ts:203-235 | projects then tasks, tasks filtered by the first resolved project; both lists have distinct ids |
| EntityResolver.TaskSearchNarrowed | lib/utils/entity-resolver.ts:170-176 | with a resolved project, a fuzzily found task is an open task of that project |
| EntityResolver.SuggestsNewEntity | lib/utils/entity-resolver.ts:240-244 | a reference shorter than the shortest indicator (three characters) never suggests a new entity |
| EntityResolver.SuggestsNewEntityWithoutStarting | lib/utils/entity-resolver.ts:240-244 | "starting" is redundant: the test is the same with the first four indicators |
| EntityResolver.SuggestsNewEntityMonotone | lib/utils/entity-resolver.ts:240-244 | a text containing a text that suggests a new entity also suggests one |
| Context.Take | lib/utils/context.ts:65-66 | `slice(0, n)`: a prefix of at most n entries, the whole list when short enough |
| Context.TakeNoDup | lib/utils/context.ts:65-66 | truncation keeps a list free of duplicates |
| Context.CreateEmptyContext | lib/utils/context.ts:9-16 | no current entities and empty recent lists |
| Context.LoadActiveContext | lib/utils/context.ts:21-24 | the last saved context when there is one, else the empty context |
| Context.PrependNewFacts | lib/utils/context.ts:47-62 | prepending the unseen ids keeps the old list as a suffix, adds exactly the mentioned ids and keeps the list free of duplicates |
| Context.MergeContext | lib/utils/context.ts:36-69 | at most five recent entries each; the current ids become the last resolved project and task, or stay |
| Context.MergedLists | lib/utils/context.ts:36-69 | merged recent lists have no duplicates and hold only old or newly resolved ids |
| Context.MergeNothing | lib/utils/context.ts:36-69 | merging nothing only truncates the recent lists |
| Context.RementionedIdStaysInPlace | lib/utils/context.ts:47-53 | an id already in the recent list is not moved to the front, though it becomes current |
| Context.Remove | lib/utils/context.ts:98 | the filter drops exactly the given id, keeps the list as it is when the id is absent, and keeps it free of duplicates |
| Context.RemoveAppend | lib/utils/context.ts:98 | filtering distributes over concatenation |
| Context.RemoveAt | lib/utils/context.ts:98 | in a duplicate-free list, removing the id at offset k leaves the entries before and after it in their order |
| Context.MoveToFront | lib/utils/context.ts:96-99 | the id first, once, followed by a prefix of the filtered old list, with exactly min(5, 1 + its length) entries |
| Context.MoveToFrontOrder | lib/utils/context.ts:96-99 | a new id pushes the old list back; a listed id leaves its place and the others keep their order; then the first five |
| Context.UpdateContextWithNewTask | lib/utils/context.ts:89-101 | the new task is current and the task list is moved-to-front on it; projects unchanged |
| Context.UpdateContextWithNewProject | lib/utils/context.ts:106-118 | the new project is current and the project list is moved-to-front on it; tasks unchanged |
| Context.ClearCurrentEntities | lib/utils/context.ts:123-129 | current ids cleared, recent lists kept |
| Context.DetectTopicChange | lib/utils/context.ts:74-84 | never reports a topic change |
| Context.BuildContextSummary | lib/utils/context.ts:134-154 | "No active context." iff nothing is set; otherwise exactly the summary lines joined by newlines, opening with the current project, or else the current task |
| Context.SummaryLines | lib/utils/context.ts:137-152 | current project, current task, recently mentioned projects, recently mentioned tasks, each only when set; none exactly when the context is blank |
| Context.SummaryReadsBack | lib/utils/context.ts:134-154 | when no id holds a line break, the summary splits back into exactly its lines, in order |
| Router.FormatLine | lib/agents/router.ts:42 | the role, ": ", then the message content unchanged |
| Router.RecentMessages | lib/agents/router.ts:40 | `slice(-10)`: the last ten messages, or all of them when fewer |
| Router.FormatLines | lib/agents/router.ts:41-42 | one line per message, in order |
| Router.FormatMessagesForContext | lib/agents/router.ts:37-44 | the fixed sentence iff there are no messages; otherwise exactly the lines of the last ten messages joined by newlines, opening with the first of them |
| Router.NewestMessageLast | lib/agents/router.ts:40-43 | with two or more messages, the text ends with a line break and the newest message's line |
| Router.HistoryReadsBack | lib/agents/router.ts:37-44 | when no content holds a line break, the history splits back into one line per recent message, in order |
| Router.ShortHistoryShownWhole | lib/agents/router.ts:40 | ten messages or fewer are shown whole |
| Router.RouteFailureDefault | lib/agents/router.ts:86-97 | a failed classification is general chat with no references, no deadline, no priority, no lookup, low confidence |
| Router.RouteMessage | lib/agents/router.ts:49-99 | the classifier's answer when it gives one, else the general-chat default |
| Router.GetSpecialistAgent | lib/agents/router.ts:112-134 | task intents to the task specialist, project create/update to the project one, project and knowledge queries to the knowledge one, the schedule query to the schedule one, general chat to none; each iff |
| Router.NeedsSpecialist | lib/agents/router.ts:104-107 | a specialist is needed exactly when the routing switch names one, i.e. for every intent but general chat |
| Router.NeedsSpecialistIffNamed | lib/agents/router.ts:104-134 | an intent needs a specialist iff one is named for it |
| Types.Or | lib/agents/task.ts:161 | `a \|\| b` on optional strings: a when present and non-empty, else b |
| Types.OrNull | lib/db/queries.ts:98 | `x \|\| null`: present iff non-empty, and then x |
| Store.FreshId | lib/db/queries.ts:94-108 | the id given to an inserted row |
| Store.FreshIdInjective | lib/db/queries.ts:94-108 | different rows get different ids |
| Store.ProjectById | lib/db/queries.ts:294-303 | the project with that id when there is one; none iff no project has it |
| Store.TaskById | lib/db/queries.ts:142-151 | the task with that id when there is one; none iff no task has it |
| Store.OpenTasks | lib/db/queries.ts:243-252 | exactly the tasks that are not completed |
| Store.PendingTasks | lib/db/queries.ts:165-175 | exactly the pending tasks |
| Store.OverdueTasks | lib/db/queries.ts:177-187 | exactly the pending tasks whose deadline has passed |
| Store.TodaysTasks | lib/db/queries.ts:189-204 | exactly the pending tasks due within today's bounds |
| Store.AllMatches | lib/db/queries.ts:230-235 | exactly the open tasks whose description contains the term, ignoring case |
| Store.SearchTasks | lib/db/queries.ts:230-241 | at most ten matching open tasks: all of them when there are no more than ten, otherwise the first (newest) ten of the matches |
| Store.TasksOfProject | lib/db/queries.ts:153-163 | exactly the open tasks of the project |
| Store.ProjectByName | lib/db/queries.ts:305-315 | a project whose name equals the given one ignoring case; none iff there is none |
| Store.KnowledgeOf | lib/db/queries.ts:375-386 | exactly the knowledge rows of the project |
| Store.CreateTask | lib/db/queries.ts:86-109 | the new task has a fresh id, the given fields, priority medium by default, status pending, and goes to the front |
| Store.ReplaceTask | lib/db/queries.ts:111-124 | the row with the task's id is replaced in place, the others kept |
| Store.ReplaceTaskReadsBack | lib/db/queries.ts:111-124 | after replacing a stored task, its id reads back the new row and every other id its old one |
| Store.TouchProject | lib/db/queries.ts:279-292 | the updated project moves to the front and appears once |
| Store.Without | lib/db/queries.ts:279-292 | exactly the other projects |
| Store.WithoutReadsBack | lib/db/queries.ts:279-292 | dropping one id leaves every other id reading as before |
| Store.CreateProject | lib/db/queries.ts:256-277 | the new project has a fresh id, the given fields, status future by default, and goes to the front |
| Store.AddKnowledge | lib/db/queries.ts:352-373 | the new knowledge row has a fresh id, the given content, embedding and source type, the project id and source id with empty as null, and the creation stamp; it goes to the front |
| TaskAgent.FirstRefId | lib/agents/task.ts:161 | `refs[0]?.id`: the first reference's id, none for an empty list |
| TaskAgent.TargetTaskId | lib/agents/task.ts:183-185 | the model's task id, else the first resolved task, else the current task |
| TaskAgent.Failure | lib/agents/task.ts:151-158 | a failed result carries its action and message and no task |
| TaskAgent.HandleTaskCreate | lib/agents/task.ts:147-176 | no description gives the error and leaves the store; otherwise a pending task with the description, the first resolved project or the model's, the given priority or medium, the given deadline, no reminder or completion stamp and a fresh id, stored at the front |
| TaskAgent.BuildTaskUpdates | lib/agents/task.ts:208-215 | each update field set when given; top-level priority and deadline override the nested ones |
| TaskAgent.ApplyTaskUpdates | lib/agents/task.ts:217 | given fields replaced, all others kept |
| TaskAgent.HandleTaskUpdate | lib/agents/task.ts:178-225 | no target and a missing task give their errors and leave the store; otherwise the result and the stored row are the found task revised by the request |
| TaskAgent.Revised | lib/agents/task.ts:208-217 | the revised task keeps id, project and both stamps; description, status, priority and deadline come from the request when given, the top-level priority and deadline first |
| TaskAgent.UpdateIsStored | lib/agents/task.ts:217-224 | after a successful update the store returns the revised task for its id and the old row for every other id |
| TaskAgent.MarkCompleted | lib/db/queries.ts:126-140 | same task, status completed, completion time now |
| TaskAgent.HandleTaskComplete | lib/agents/task.ts:227-264 | no target and a missing task give their errors; otherwise the found task is completed in place |
| TaskAgent.CompletionLeavesOpenTasks | lib/agents/task.ts:256 | a completed task leaves the open list and every other open task stays |
| TaskAgent.QueryProjectId | lib/agents/task.ts:274-276 | the first resolved project, else the model's project id, else the current project |
| TaskAgent.HandleTaskQuery | lib/agents/task.ts:266-314 | a successful query: project tasks by resolved, given or current project, overdue, today's, search by term; pending tasks otherwise |
| TaskAgent.HandleTaskIntent | lib/agents/task.ts:103-145 | a failed model call gives the apology, an unknown action its error; create, complete, update and query answer exactly as their handlers (gathered in `IntentAnswered`); a query leaves the store; a successful non-query result has a task |
| ProjectAgent.FieldValue | lib/agents/project.ts:159-161 | a given field has a value; null and undefined have none |
| ProjectAgent.Failure | lib/agents/project.ts:100-104 | a failed result carries its action and message and no project |
| ProjectAgent.HandleProjectCreate | lib/agents/project.ts:96-120 | no name gives the error and leaves the store; otherwise a project with the name, the given status or future, the given address and project type (null when absent or empty), a fresh id, stored at the front, tasks and knowledge unchanged |
| ProjectAgent.TargetProjectId | lib/agents/project.ts:127-129 | the model's project id, else the first resolved project, else the current project |
| ProjectAgent.BuildProjectUpdates | lib/agents/project.ts:149-162 | the name when non-empty, the status when given; a null field clears, an undefined one is left out |
| ProjectAgent.ApplyProjectUpdates | lib/db/queries.ts:279-292 | fields present in the update replaced, the others kept, id unchanged |
| ProjectAgent.HandleProjectUpdate | lib/agents/project.ts:122-171 | no target and a missing project give their errors and leave the store; otherwise the found project revised by the request is returned and stored at the front |
| ProjectAgent.Overwrite | lib/agents/project.ts:159-164 | an undefined field keeps the column, null clears it, a given value replaces it |
| ProjectAgent.Revised | lib/agents/project.ts:149-164 | the revised project keeps its id; a non-empty name and a given status replace the old ones; client, address and type are overwritten per field |
| ProjectAgent.UpdateIsStored | lib/db/queries.ts:279-292 | after a successful update the store returns the revised project for its id and the old row for every other id |
| ProjectAgent.HandleProjectIntent | lib/agents/project.ts:69-94 | a failed model call gives the apology; "create" goes to creation, anything else answers exactly as the update handler; an error result has no project and leaves the store; tasks and knowledge never change |
| ProjectAgent.NullClearsUndefinedKeeps | lib/agents/project.ts:159-164 | a null address clears it, an undefined one keeps it, a given one sets it |
| Response.FormatTaskForResponse | lib/agents/response.ts:47-60 | exactly the description, then " - due <date>" when a deadline is set, then " - (<priority> priority)" unless medium; each of the four combinations stated |
| Response.FromTaskResult | lib/agents/response.ts:93-94 | a task result has a truthy action and carries its task and error |
| Response.FromProjectResult | lib/agents/response.ts:119-120 | a project result has a truthy action, no task field, and carries its project and error |
| Response.FromKnowledgeResult | lib/agents/response.ts:135-136 | a knowledge result has no action and no project, and carries its answer |
| Response.ObjectSummary | lib/agents/response.ts:88-140 | with an action an error wins; the summary raises exactly when an action is created/updated/completed with no task; an empty query gives "No matching tasks found."; completion names the task; otherwise a project error is reported and an empty result is "Result processed." |
| Response.TaskLines | lib/agents/response.ts:74 | one "- task" line per task, in order |
| Response.TaskSection | lib/agents/response.ts:72-75 | a "Tasks (n):" header then one line per task, nothing when there are none |
| Response.EventSection | lib/agents/response.ts:77-83 | a blank line and "Calendar events:" then one "- time: summary" line per event, nothing when there are none |
| Response.EventLines | lib/agents/response.ts:79-82 | one line per event, in order |
| Response.OrEmpty | lib/agents/response.ts:72 | a missing list counts as empty |
| Response.PushTaskSection | lib/agents/response.ts:72-75 | the loop appends exactly the task section to the parts |
| Response.PushEventSection | lib/agents/response.ts:77-83 | the loop appends exactly the event section to the parts |
| Response.ScheduleSummary | lib/agents/response.ts:69-86 | both lists empty give "No tasks or events today."; otherwise the two sections newline-joined |
| Response.BuildResultSummary | lib/agents/response.ts:62-141 | an explicit error wins; the schedule query lists tasks and events; no result gives "No result from specialist agent."; otherwise the result summary |
| Response.ScheduleOpensWithTaskCount | lib/agents/response.ts:72-73 | with tasks, the schedule summary starts with the task count header |
| Response.ProjectResultTakesTaskBranch | lib/agents/response.ts:93-108 | a successful project result enters the task branch and raises; a failed one is summarised as its error |
| Response.TaskBranchNeverProjectLine | lib/agents/response.ts:93-132 | no text the task branch produces starts with "Project " |
| Response.KnowledgeResultSummary | lib/agents/response.ts:135-138 | a knowledge result is summarised as its answer followed by its confidence |
| Response.GenerateResponse | lib/agents/response.ts:146-168 | a raising summary propagates; the generated text trimmed; the apology when generation throws |
| Response.AnyPrefix | lib/agents/response.ts:179-182 | true exactly when the text starts with one of the alternatives |
| Response.FirstCanned | lib/agents/response.ts:186-190 | some reply exactly when some row matches, and then the reply of the first matching row |
| Response.GenerateGeneralChatResponse | lib/agents/response.ts:173-207 | the first matching canned reply for the lower-cased trimmed message, else the trimmed generated text, else the apology |
| Response.HistoryIsAGreeting | lib/agents/response.ts:181 | "history" matches the unanchored-at-the-end "hi" pattern and gets "What do you need?" |
| Response.HistoryIsNormal | lib/agents/response.ts:185 | lower-casing and trimming leave "history" unchanged |
| Response.HistoryRow | lib/agents/response.ts:179-181 | the first two rows do not match "history" and the third does |
| Response.NoPrefixDiffersAt | lib/agents/response.ts:179-182 | a row whose alternatives all differ from the text at one offset does not match |
| Response.NumberedLines | lib/agents/response.ts:216-219 | the k-th label line is "k+1. label" |
| Response.GenerateDisambiguationResponse | lib/agents/response.ts:212-222 | exactly "Which <kind> do you mean?", a line break and the numbered matches joined by newlines; every match's line is contained |
| Response.DisambiguationReadsBack | lib/agents/response.ts:212-222 | when no label holds a line break, the question splits back into the header line and one numbered line per match, in order |
| Webhook.OperatorError | lib/services/telegram.ts:143-146 | the operator message starts with the apology and ends with the failing stage as context |
| Webhook.Echo | app/api/telegram/webhook/route.ts:65 | a transcript of at most 100 characters is quoted whole; a longer one is exactly its first 100 characters quoted and followed by "..." |
| Webhook.Disambiguation | app/api/telegram/webhook/route.ts:109-121 | a project question exactly when one project was named and several resolved; else a task question exactly when one task was named and several resolved |
| Webhook.Respond | lib/agents/response.ts:146-168 | the reply is the generator applied to the result's summary; for the schedule query it is the trimmed generated text, or the apology when generation failed, and the fixed sentence is what it summarises when the schedule is empty |
| Webhook.Dispatch | app/api/telegram/webhook/route.ts:135-203 | general chat changes nothing; a task intent gives the task specialist's exact answer and store (`IntentAnswered`, keyed on the requested action) as the result, and a created task becomes current; a successful project result raises while its store change stays; queries leave the store and context alone; the schedule reply is the trimmed generated text or the apology |
| Webhook.Bot.constructor | app/api/telegram/webhook/route.ts:43 | a bot with the given owner and store, nothing sent and nothing saved |
| Webhook.Bot.ProcessMessage | app/api/telegram/webhook/route.ts:43-218 | the turn ends in exactly one of refused (non-owner), voice failure, ignored (blank), question, answer or operator error, each with its messages sent, conversation saved and store change; for a task intent the store is what the task specialist leaves and the reply is written from its answer (`TaskAnswered`); a created project is stored yet the turn ends in the operator error |
| Webhook.Bot.Hear | app/api/telegram/webhook/route.ts:53-75 | a voice transcript is echoed first; a blank text ends the turn with nothing saved; otherwise the conversation follows, with the task specialist's answer, store and reply for a task intent |
| Webhook.Bot.Converse | app/api/telegram/webhook/route.ts:85-121 | the user message is saved with the loaded context; a question is asked exactly when disambiguation is needed, and is sent and saved without touching the store; otherwise a task intent ends with the task specialist's answer, store and reply |
| Webhook.Bot.Answer | app/api/telegram/webhook/route.ts:123-217 | a reply is sent and saved with the context merged from the pre-dispatch context; a raised summary sends only the operator error and saves nothing; for a task intent the store, the reply and the context are those of the task specialist's answer |
| Webhook.ResolvedTaskOverridesCreated | app/api/telegram/webhook/route.ts:152-154 | a task resolved in the message replaces a just-created task as current; with none resolved the created task stays current |
| Approval.EditKey | lib/agents/approval.ts:123 | the sort key is the task index (0 when absent), never negative, and below the length of any list the edit targets |
| Approval.ApplyEdit | lib/agents/approval.ts:126-170 | remove deletes the indexed entry exactly when the index is in range; a description update needs a non-empty value and changes only that entry; deadline and project become the value or null; add appends an entry with null project, deadline and priority; the length grows only by add and shrinks only by remove |
| Approval.ApplyAllNext | lib/agents/approval.ts:125 | applying one more edit of the list applies it to the result so far |
| Approval.ApplyEdits | lib/agents/approval.ts:109-174 | no edits returns the input itself; knowledge and new projects are unchanged; the tasks are the edits applied in descending-index order |
| Approval.AppliedOrder | lib/agents/approval.ts:123 | the applied order is non-increasing in index (absent as 0), a permutation of the edits, and stable for equal indices |
| Approval.ApplyAllLength | lib/agents/approval.ts:125-170 | the list shrinks by at most the number of removals and grows by at most the number of additions; with neither its length is unchanged |
| Approval.TwoRemovalsHitTheirTargets | lib/agents/approval.ts:122-131 | two removals, given in either order, delete exactly the two numbered entries |
| Approval.SortTwoRemovals | lib/agents/approval.ts:123 | the higher index is applied first |
| Approval.RemoveHighThenLow | lib/agents/approval.ts:127-131 | removing the higher entry then the lower one deletes both |
| Approval.ApplyTwo | lib/agents/approval.ts:125 | two edits are applied in turn |
| Approval.SliceAfterRemoval | lib/agents/approval.ts:129 | removing a lower entry after a higher one leaves the other entries in order |
| Transcript.ProcessTranscript | lib/agents/transcript.ts:58-73 | a failed extraction gives three empty lists; otherwise the extracted result |
| Transcript.ProjectNames | lib/agents/transcript.ts:179 | the new projects' names, in order |
| Transcript.TaskLine | lib/agents/transcript.ts:185-186 | an indented "- description", with " [project]" only when the project name is non-empty, and nothing else in between |
| Transcript.TaskLines | lib/agents/transcript.ts:184-187 | one line per task, in order |
| Transcript.TaskSection | lib/agents/transcript.ts:182-191 | nothing without tasks; otherwise the count header, at most five task lines, and the "... and N more" line exactly when there are more than five |
| Transcript.ProjectSection | lib/agents/transcript.ts:178-180 | nothing without new projects; otherwise one line listing their names comma-separated |
| Transcript.KnowledgeSection | lib/agents/transcript.ts:193-195 | nothing without knowledge; otherwise one line with the count |
| Transcript.SummaryParts | lib/agents/transcript.ts:176-195 | no lines exactly when all three lists are empty |
| Transcript.PushTaskSection | lib/agents/transcript.ts:182-191 | the loop appends exactly the task section |
| Transcript.GenerateTranscriptSummary | lib/agents/transcript.ts:175-202 | "Nothing to extract from this transcript." when there are no lines, else the sections newline-joined |
| Transcript.NothingIffEmpty | lib/agents/transcript.ts:197-201 | a non-empty summary never equals the nothing-to-extract sentence, so that sentence appears exactly when all lists are empty |
| Transcript.SummaryOpening | lib/agents/transcript.ts:178-195 | the first line opens with the header of the first section present: new projects, else tasks, else knowledge |
| Transcript.HeaderIsNotNothing | lib/agents/transcript.ts:178-198 | none of the three section headers opens the nothing-to-extract sentence |
| Transcript.MoreLineIffOverFive | lib/agents/transcript.ts:188-190 | the "more" line is present exactly when there are more than five tasks |
| Transcript.ProjectStep | lib/agents/transcript.ts:94-113 | a nameless project is skipped; an existing one is only recorded in the lower-cased name map; otherwise it is created as a future project with the extracted client name and project type (empty as null) and no address, recorded and counted; tasks and knowledge are untouched |
| Transcript.LinkedProjectId | lib/agents/transcript.ts:119-124 | no project name gives null; an existing project of that name wins over the map; the result is never an empty id |
| Transcript.TaskStep | lib/agents/transcript.ts:116-134 | a task without description is skipped; otherwise it is created pending with its linked project, medium as default priority, the converted deadline (null when absent) and no reminder or completion stamp, and counted |
| Transcript.KnowledgeStep | lib/agents/transcript.ts:137-163 | an item without content is skipped; otherwise it is stored as meeting knowledge with its linked project, its embedding (absent when the embedding fails), the transcript's source id and the commit's stamp, and counted |
| Transcript.CommitProjects | lib/agents/transcript.ts:94-113 | the loop performs the project steps in order |
| Transcript.CommitTasks | lib/agents/transcript.ts:116-134 | the loop performs the task steps in order |
| Transcript.CommitKnowledge | lib/agents/transcript.ts:137-163 | the loop performs the knowledge steps in order |
| Transcript.CommitTranscriptData | lib/agents/transcript.ts:79-170 | projects, then tasks, then knowledge; the task count equals the described tasks, the knowledge count the items with content, and the project count only real creations; each store list grows by its count; every added knowledge row is meeting knowledge carrying the source id and stamp, in front of the old rows |
| Transcript.ProjectsCount | lib/agents/transcript.ts:94-113 | the project count grows with the project list and never past the named projects; nothing else changes |
| Transcript.TasksCount | lib/agents/transcript.ts:116-134 | every described task is created and counted, and only those |
| Transcript.KnowledgeTagged | lib/agents/transcript.ts:137-163 | the rows the knowledge loop adds sit in front of the old ones, and each is meeting knowledge with the source id and the stamp |
| Transcript.KnowledgeCount | lib/agents/transcript.ts:137-163 | every item with content is stored and counted, and only those |
| Transcript.RepeatedNewProjectCreatedOnce | lib/agents/transcript.ts:97-102 | a new project named twice is created once, the second time found by name |
| Reminder.PacificHour | lib/agents/reminder.ts:153 | the Pacific hour lies in 0..23 and is the UTC hour eight hours back, modulo 24 |
| Reminder.ShouldSendReminders | lib/agents/reminder.ts:151-165 | true exactly on hours 11, 15 and 19, or on hours 10, 14 and 18 at minute 30 or later |
| Reminder.DaysOverdue | lib/agents/reminder.ts:26 | the whole days since the deadline, rounded down; positive exactly when a full day has passed |
| Reminder.PriorityTag | lib/agents/reminder.ts:33-37 | "[URGENT]" for urgent, "[high priority]" for high, nothing for the others |
| Reminder.ReminderParts | lib/agents/reminder.ts:21-37 | the quoted description first, then at most two more parts |
| Reminder.FormatTaskForReminder | lib/agents/reminder.ts:20-40 | starts with the quoted description; is only that without an overdue clause and tag; contains the overdue clause when a day or more has passed; ends with the tag when there is one |
| Reminder.ReminderJoinFacts | lib/agents/reminder.ts:28-39 | the joined text ends with the tag and contains the overdue clause when these are present |
| Reminder.OverdueIsSecond | lib/agents/reminder.ts:28-30 | the overdue clause directly follows the description |
| Reminder.TagIsLast | lib/agents/reminder.ts:33-37 | the priority tag is the last part |
| Reminder.OverdueClauseNumber | lib/agents/reminder.ts:29 | "day" exactly for one day, "days" otherwise |
| Reminder.TasksNeedingReminder | lib/db/queries.ts:206-219 | exactly the pending tasks whose deadline has passed and that were not reminded within the last day |
| Reminder.Urgents | lib/agents/reminder.ts:61 | exactly the urgent tasks |
| Reminder.Highs | lib/agents/reminder.ts:62 | exactly the high-priority tasks |
| Reminder.Others | lib/agents/reminder.ts:63 | exactly the tasks that are neither urgent nor high |
| Reminder.WithPriority | lib/agents/reminder.ts:61-63 | exactly the tasks of the kept priorities, never more than given |
| Reminder.GroupsPartition | lib/agents/reminder.ts:61-63 | the urgent, high and other groups together have as many tasks as were fetched |
| Reminder.Labelled | lib/agents/reminder.ts:67-69 | one labelled line per task, in order |
| Reminder.OthersShown | lib/agents/reminder.ts:69 | at most five of the other tasks, and all of them when there are fewer |
| Reminder.ReminderLines | lib/agents/reminder.ts:66-70 | every urgent task, then every high task, then at most five others, each labelled and in fetch order |
| Reminder.FewOthersAllListed | lib/agents/reminder.ts:66-70 | with at most five other tasks every fetched task is listed |
| Reminder.Ids | lib/agents/reminder.ts:86 | the ids of the fetched tasks, in order |
| Reminder.StampReminded | lib/db/queries.ts:221-228 | every task whose id is listed gets the new reminder stamp; the others are unchanged |
| Reminder.GenerateReminders | lib/agents/reminder.ts:45-100 | no due task or a failed writer call gives empty reminders and ids with no writes; otherwise the trimmed reply, the ids of every due task, and a stamp on every due task, listed or not |
| DateHelpers.Weekday | lib/utils/date-helpers.ts:84 | the weekday lies in 0..6 |
| DateHelpers.FirstDayName | lib/utils/date-helpers.ts:80-82 | the first day name in Sunday-to-Saturday order that the text contains; none exactly when no name occurs |
| DateHelpers.DigitRun | lib/utils/date-helpers.ts:128 | the maximal run of digits from an offset |
| DateHelpers.FirstMatch | lib/utils/date-helpers.ts:128-130 | a number exactly when "in N <unit>" occurs, and then the number of the leftmost occurrence |
| DateHelpers.FirstMatchStep | lib/utils/date-helpers.ts:128 | a miss at one offset passes the leftmost match of the rest back |
| DateHelpers.Classify | lib/utils/date-helpers.ts:29-148 | the guard chain in order: a missing or empty input is blank; each phrase (ISO, the same-day phrases at 17, 9 or 14, "tomorrow", the first day name in Sunday-to-Saturday order, "next week", "end of (the) week", exact "asap"/"immediately"/"now", the first "in N day", the first "in N hour") is chosen exactly when its test holds and every earlier one failed, with N the leftmost match's number; otherwise unrecognised |
| DateHelpers.TomorrowHour | lib/utils/date-helpers.ts:67-75 | 9, 14 or 18; 18 exactly for evening or night without morning or afternoon |
| DateHelpers.DayNameHour | lib/utils/date-helpers.ts:90-98 | 9, 14 or 18; 18 exactly for evening without morning or afternoon; "night" is not read |
| DateHelpers.DaysUntil | lib/utils/date-helpers.ts:85-86 | one to seven days ahead, landing on the target weekday; seven exactly when it is today's weekday |
| DateHelpers.DaysUntilFriday | lib/utils/date-helpers.ts:114 | one to seven days ahead, landing on a Friday; seven exactly on a Friday |
| DateHelpers.PlusHours | lib/utils/date-helpers.ts:142 | N hours later, rolling into later days, with minutes and seconds kept |
| DateHelpers.WeekdayShift | lib/utils/date-helpers.ts:87 | weekdays advance with days modulo seven |
| DateHelpers.NextWeekday | lib/utils/date-helpers.ts:83-87 | one to seven days ahead on the named weekday; a week ahead for today's weekday |
| DateHelpers.NextFriday | lib/utils/date-helpers.ts:113-117 | one to seven days ahead on a Friday at 17:00 |
| DateHelpers.Resolve | lib/utils/date-helpers.ts:35-144 | the moment each rule sets: ISO text normalised or null when invalid; same day at the phrase's hour; asap today at 17:00; tomorrow at its hour; a weekday 1..7 days ahead at its hour (`NextWeekday`); next week +7 days at 9; end of week next Friday at 17 (`NextFriday`); in N days at 9; in N hours with minutes kept; minutes, seconds and milliseconds zero wherever an hour is set |
| DateHelpers.ConvertRelativeDate | lib/utils/date-helpers.ts:28-149 | a missing or empty input and an unrecognised phrase give null; a converted result is the deadline `Resolve` gives the classified phrase; a resolved moment outside the Date range raises a RangeError, and only then; every local result is in range and today or later |
| DateHelpers.FarFutureThrows | lib/utils/date-helpers.ts:127-134 | "in N days" past the last representable day raises a RangeError instead of giving a deadline |
| DateHelpers.SameDayBeforeTomorrow | lib/utils/date-helpers.ts:44-48 | "end of day tomorrow" means today at 17:00 (a RangeError only outside the Date range) |
| DateHelpers.DayNameBeforeNextWeek | lib/utils/date-helpers.ts:80-104 | a text naming a day takes the day-name rule, with the earliest name in Sunday-to-Saturday order |
| DateHelpers.ContainsEmptyNot | lib/utils/date-helpers.ts:44 | a text containing a non-empty phrase is not empty |
| Calendar.TokenCache.constructor | lib/services/calendar.ts:7-8 | the cache starts with no token and expiry 0 |
| Calendar.TokenCache.GetAccessToken | lib/services/calendar.ts:13-44 | a token with more than a minute left is returned and the cache is unchanged; otherwise a failed refresh throws and leaves the cache alone, and a successful one stores the token with expiry the refresh time plus its lifetime in milliseconds |
| Calendar.RefreshThenReuse | lib/services/calendar.ts:15-17 | after a refresh, the next call reuses the token exactly while it is non-empty and more than a minute from expiry, and refreshes again otherwise |
| Calendar.FirstOf | lib/services/calendar.ts:117-118 | the date-time, else the date, else the empty text |
| Calendar.MapEvent | lib/services/calendar.ts:114-120 | id and location kept; summary "No title" when absent; start and end from the date-time, else the date, else empty |
| Calendar.MapEvents | lib/services/calendar.ts:114 | a missing item list gives no events; otherwise one mapped event per item, in order |
| Calendar.DisplayHour | lib/services/calendar.ts:156 | hour 0 and 12 display as 12, 1..11 as themselves, 13..23 as the hour minus 12 |
| Calendar.TwoDigits | lib/services/calendar.ts:157 | exactly two digits that read back as the minutes |
| Calendar.Meridiem | lib/services/calendar.ts:155 | "am" exactly before noon, "pm" otherwise |
| Calendar.ClockText | lib/services/calendar.ts:151-160 | the display hour, a colon and the two-digit minutes, then the meridiem, and nothing else in between |
| Calendar.FormatEventTime | lib/services/calendar.ts:151-160 | a readable start prints as its clock text; an unreadable one (the empty start of an event with neither date-time nor date) as "12:NaNam" |
| Calendar.InvalidTimeDistinct | lib/services/calendar.ts:151-160 | no clock time prints as "12:NaNam" |
| Calendar.ClockTextInjective | lib/services/calendar.ts:151-160 | two clock times that print the same are the same time |
| Calendar.ColonAt | lib/services/calendar.ts:159 | the offset of the first colon lies within the text |
| Calendar.ColonAfterDigits | lib/services/calendar.ts:159 | in the printed time the first colon ends the hour digits |
| Calendar.EventText | lib/services/calendar.ts:170-173 | time, a space and the summary, followed by " at <location>" only when there is a location, and nothing else in between |
| Calendar.EventTexts | lib/services/calendar.ts:170-174 | one line per event, in order |
| Calendar.FormatEventsForMessage | lib/services/calendar.ts:165-175 | "No calendar events today." for no events, otherwise the event lines newline-joined, starting with the first |
| Calendar.EventsAllListed | lib/services/calendar.ts:170-174 | every event's line appears in the message |
| KnowledgeAgent.QuestionProjectId | lib/agents/knowledge.ts:43-44 | the first resolved project's id when it is non-empty, else the context's current project |
| KnowledgeAgent.ConfidenceFor | lib/agents/knowledge.ts:92-97 | high exactly for three or more chunks, medium for one or two, low for none |
| KnowledgeAgent.ConfidenceMonotone | lib/agents/knowledge.ts:92-97 | more chunks never lower the confidence |
| KnowledgeAgent.ChunkLine | lib/agents/knowledge.ts:31-33 | "[i+1] (", the date text, ", ", the source type, "): " and the chunk's content |
| KnowledgeAgent.ChunkLines | lib/agents/knowledge.ts:31-34 | one numbered line per chunk, in order |
| KnowledgeAgent.FormatKnowledgeChunks | lib/agents/knowledge.ts:26-35 | the fixed sentence for no chunks, otherwise the numbered chunks separated by blank lines, starting at [1] |
| KnowledgeAgent.ChunksAllNumbered | lib/agents/knowledge.ts:31-34 | every chunk appears under its own number |
| KnowledgeAgent.Sources | lib/agents/knowledge.ts:101-104 | one source per chunk with its content and creation time, in order |
| KnowledgeAgent.HandleKnowledgeQuery | lib/agents/knowledge.ts:40-115 | a failed answer call gives the apology with no sources and low confidence; otherwise the trimmed answer with the search results, or the project's knowledge when the search fails and a project is known, or nothing; sources are non-empty exactly when confidence is not low |
| KnowledgeAgent.OrText | lib/agents/knowledge.ts:146-148 | the value when present and non-empty, else the placeholder |
| KnowledgeAgent.StatusSummary | lib/agents/knowledge.ts:145-148 | exactly "<name> is <status>.", then Client (or "Unknown"), Type and Address (or "Not specified") on their own lines, joined by newlines; opens with the name line and ends with the address |
| KnowledgeAgent.StatusReadsBack | lib/agents/knowledge.ts:145-148 | when name and columns hold no line break, the summary splits back into its four lines |
| KnowledgeAgent.NoteLines | lib/agents/knowledge.ts:151-153 | one "- content" line per note, in order |
| KnowledgeAgent.RecentKnowledge | lib/agents/knowledge.ts:142-143 | at most the first five of the project's notes, all of them when there are fewer |
| KnowledgeAgent.HandleProjectQuery | lib/agents/knowledge.ts:120-170 | no project id asks which project, an unknown one answers "Project not found.", both with low confidence; a found project answers with high confidence and its recent notes as the sources, the answer being its status summary alone or followed by "Recent notes:" and one "- " line per recent note |
| KnowledgeAgent.RecentNotesReadBack | lib/agents/knowledge.ts:150-157 | when no note holds a line break, the answer is the status summary and the "Recent notes:" header, then splits back into one "- " line per recent note, in order |
| Briefing.FormatTaskForBrief | lib/agents/briefing.ts:44-52 | the description, followed by "(<priority> priority)" only for high and urgent, and nothing else |
| Briefing.DaysClause | lib/agents/briefing.ts:61 | " (N day overdue)" with "day" exactly for one day and "days" otherwise |
| Briefing.FormatOverdueTask | lib/agents/briefing.ts:54-62 | a task without deadline shows only its description; otherwise the description and the whole days since the deadline |
| Briefing.TodayBullets | lib/agents/briefing.ts:83-84 | one "- " line per task due today, in order |
| Briefing.OverdueBullets | lib/agents/briefing.ts:87-88 | one "- " line per overdue task, in order |
| Briefing.TodaysTasksList | lib/agents/briefing.ts:82-84 | the placeholder for no tasks, otherwise exactly the bullets joined by newlines, starting with the first |
| Briefing.TodaysTasksReadBack | lib/agents/briefing.ts:82-84 | when no description holds a line break, the list splits back into one bullet per task, in order |
| Briefing.OverdueList | lib/agents/briefing.ts:86-88 | the placeholder for no overdue tasks, otherwise exactly the bullets joined by newlines, starting with the first |
| Briefing.OverdueReadBack | lib/agents/briefing.ts:86-88 | when no description holds a line break, the list splits back into one bullet per overdue task, in order |
| Briefing.CalendarList | lib/agents/briefing.ts:90-92 | the placeholder for no events |
| Briefing.CalendarGuardRedundant | lib/agents/briefing.ts:90-92 | the guard gives what the event formatter gives on its own |
| Briefing.DailyBrief | lib/agents/briefing.ts:67-129 | a failed writer call gives the apology and no ids; otherwise the trimmed text and today's ids followed by the overdue ids |
| Briefing.DueEarlierTodayListedTwice | lib/agents/briefing.ts:113-116 | a task due earlier today is listed twice, since the ids are not de-duplicated |
| Briefing.QuickStatusCounts | lib/agents/briefing.ts:135-143 | the due-today, overdue and open counts, with urgent and high counted among pending tasks, and together never more than the open ones |
| Briefing.QuickStatus | lib/agents/briefing.ts:134-145 | exactly "<today> due today, <overdue> overdue, <open> total open. <urgent> urgent, <high> high priority." over the proved counts |
| Sorting.SortDesc | lib/utils/entity-resolver.ts:83 | the sorted list is a permutation of the input |
| Sorting.SortDescSorted | lib/utils/entity-resolver.ts:83 | the result is non-increasing in the key |
| Sorting.SortDescStable | lib/utils/entity-resolver.ts:83 | elements with equal keys keep their input order, as the stable array sort does |
| Sorting.SortDescOfSorted | lib/utils/entity-resolver.ts:127 | re-sorting an already sorted list leaves it as it is |
| Sorting.InsertPermutes | lib/utils/entity-resolver.ts:83 | inserting adds exactly the one element |
| Sorting.InsertSorted | lib/utils/entity-resolver.ts:83 | inserting into a sorted list keeps it sorted |
| Sorting.InsertTies | lib/utils/entity-resolver.ts:83 | inserting places the new element before those with an equal key; the others keep their order |
| Sorting.SortedTail | lib/utils/entity-resolver.ts:83 | the tail of a sorted list is sorted |
| Strings.Lower | lib/utils/entity-resolver.ts:39-40 | lower-casing keeps the length and maps each character on its own |
| Strings.LowerIdempotent | lib/utils/entity-resolver.ts:39-40 | lower-casing twice is lower-casing once |
| Strings.TrimStart | lib/agents/response.ts:185 | a suffix of the text that starts with a non-space, having dropped only spaces |
| Strings.TrimEnd | lib/agents/response.ts:185 | a prefix of the text that ends with a non-space, having dropped only spaces |
| Strings.TrimEmptyIffBlank | app/api/telegram/webhook/route.ts:73 | trimming gives the empty text exactly when the text is all white space, in the JavaScript sense including no-break and other Unicode spaces |
| Strings.NatToString | lib/agents/response.ts:73 | a non-empty run of digits |
| Strings.ParseNatToString | lib/agents/response.ts:73 | the printed number reads back as the number |

## Left out

- Network and storage I/O: Telegram sends, typing indicators, voice download, the transcription service, the language-model calls, semantic search, the embedding service, the calendar HTTP calls and every datastore call are inputs or `Store` functions. Their failures are modelled only where the code catches them: a transcription failure, a summary that raises, a model call that throws, a failed token refresh, and a search that throws.
- Throws from datastore reads and writes, and from other calls the model treats as total. Where they happen decides what the source does:
  - Inside the task, project and knowledge-query specialists, the daily brief and the reminders, a throw is caught. The specialist then returns its fixed failure result: lib/agents/task.ts:136 (queried, the apology), lib/agents/project.ts:86 (created, no project, the apology), lib/agents/knowledge.ts:107 (the apology, low confidence), lib/agents/reminder.ts:93 and lib/agents/briefing.ts:122 (their fallbacks). So a failing `createTask` or `getTaskById` still ends in an answered turn. The model gives these results only for the failures it does model (a model call that throws, a search that throws); a failing datastore call inside a specialist is not modelled.
  - Only the route's own reads and writes, and `handleProjectQuery`, which has no try (lib/agents/knowledge.ts:120-170), reach the operator error (app/api/telegram/webhook/route.ts:214-217). The model reaches it only through the summary that raises.
- Prompt texts and the prompt formatters (`formatContextForPrompt` in lib/agents/task.ts and lib/agents/project.ts, the approval and transcript prompts). They only shape text sent to a language model whose answer is an input.
- `interpretApprovalResponse` and `processTranscript`'s extraction: these are language-model calls. Their decoded results are inputs to `Approval.ApplyEdits` and `Transcript.ProcessTranscript`.
- `extractProjectName`: it relies on regular-expression capture semantics.
- `getCurrentPSTDateTime` and every locale rendering (`toLocaleDateString`, `toLocaleTimeString`): these are Intl formatting. They are parameters (`dateText`, `timeText`, `timeOf`). `timeOf` gives `None` where the platform would build an Invalid Date.
- Time zones and daylight saving: an instant and its local wall-clock reading are separate inputs. `getTodaysEvents`' offset arithmetic and the bounds of "today" in `getTodaysTasks` are given through `Clock`.
- `DateHelpers.ConvertRelativeDate`: the ISO branch delegates to the platform's date parser. `normalise` stands for it, with `None` for an invalid date. Local results are wall-clock `Moment`s rather than ISO strings, and the conversion to UTC text is left out.
- DateHelpers.ConvertRelativeDate: the Date range check is applied to the local wall-clock reading, with the zone offset ignored, so near the range's ends the boundary may be off by that offset. `parseInt` of a very long digit run loses precision as a double; the model reads it exactly.
- The task specialist receives deadlines as instants. The parsing of the deadline text a language model returns is not part of this model.
- `EntityResolver.SimilarityScore`: scores are exact rationals. The source uses IEEE doubles, so a gap of exactly 0.2, or a value near it, may compare differently there.
- `Sorting.SortDesc`: `Array.prototype.sort` is modelled as a stable insertion sort. The language guarantees stability, but not the algorithm, which does not matter for the result.
- The datastore's ordering clauses by priority and deadline (`getPendingTasks`, `getOverdueTasks`, `getTodaysTasks`, `getTasksNeedingReminder`): the filters keep the stored order (newest first) instead. Membership, counts and the properties proved do not depend on it.
- `ilike` patterns: a search term containing `%` or `_` is matched literally here. A project name is compared by whole-text equality after lower-casing.
- Strings.Lower: only ASCII letters are lowered and every other character is kept, so the length never changes. JavaScript's `toLowerCase` also lowers non-ASCII letters and can change the length ("İ" becomes two code units). There is no Unicode case folding or normalisation.
- `Webhook.Echo`: lengths and the 100-character cut count characters, not UTF-16 code units.
- EntityResolver.EditDistance, `EntityResolver.LevenshteinDistance` and `EntityResolver.SimilarityScore`: like every string length in this model, they count Unicode scalar values, whereas `.length` and `charAt` count UTF-16 code units. For text outside the Basic Multilingual Plane the results differ. For example, "🏠a" and "🏡a" are at distance 1 in both, but JavaScript divides by a longest length of 3 and scores 0.667, while the model divides by 2 and scores 0.5.
- `Reminder.DaysOverdue` and `Briefing.DaysClause`: whole days are computed by exact integer division. `Math.floor` on a double gives the same result for instants in the safe-integer range.
- `Approval.ApplyEdits`: task indices are natural numbers. A negative index, which passes the source's upper-bound check and makes `splice` count from the end, is not modelled.
- `Approval.ApplyEdits`: the defensive copy is implicit, because values cannot be mutated. That the input arrays are unchanged therefore holds by construction and is not a separate statement.
- `generateTaskReminder`: it only builds a prompt for a model call and has a fallback text. It is not part of the reminder flow modelled here.
- `loadActiveContext`, `loadTodaysMessages`, `getOrCreateConversation` and `saveMessage`: the last saved context is an input (`lastContext`). The day's messages feed only prompts and the router's history excerpt (`Router.FormatMessagesForContext`). Saved messages are the `conversation` field of `Webhook.Bot`.
- The POST and GET handlers of the webhook: secret verification, JSON decoding and the fire-and-forget call (app/api/telegram/webhook/route.ts:220-250). The turn is modelled as one sequential call, and the `Promise.all` fan-outs as sequential reads.
- `Calendar.TokenCache.GetAccessToken`: the refresh request's parameters and error text are not modelled, only its answer or its failure.
- `getUpcomingEvents` is not modelled beyond its event mapping, which it shares with `getTodaysEvents` (`Calendar.MapEvents`).
