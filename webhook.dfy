/** One conversation turn of the Telegram webhook (app/api/telegram/webhook/route.ts,
    `processMessage`): the owner gate, voice transcription and its echo, the blank
    check, saving the user message with the loaded context, routing and entity
    resolution, the disambiguation question, dispatch to a specialist, and the
    context saved with the reply. Every outside call (transcription, the stored
    context, the intent classifier, the specialists' language-model requests, the
    calendar, the reply writer) is an input in `Collaborators`. */
module Webhook {
  import opened Types
  import opened Strings
  import Store
  import Context
  import Router
  import EntityResolver
  import Response
  import opened TaskAgent
  import ProjectAgent
  import KnowledgeAgent

  const Refusal: string := "I only talk to Patrick. If you're not Patrick, blame Aidan."
  const VoiceFailure: string := "Voice message processing"
  const ProcessingFailure: string := "Message processing"
  /** Characters of a transcript echoed back. */
  const EchoLimit: nat := 100

  /** The parts of a Telegram message the turn reads. */
  datatype Incoming = Incoming(senderId: string, text: Option<string>, voice: bool)

  /** A message sent: to the chat the message came from, or to the owner's chat. */
  datatype Outgoing = ToChat(text: string) | ToOwner(text: string)

  /** A stored conversation row: who spoke, what, and the context saved with it. */
  datatype Saved = Saved(role: Role, content: string, context: ActiveContext)

  /** What the outside world answers during one turn. `None` stands for a call that
      threw (or, for the stored context, a conversation with no context yet). */
  datatype Collaborators = Collaborators(
    transcript: Option<string>,
    lastContext: Option<ActiveContext>,
    classified: Option<RouterResult>,
    taskRequest: Option<TaskRequest>,
    projectRequest: Option<ProjectAgent.ProjectRequest>,
    search: Option<seq<Knowledge>>,
    answer: Option<string>,
    events: Option<seq<CalendarEvent>>,
    generated: Option<string>,
    clock: Clock,
    dateText: Time -> string,
    timeText: string -> string)

  /** How a turn ended. `before` is the context after the new-entity update and
      `context` the one saved with the reply. */
  datatype Outcome =
    | Refused
    | VoiceFailed
    | Ignored
    | Disambiguated(question: string)
    | Answered(reply: string, before: ActiveContext, context: ActiveContext)
    | Failed

  /** `sendErrorToPatrick`: the apology with the failing stage appended. */
  function OperatorError(stage: string): (r: string)
    ensures StartsWith(r, Apology) && EndsWith(r, "\n\nContext: " + stage)
  {
    var head := Apology + "\n\nContext: ";
    assert (head + stage)[..|Apology|] == Apology;
    assert Apology + "\n\nContext: " + stage == Apology + ("\n\nContext: " + stage);
    EndsWithAppend(Apology, "\n\nContext: " + stage);
    head + stage
  }

  /** The acknowledgement of a transcript: its first hundred characters, quoted,
      with "..." when something was cut. */
  function Echo(text: string): (r: string)
    ensures |text| <= EchoLimit ==> r == "Heard: \"" + text + "\""
    ensures |text| > EchoLimit ==> r == "Heard: \"" + text[..EchoLimit] + "...\""
    ensures StartsWith(r, "Heard: \"" + text[..if |text| <= EchoLimit then |text| else EchoLimit])
    ensures |r| <= 8 + EchoLimit + 4
    ensures |r| == 8 + EchoLimit + 4 <==> |text| > EchoLimit
  {
    var shown := if |text| <= EchoLimit then text else text[..EchoLimit];
    var more := if |text| > EchoLimit then "..." else "";
    var r := "Heard: \"" + shown + more + "\"";
    assert r[..8 + |shown|] == "Heard: \"" + shown;
    r
  }

  predicate FromOwner(msg: Incoming, owner: string)
  {
    msg.senderId == owner
  }

  /** The text the turn works on: the transcript of a voice message, otherwise the
      message text or the empty string. */
  function TurnText(msg: Incoming, w: Collaborators): string
  {
    if msg.voice then (if w.transcript.Some? then w.transcript.value else "")
    else if msg.text.Some? then msg.text.value else ""
  }

  /** The echo sent before anything else for a transcribed voice message. */
  function Echoes(msg: Incoming, w: Collaborators): seq<Outgoing>
  {
    if msg.voice then [ToChat(Echo(TurnText(msg, w)))] else []
  }

  /** The sender is the owner and a voice message, if any, was transcribed. */
  predicate Admitted(msg: Incoming, w: Collaborators, owner: string)
  {
    FromOwner(msg, owner) && !(msg.voice && w.transcript.None?)
  }

  /** The turn goes past the blank check. */
  predicate Proceeds(msg: Incoming, w: Collaborators, owner: string)
  {
    Admitted(msg, w, owner) && Trim(TurnText(msg, w)) != ""
  }

  function LoadedContext(w: Collaborators): ActiveContext
  {
    Context.LoadActiveContext(w.lastContext)
  }

  function Routed(w: Collaborators): RouterResult
  {
    Router.RouteMessage(w.classified)
  }

  function ResolvedIn(db: Store.Db, w: Collaborators): ResolvedEntities
  {
    EntityResolver.EntitiesResolution(db, Routed(w).projectRefs, Routed(w).taskRefs, LoadedContext(w))
  }

  /** Which kind of entity needs a question: a single reference that resolved to
      more than one entity. Projects are asked about first. */
  function Disambiguation(routed: RouterResult, resolved: ResolvedEntities): (r: Option<EntityResolver.Kind>)
    ensures r == Some(EntityResolver.ProjectKind) <==> |resolved.projects| > 1 && |routed.projectRefs| == 1
    ensures r == Some(EntityResolver.TaskKind) <==>
              !(|resolved.projects| > 1 && |routed.projectRefs| == 1) && |resolved.tasks| > 1 && |routed.taskRefs| == 1
  {
    if |resolved.projects| > 1 && |routed.projectRefs| == 1 then Some(EntityResolver.ProjectKind)
    else if |resolved.tasks| > 1 && |routed.taskRefs| == 1 then Some(EntityResolver.TaskKind)
    else None
  }

  /** The question asked about the resolved entities of the given kind. */
  function Question(kind: EntityResolver.Kind, resolved: ResolvedEntities): string
  {
    Response.GenerateDisambiguationResponse(kind, if kind == EntityResolver.ProjectKind then resolved.projects else resolved.tasks)
  }

  /** A task intent: `r` is what the task specialist answers to the request and
      `db'` the store it leaves; the reply is written from `r`, or the turn fails
      when that summary raised; a created task is put in front of the context. */
  predicate TaskAnswered(db: Store.Db, w: Collaborators, resolved: ResolvedEntities, active: ActiveContext,
                         r: TaskAgentResult, db': Store.Db, outcome: Outcome)
  {
    var reply := Response.GenerateResponse(Response.ObjectSummary(Response.FromTaskResult(r), w.dateText), w.generated);
    IntentAnswered(db, w.taskRequest, AgentContext(resolved, active), w.clock, r, db') &&
    (outcome.Answered? <==> reply.Text?) &&
    (outcome.Answered? ==>
       outcome.reply == reply.text &&
       outcome.before == if r.action == CreatedTask && r.task.Some?
                         then Context.UpdateContextWithNewTask(active, r.task.value.id) else active)
  }

  /** `generateResponse` on a specialist's result or on the schedule data. */
  method Respond(intent: Intent, result: Option<Response.ResultObject>, tasks: Option<seq<Task>>,
                 events: Option<seq<CalendarEvent>>, w: Collaborators) returns (summary: Response.Summary)
    ensures intent != ScheduleQuery && result.Some? ==>
              summary == Response.GenerateResponse(Response.ObjectSummary(result.value, w.dateText), w.generated)
    ensures intent == ScheduleQuery ==>
              summary == if w.generated.Some? then Response.Text(Trim(w.generated.value)) else Response.Text(Apology)
    ensures intent == ScheduleQuery && Response.Count(tasks) == 0 && Response.Count(events) == 0 ==>
              summary == Response.GenerateResponse(Response.Text("No tasks or events today."), w.generated)
  {
    var s := Response.BuildResultSummary(intent, result, tasks, events, None, w.dateText, w.timeText);
    summary := Response.GenerateResponse(s, w.generated);
  }

  /** The dispatch of `processMessage`: general chat gets a direct reply, every other
      intent goes to its specialist, and a created task or project is put in front
      of the context. Nothing here changes the datastore except the task and
      project specialists. */
  method Dispatch(db: Store.Db, intent: Intent, text: string, resolved: ResolvedEntities,
                  active: ActiveContext, w: Collaborators)
    returns (summary: Response.Summary, result: Option<Response.ResultObject>, before: ActiveContext, db': Store.Db)
    ensures intent == GeneralChat ==> summary.Text? && result.None? && before == active && db' == db
    ensures intent != ScheduleQuery && result.Some? ==>
              summary == Response.GenerateResponse(Response.ObjectSummary(result.value, w.dateText), w.generated)
    ensures Router.IsTaskIntent(intent) ==>
              result.Some? && Present(result.value.action) && result.value.project.None? &&
              before == if result.value.action == Some("created") && result.value.task.Some?
                        then Context.UpdateContextWithNewTask(active, result.value.task.value.id) else active
    ensures Router.IsTaskIntent(intent) ==>
              exists r :: IntentAnswered(db, w.taskRequest, AgentContext(resolved, active), w.clock, r, db') &&
                          result == Some(Response.FromTaskResult(r))
    ensures intent == ProjectCreate || intent == ProjectUpdate ==>
              result.Some? && Present(result.value.action) && result.value.task.None? &&
              before == (if result.value.action == Some("created") && result.value.project.Some?
                         then Context.UpdateContextWithNewProject(active, result.value.project.value.id) else active) &&
              (summary.Crash? <==> !Present(result.value.error)) &&
              db'.tasks == db.tasks && db'.knowledge == db.knowledge
    ensures (intent == ProjectCreate || intent == ProjectUpdate) && w.projectRequest.Some? &&
            w.projectRequest.value.action == "create" && Present(w.projectRequest.value.name) ==>
              summary.Crash? && db' == ProjectAgent.HandleProjectCreate(db, w.projectRequest.value).1
    ensures intent == ProjectQuery ==>
              result == Some(Response.FromKnowledgeResult(KnowledgeAgent.HandleProjectQuery(db, AgentContext(resolved, active))))
    ensures intent == ProjectQuery || intent == KnowledgeQuery ==>
              result.Some? && !Present(result.value.action) && result.value.answer.Some? &&
              summary.Text? && before == active && db' == db
    ensures intent == ScheduleQuery ==>
              result.None? && before == active && db' == db &&
              summary == if w.generated.Some? then Response.Text(Trim(w.generated.value)) else Response.Text(Apology)
    ensures intent == ScheduleQuery && Store.TodaysTasks(db.tasks, w.clock.dayStart, w.clock.dayEnd) == [] &&
            Store.OverdueTasks(db.tasks, w.clock.now) == [] && (w.events.None? || w.events.value == []) ==>
              summary == Response.GenerateResponse(Response.Text("No tasks or events today."), w.generated)
  {
    var ctx := AgentContext(resolved, active);
    before, db', result := active, db, None;
    var specialist := Router.GetSpecialistAgent(intent);
    if !Router.NeedsSpecialist(intent) || specialist.None? {
      var reply := Response.GenerateGeneralChatResponse(text, w.generated);
      summary := Response.Text(reply);
      return;
    }
    match specialist.value {
      case TaskSpecialist =>
        var r: TaskAgentResult;
        r, db' := HandleTaskIntent(db, w.taskRequest, ctx, w.clock);
        result := Some(Response.FromTaskResult(r));
        summary := Respond(intent, result, None, None, w);
        if r.action == CreatedTask && r.task.Some? {
          before := Context.UpdateContextWithNewTask(active, r.task.value.id);
        }
      case ProjectSpecialist =>
        var r: ProjectAgentResult;
        r, db' := ProjectAgent.HandleProjectIntent(db, w.projectRequest, ctx);
        result := Some(Response.FromProjectResult(r));
        summary := Respond(intent, result, None, None, w);
        Response.ProjectResultTakesTaskBranch(r, w.dateText);
        if r.action == CreatedProject && r.project.Some? {
          before := Context.UpdateContextWithNewProject(active, r.project.value.id);
        }
      case KnowledgeSpecialist =>
        var r: KnowledgeAgentResult;
        if intent == ProjectQuery {
          r := KnowledgeAgent.HandleProjectQuery(db, ctx);
        } else {
          r := KnowledgeAgent.HandleKnowledgeQuery(db, ctx, w.search, w.answer);
        }
        result := Some(Response.FromKnowledgeResult(r));
        summary := Respond(intent, result, None, None, w);
        Response.KnowledgeResultSummary(r, w.dateText);
      case ScheduleSpecialist =>
        var tasks := Store.TodaysTasks(db.tasks, w.clock.dayStart, w.clock.dayEnd) + Store.OverdueTasks(db.tasks, w.clock.now);
        var events := if w.events.Some? then w.events.value else [];
        summary := Respond(intent, None, Some(tasks), Some(events), w);
    }
  }

  /** The bot's durable effects: the datastore, the messages sent and the stored
      conversation. `owner` is the configured owner's Telegram id. */
  class Bot {
    const owner: string
    var db: Store.Db
    var outbox: seq<Outgoing>
    var conversation: seq<Saved>

    constructor(owner: string, db: Store.Db)
      ensures this.owner == owner && this.db == db && outbox == [] && conversation == []
    {
      this.owner := owner;
      this.db := db;
      outbox := [];
      conversation := [];
    }

    /** `processMessage`. */
    method ProcessMessage(msg: Incoming, w: Collaborators) returns (outcome: Outcome)
      modifies this
      // which way the turn ends
      ensures outcome == Refused <==> !FromOwner(msg, owner)
      ensures outcome == VoiceFailed <==> FromOwner(msg, owner) && msg.voice && w.transcript.None?
      ensures outcome == Ignored <==> Admitted(msg, w, owner) && Trim(TurnText(msg, w)) == ""
      ensures outcome.Disambiguated? <==>
                Proceeds(msg, w, owner) && Disambiguation(Routed(w), ResolvedIn(old(db), w)).Some?
      ensures outcome.Answered? || outcome == Failed <==>
                Proceeds(msg, w, owner) && Disambiguation(Routed(w), ResolvedIn(old(db), w)).None?
      // the gate and the blank check
      ensures outcome == Refused ==>
                outbox == old(outbox) + [ToChat(Refusal)] && conversation == old(conversation) && db == old(db)
      ensures outcome == VoiceFailed ==>
                outbox == old(outbox) + [ToOwner(OperatorError(VoiceFailure))] &&
                conversation == old(conversation) && db == old(db)
      ensures outcome == Ignored ==>
                outbox == old(outbox) + Echoes(msg, w) && conversation == old(conversation) && db == old(db)
      ensures outcome.Disambiguated? ==>
                var kind := Disambiguation(Routed(w), ResolvedIn(old(db), w)).value;
                outcome.question == Question(kind, ResolvedIn(old(db), w)) &&
                outbox == old(outbox) + Echoes(msg, w) + [ToChat(outcome.question)] &&
                conversation == old(conversation) + [Saved(UserRole, TurnText(msg, w), LoadedContext(w))] +
                                [Saved(AssistantRole, outcome.question, LoadedContext(w))] &&
                db == old(db)
      ensures outcome.Answered? ==>
                outbox == old(outbox) + Echoes(msg, w) + [ToChat(outcome.reply)] &&
                conversation == old(conversation) + [Saved(UserRole, TurnText(msg, w), LoadedContext(w))] +
                                [Saved(AssistantRole, outcome.reply, outcome.context)] &&
                outcome.context == Context.Merged(outcome.before, ResolvedIn(old(db), w))
      ensures outcome.Answered? && !Router.IsTaskIntent(Routed(w).intent) &&
              Routed(w).intent != ProjectCreate && Routed(w).intent != ProjectUpdate ==>
                outcome.before == LoadedContext(w) && db == old(db)
      ensures outcome == Failed ==>
                outbox == old(outbox) + Echoes(msg, w) + [ToOwner(OperatorError(ProcessingFailure))] &&
                conversation == old(conversation) + [Saved(UserRole, TurnText(msg, w), LoadedContext(w))]
      ensures outcome == Failed ==> Routed(w).intent != GeneralChat && Routed(w).intent != ScheduleQuery &&
                                    Routed(w).intent != ProjectQuery && Routed(w).intent != KnowledgeQuery
      // a project the specialist creates is stored, and the turn ends in the operator error
      ensures Proceeds(msg, w, owner) && Disambiguation(Routed(w), ResolvedIn(old(db), w)).None? &&
              (Routed(w).intent == ProjectCreate || Routed(w).intent == ProjectUpdate) &&
              w.projectRequest.Some? && w.projectRequest.value.action == "create" && Present(w.projectRequest.value.name) ==>
                outcome == Failed && db == ProjectAgent.HandleProjectCreate(old(db), w.projectRequest.value).1
      // a task intent: the task specialist's answer, what it stores, and the reply written from it
      ensures Proceeds(msg, w, owner) && Disambiguation(Routed(w), ResolvedIn(old(db), w)).None? && Router.IsTaskIntent(Routed(w).intent) ==>
                exists r :: TaskAnswered(old(db), w, ResolvedIn(old(db), w), LoadedContext(w), r, db, outcome)
    {
      if !FromOwner(msg, owner) {
        outbox := outbox + [ToChat(Refusal)];
        return Refused;
      }
      if msg.voice && w.transcript.None? {
        outbox := outbox + [ToOwner(OperatorError(VoiceFailure))];
        return VoiceFailed;
      }
      outcome := Hear(msg, w);
    }

    /** The turn of an admitted message: the echo of a transcript, the blank check,
        and the conversation. */
    method Hear(msg: Incoming, w: Collaborators) returns (outcome: Outcome)
      requires Admitted(msg, w, owner)
      modifies this
      ensures outcome == Ignored <==> Trim(TurnText(msg, w)) == ""
      ensures outcome.Disambiguated? <==>
                Trim(TurnText(msg, w)) != "" && Disambiguation(Routed(w), ResolvedIn(old(db), w)).Some?
      ensures outcome.Answered? || outcome == Failed <==>
                Trim(TurnText(msg, w)) != "" && Disambiguation(Routed(w), ResolvedIn(old(db), w)).None?
      ensures outcome == Ignored ==>
                outbox == old(outbox) + Echoes(msg, w) && conversation == old(conversation) && db == old(db)
      ensures outcome.Disambiguated? ==>
                var kind := Disambiguation(Routed(w), ResolvedIn(old(db), w)).value;
                outcome.question == Question(kind, ResolvedIn(old(db), w)) &&
                outbox == old(outbox) + Echoes(msg, w) + [ToChat(outcome.question)] &&
                conversation == old(conversation) + [Saved(UserRole, TurnText(msg, w), LoadedContext(w))] +
                                [Saved(AssistantRole, outcome.question, LoadedContext(w))] &&
                db == old(db)
      ensures outcome.Answered? ==>
                outbox == old(outbox) + Echoes(msg, w) + [ToChat(outcome.reply)] &&
                conversation == old(conversation) + [Saved(UserRole, TurnText(msg, w), LoadedContext(w))] +
                                [Saved(AssistantRole, outcome.reply, outcome.context)] &&
                outcome.context == Context.Merged(outcome.before, ResolvedIn(old(db), w))
      ensures outcome.Answered? && !Router.IsTaskIntent(Routed(w).intent) &&
              Routed(w).intent != ProjectCreate && Routed(w).intent != ProjectUpdate ==>
                outcome.before == LoadedContext(w) && db == old(db)
      ensures outcome == Failed ==>
                outbox == old(outbox) + Echoes(msg, w) + [ToOwner(OperatorError(ProcessingFailure))] &&
                conversation == old(conversation) + [Saved(UserRole, TurnText(msg, w), LoadedContext(w))]
      ensures outcome == Failed ==> Routed(w).intent != GeneralChat && Routed(w).intent != ScheduleQuery &&
                                    Routed(w).intent != ProjectQuery && Routed(w).intent != KnowledgeQuery
      ensures Trim(TurnText(msg, w)) != "" && Disambiguation(Routed(w), ResolvedIn(old(db), w)).None? &&
              (Routed(w).intent == ProjectCreate || Routed(w).intent == ProjectUpdate) &&
              w.projectRequest.Some? && w.projectRequest.value.action == "create" && Present(w.projectRequest.value.name) ==>
                outcome == Failed && db == ProjectAgent.HandleProjectCreate(old(db), w.projectRequest.value).1
      // a task intent: the task specialist's answer, what it stores, and the reply written from it
      ensures Trim(TurnText(msg, w)) != "" && Disambiguation(Routed(w), ResolvedIn(old(db), w)).None? && Router.IsTaskIntent(Routed(w).intent) ==>
                exists r :: TaskAnswered(old(db), w, ResolvedIn(old(db), w), LoadedContext(w), r, db, outcome)
    {
      var text := if msg.text.Some? then msg.text.value else "";
      if msg.voice {
        text := w.transcript.value;
        outbox := outbox + [ToChat(Echo(text))];
      }
      assert text == TurnText(msg, w);
      assert outbox == old(outbox) + Echoes(msg, w);
      if Trim(text) == "" {
        return Ignored;
      }
      ghost var echoed := outbox;
      outcome := Converse(text, w);
      assert outcome.Disambiguated? ==> outbox == echoed + [ToChat(outcome.question)];
      assert outcome.Answered? ==> outbox == echoed + [ToChat(outcome.reply)];
    }

    /** The turn after the blank check: save the user message, route and resolve,
        ask which entity was meant or dispatch, and save the reply. */
    method Converse(text: string, w: Collaborators) returns (outcome: Outcome)
      modifies this
      ensures outcome.Disambiguated? || outcome.Answered? || outcome == Failed
      ensures outcome.Disambiguated? <==> Disambiguation(Routed(w), ResolvedIn(old(db), w)).Some?
      ensures outcome.Disambiguated? ==>
                var kind := Disambiguation(Routed(w), ResolvedIn(old(db), w)).value;
                outcome.question == Question(kind, ResolvedIn(old(db), w)) &&
                outbox == old(outbox) + [ToChat(outcome.question)] &&
                conversation == old(conversation) + [Saved(UserRole, text, LoadedContext(w))] +
                                [Saved(AssistantRole, outcome.question, LoadedContext(w))] &&
                db == old(db)
      ensures outcome.Answered? ==>
                outbox == old(outbox) + [ToChat(outcome.reply)] &&
                conversation == old(conversation) + [Saved(UserRole, text, LoadedContext(w))] +
                                [Saved(AssistantRole, outcome.reply, outcome.context)] &&
                outcome.context == Context.Merged(outcome.before, ResolvedIn(old(db), w))
      ensures outcome.Answered? && !Router.IsTaskIntent(Routed(w).intent) &&
              Routed(w).intent != ProjectCreate && Routed(w).intent != ProjectUpdate ==>
                outcome.before == LoadedContext(w) && db == old(db)
      ensures outcome == Failed ==>
                outbox == old(outbox) + [ToOwner(OperatorError(ProcessingFailure))] &&
                conversation == old(conversation) + [Saved(UserRole, text, LoadedContext(w))]
      ensures outcome == Failed ==> Routed(w).intent != GeneralChat && Routed(w).intent != ScheduleQuery &&
                                    Routed(w).intent != ProjectQuery && Routed(w).intent != KnowledgeQuery
      ensures Disambiguation(Routed(w), ResolvedIn(old(db), w)).None? &&
              (Routed(w).intent == ProjectCreate || Routed(w).intent == ProjectUpdate) &&
              w.projectRequest.Some? && w.projectRequest.value.action == "create" && Present(w.projectRequest.value.name) ==>
                outcome == Failed && db == ProjectAgent.HandleProjectCreate(old(db), w.projectRequest.value).1
      // a task intent: the task specialist's answer, what it stores, and the reply written from it
      ensures Disambiguation(Routed(w), ResolvedIn(old(db), w)).None? && Router.IsTaskIntent(Routed(w).intent) ==>
                exists r :: TaskAnswered(old(db), w, ResolvedIn(old(db), w), LoadedContext(w), r, db, outcome)
    {
      var active := Context.LoadActiveContext(w.lastContext);
      conversation := conversation + [Saved(UserRole, text, active)];
      var routed := Router.RouteMessage(w.classified);
      var resolved := EntityResolver.ResolveEntities(db, routed.projectRefs, routed.taskRefs, active);
      if |resolved.projects| > 1 && |routed.projectRefs| == 1 {
        var question := Response.GenerateDisambiguationResponse(EntityResolver.ProjectKind, resolved.projects);
        outbox := outbox + [ToChat(question)];
        conversation := conversation + [Saved(AssistantRole, question, active)];
        return Disambiguated(question);
      }
      if |resolved.tasks| > 1 && |routed.taskRefs| == 1 {
        var question := Response.GenerateDisambiguationResponse(EntityResolver.TaskKind, resolved.tasks);
        outbox := outbox + [ToChat(question)];
        conversation := conversation + [Saved(AssistantRole, question, active)];
        return Disambiguated(question);
      }
      outcome := Answer(text, routed.intent, resolved, active, w);
    }

    /** Dispatch and the reply, once no question is needed: the reply is sent and
        saved with the merged context, or a raised summary sends the operator error. */
    method Answer(text: string, intent: Intent, resolved: ResolvedEntities, active: ActiveContext, w: Collaborators)
      returns (outcome: Outcome)
      modifies this
      ensures outcome.Answered? || outcome == Failed
      ensures outcome.Answered? ==>
                outbox == old(outbox) + [ToChat(outcome.reply)] &&
                conversation == old(conversation) + [Saved(AssistantRole, outcome.reply, outcome.context)] &&
                outcome.context == Context.Merged(outcome.before, resolved)
      ensures outcome.Answered? && !Router.IsTaskIntent(intent) && intent != ProjectCreate && intent != ProjectUpdate ==>
                outcome.before == active && db == old(db)
      ensures outcome == Failed ==>
                outbox == old(outbox) + [ToOwner(OperatorError(ProcessingFailure))] && conversation == old(conversation)
      ensures outcome == Failed ==> intent != GeneralChat && intent != ScheduleQuery &&
                                    intent != ProjectQuery && intent != KnowledgeQuery
      ensures (intent == ProjectCreate || intent == ProjectUpdate) &&
              w.projectRequest.Some? && w.projectRequest.value.action == "create" && Present(w.projectRequest.value.name) ==>
                outcome == Failed && db == ProjectAgent.HandleProjectCreate(old(db), w.projectRequest.value).1
      ensures Router.IsTaskIntent(intent) ==> exists r :: TaskAnswered(old(db), w, resolved, active, r, db, outcome)
    {
      var summary, result, before, db' := Dispatch(db, intent, text, resolved, active, w);
      ghost var handled: TaskAgentResult := Failure(QueriedTasks, Apology);
      if Router.IsTaskIntent(intent) {
        handled :| IntentAnswered(db, w.taskRequest, AgentContext(resolved, active), w.clock, handled, db') &&
                   result == Some(Response.FromTaskResult(handled));
      }
      db := db';
      if summary.Crash? {
        outbox := outbox + [ToOwner(OperatorError(ProcessingFailure))];
        outcome := Failed;
      } else {
        var updated := Context.MergeContext(before, resolved);
        outbox := outbox + [ToChat(summary.text)];
        conversation := conversation + [Saved(AssistantRole, summary.text, updated)];
        outcome := Answered(summary.text, before, updated);
      }
      assert Router.IsTaskIntent(intent) ==> TaskAnswered(old(db), w, resolved, active, handled, db, outcome);
    }
  }

  /** A task the router resolved replaces a newly created one as the current task;
      with none resolved, the created task stays current. */
  lemma ResolvedTaskOverridesCreated(active: ActiveContext, created: Id, resolved: ResolvedEntities)
    ensures resolved.tasks != [] ==>
              Context.Merged(Context.UpdateContextWithNewTask(active, created), resolved).currentTaskId ==
              Some(resolved.tasks[|resolved.tasks| - 1].id)
    ensures resolved.tasks == [] ==>
              Context.Merged(Context.UpdateContextWithNewTask(active, created), resolved).currentTaskId == Some(created)
  {
  }
}
