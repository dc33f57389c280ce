/** Intent routing (lib/agents/router.ts): the history excerpt shown to the
    classifier, the classifier's failure default, and the intent-to-specialist table.
    The classifier itself is a language-model call; its output is an input here. */
module Router {
  import opened Types
  import opened Strings

  const NoMessages: string := "No previous messages today."
  const HistoryWindow: nat := 10

  function RoleName(r: Role): string
  {
    match r
    case UserRole => "user"
    case AssistantRole => "assistant"
  }

  /** "role: content": the role and a colon, then the message text intact. */
  function FormatLine(m: Message): (line: string)
    ensures StartsWith(line, RoleName(m.role) + ": ")
    ensures line[|RoleName(m.role)| + 2..] == m.content
  {
    RoleName(m.role) + ": " + m.content
  }

  /** `messages.slice(-10)`: the last ten messages, or all of them when there are fewer. */
  function RecentMessages(ms: seq<Message>): (r: seq<Message>)
    ensures |r| == if |ms| < HistoryWindow then |ms| else HistoryWindow
    ensures r == ms[|ms| - |r|..]
  {
    if |ms| <= HistoryWindow then ms else ms[|ms| - HistoryWindow..]
  }

  function FormatLines(ms: seq<Message>): (r: seq<string>)
    ensures |r| == |ms| && forall k :: 0 <= k < |ms| ==> r[k] == FormatLine(ms[k])
  {
    seq(|ms|, k requires 0 <= k < |ms| => FormatLine(ms[k]))
  }

  /** `formatMessagesForContext`: a fixed sentence for an empty history, otherwise
      the last ten messages in order, one "role: content" line each, starting
      with the oldest of them. */
  function FormatMessagesForContext(ms: seq<Message>): (r: string)
    ensures r == NoMessages <==> ms == []
    ensures ms != [] ==> r == Join(FormatLines(RecentMessages(ms)), "\n")
    ensures ms != [] ==> StartsWith(r, FormatLine(ms[|ms| - |RecentMessages(ms)|]))
  {
    if |ms| == 0 then NoMessages
    else
      var lines := FormatLines(RecentMessages(ms));
      JoinStartsWithFirst(lines, "\n");
      var r := Join(lines, "\n");
      assert StartsWith(lines[0], RoleName(ms[|ms| - |RecentMessages(ms)|].role) + ": ");
      assert r[0] == lines[0][0];
      assert lines[0][0] == 'u' || lines[0][0] == 'a';
      r
  }

  /** The excerpt ends with the newest message, on a line of its own once there
      are two or more. */
  lemma NewestMessageLast(ms: seq<Message>)
    requires |ms| >= 2
    ensures EndsWith(FormatMessagesForContext(ms), "\n" + FormatLine(ms[|ms| - 1]))
  {
    var recent := RecentMessages(ms);
    var lines := FormatLines(recent);
    JoinEndsWithLast(lines, "\n");
    assert lines[|lines| - 1] == FormatLine(recent[|recent| - 1]);
    assert recent[|recent| - 1] == ms[|ms| - 1];
  }

  /** When no message text contains a line break, the excerpt splits back into
      exactly the last ten messages' lines, in order. */
  lemma HistoryReadsBack(ms: seq<Message>)
    requires ms != []
    requires forall k :: 0 <= k < |ms| ==> '\n' !in ms[k].content
    ensures Split(FormatMessagesForContext(ms), '\n') == FormatLines(RecentMessages(ms))
  {
    var recent := RecentMessages(ms);
    var lines := FormatLines(recent);
    forall k | 0 <= k < |lines|
      ensures '\n' !in lines[k]
    {
      assert recent[k] == ms[|ms| - |recent| + k];
      LineAvoidsBreak(recent[k]);
    }
    SplitJoin(lines, '\n');
  }

  lemma LineAvoidsBreak(m: Message)
    requires '\n' !in m.content
    ensures '\n' !in FormatLine(m)
  {
    assert '\n' !in RoleName(m.role) + ": ";
    NotInAppend(RoleName(m.role) + ": ", m.content, '\n');
  }

  /** A history of at most ten messages is shown whole. */
  lemma ShortHistoryShownWhole(ms: seq<Message>)
    requires |ms| <= HistoryWindow
    ensures RecentMessages(ms) == ms
  {
  }

  /** What `routeMessage` returns when the classifier fails: general chat, no
      references, no deadline or priority, no lookup, low confidence. */
  function RouteFailureDefault(): (r: RouterResult)
    ensures r.intent == GeneralChat && r.projectRefs == [] && r.taskRefs == []
    ensures r.deadline.None? && r.priority.None? && !r.requiresLookup && r.confidence == LowConfidence
  {
    RouterResult(GeneralChat, [], [], None, None, false, LowConfidence)
  }

  /** `routeMessage`, with the classifier's answer (None when it throws) as input. */
  function RouteMessage(classified: Option<RouterResult>): (r: RouterResult)
    ensures classified.Some? ==> r == classified.value
    ensures classified.None? ==> r == RouteFailureDefault()
  {
    if classified.Some? then classified.value else RouteFailureDefault()
  }

  /** `needsSpecialist`: everything except general chat. */
  function NeedsSpecialist(intent: Intent): (b: bool)
    ensures b <==> GetSpecialistAgent(intent).Some?
  {
    intent != GeneralChat
  }

  datatype Specialist = TaskSpecialist | ProjectSpecialist | KnowledgeSpecialist | ScheduleSpecialist

  predicate IsTaskIntent(intent: Intent)
  {
    intent == TaskCreate || intent == TaskUpdate || intent == TaskComplete || intent == TaskQuery
  }

  /** `getSpecialistAgent`. */
  function GetSpecialistAgent(intent: Intent): (r: Option<Specialist>)
    ensures r == Some(TaskSpecialist) <==> IsTaskIntent(intent)
    ensures r == Some(ProjectSpecialist) <==> intent == ProjectCreate || intent == ProjectUpdate
    ensures r == Some(KnowledgeSpecialist) <==> intent == ProjectQuery || intent == KnowledgeQuery
    ensures r == Some(ScheduleSpecialist) <==> intent == ScheduleQuery
    ensures r.None? <==> intent == GeneralChat
  {
    match intent
    case TaskCreate => Some(TaskSpecialist)
    case TaskUpdate => Some(TaskSpecialist)
    case TaskComplete => Some(TaskSpecialist)
    case TaskQuery => Some(TaskSpecialist)
    case ProjectCreate => Some(ProjectSpecialist)
    case ProjectUpdate => Some(ProjectSpecialist)
    case ProjectQuery => Some(KnowledgeSpecialist)
    case KnowledgeQuery => Some(KnowledgeSpecialist)
    case ScheduleQuery => Some(ScheduleSpecialist)
    case GeneralChat => None
  }

  /** The two routing functions agree: a specialist is needed exactly when one is named. */
  lemma NeedsSpecialistIffNamed(intent: Intent)
    ensures NeedsSpecialist(intent) <==> GetSpecialistAgent(intent).Some?
  {
  }
}
