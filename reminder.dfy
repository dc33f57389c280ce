/** Proactive reminders (lib/agents/reminder.ts): the send windows, the one-line
    task description given to the writer model, the urgency grouping, and the
    write-back of reminder stamps. The writer model's reply is an input here. */
module Reminder {
  import opened Types
  import opened Strings
  import opened Store

  /** Local (Pacific standard) hours at which reminders go out. */
  const ReminderHours: seq<int> := [11, 15, 19]
  const OtherShown: nat := 5

  /** The Pacific hour of a UTC hour, a fixed eight hours behind. */
  function PacificHour(utcHour: int): (h: int)
    requires 0 <= utcHour < 24
    ensures 0 <= h < 24
    ensures (h + 8) % 24 == utcHour
  {
    (utcHour - 8 + 24) % 24
  }

  /** The send windows written out: on a reminder hour, or in the half hour before one. */
  predicate InReminderWindow(pacificHour: int, minutes: int)
  {
    pacificHour == 11 || pacificHour == 15 || pacificHour == 19 ||
    ((pacificHour == 10 || pacificHour == 14 || pacificHour == 18) && minutes >= 30)
  }

  /** `shouldSendReminders`, with the clock's UTC hour and its local minutes as inputs. */
  method ShouldSendReminders(utcHour: int, minutes: int) returns (send: bool)
    requires 0 <= utcHour < 24
    ensures send <==> InReminderWindow(PacificHour(utcHour), minutes)
  {
    var pstHour := PacificHour(utcHour);
    for i := 0 to |ReminderHours|
      invariant forall j :: 0 <= j < i ==>
                  !(pstHour == ReminderHours[j] || (pstHour == ReminderHours[j] - 1 && minutes >= 30))
    {
      var hour := ReminderHours[i];
      if pstHour == hour || (pstHour == hour - 1 && minutes >= 30) {
        return true;
      }
    }
    assert ReminderHours[0] == 11 && ReminderHours[1] == 15 && ReminderHours[2] == 19;
    return false;
  }

  /** Whole days since the deadline, rounded down (negative before the deadline). */
  function DaysOverdue(now: Time, deadline: Time): (d: int)
    ensures d > 0 <==> now - deadline >= MillisPerDay
    ensures d * MillisPerDay <= now - deadline < (d + 1) * MillisPerDay
  {
    (now - deadline) / MillisPerDay
  }

  function OverdueClause(days: nat): string
  {
    "(" + NatToString(days) + " day" + (if days == 1 then "" else "s") + " overdue)"
  }

  function PriorityTag(p: Priority): (r: Option<string>)
    ensures r.Some? <==> p == Urgent || p == High
    ensures p == Urgent ==> r == Some("[URGENT]")
    ensures p == High ==> r == Some("[high priority]")
  {
    match p
    case Urgent => Some("[URGENT]")
    case High => Some("[high priority]")
    case _ => None
  }

  function Quoted(s: string): string
  {
    "\"" + s + "\""
  }

  /** The parts `formatTaskForReminder` joins with spaces: the quoted description,
      the overdue clause when the deadline is at least a day past, the priority tag. */
  function ReminderParts(t: Task, now: Time): (r: seq<string>)
    ensures 1 <= |r| <= 3 && r[0] == Quoted(t.description)
  {
    var overdue := if t.deadline.Some? && DaysOverdue(now, t.deadline.value) > 0
                   then [OverdueClause(DaysOverdue(now, t.deadline.value))] else [];
    var tag := if PriorityTag(t.priority).Some? then [PriorityTag(t.priority).value] else [];
    [Quoted(t.description)] + overdue + tag
  }

  predicate Overdue(t: Task, now: Time)
  {
    t.deadline.Some? && DaysOverdue(now, t.deadline.value) > 0
  }

  /** `formatTaskForReminder`. */
  function FormatTaskForReminder(t: Task, now: Time): (r: string)
    ensures r == Join(ReminderParts(t, now), " ")
    ensures StartsWith(r, Quoted(t.description))
    ensures !Overdue(t, now) && PriorityTag(t.priority).None? ==> r == Quoted(t.description)
    ensures PriorityTag(t.priority).Some? ==> EndsWith(r, " " + PriorityTag(t.priority).value)
    ensures Overdue(t, now) ==> Contains(r, OverdueClause(DaysOverdue(now, t.deadline.value)))
  {
    var parts := ReminderParts(t, now);
    JoinStartsWithFirst(parts, " ");
    ReminderJoinFacts(t, now);
    Join(parts, " ")
  }

  lemma ReminderJoinFacts(t: Task, now: Time)
    ensures PriorityTag(t.priority).Some? ==> EndsWith(Join(ReminderParts(t, now), " "), " " + PriorityTag(t.priority).value)
    ensures Overdue(t, now) ==> Contains(Join(ReminderParts(t, now), " "), OverdueClause(DaysOverdue(now, t.deadline.value)))
  {
    if Overdue(t, now) {
      OverdueIsSecond(t, now);
      JoinContainsPart(ReminderParts(t, now), " ", 1);
    }
    if PriorityTag(t.priority).Some? {
      TagIsLast(t, now);
      JoinEndsWithLast(ReminderParts(t, now), " ");
    }
  }

  lemma OverdueIsSecond(t: Task, now: Time)
    requires Overdue(t, now)
    ensures |ReminderParts(t, now)| >= 2 && ReminderParts(t, now)[1] == OverdueClause(DaysOverdue(now, t.deadline.value))
  {
  }

  lemma TagIsLast(t: Task, now: Time)
    requires PriorityTag(t.priority).Some?
    ensures |ReminderParts(t, now)| >= 2
    ensures ReminderParts(t, now)[|ReminderParts(t, now)| - 1] == PriorityTag(t.priority).value
  {
  }

  /** The overdue clause says "day" for exactly one day and "days" otherwise. */
  lemma OverdueClauseNumber(days: nat)
    ensures days == 1 ==> OverdueClause(days) == "(1 day overdue)"
    ensures days != 1 ==> EndsWith(OverdueClause(days), "days overdue)")
  {
    if days == 1 {
      assert NatToString(1) == "1";
    } else {
      var pre := "(" + NatToString(days) + " ";
      assert OverdueClause(days) == pre + "days overdue)";
      EndsWithAppend(pre, "days overdue)");
    }
  }

  /** `getTasksNeedingReminder`: pending, deadline passed, and not reminded in the last day. */
  predicate NeedsReminder(t: Task, now: Time)
  {
    t.status == Pending && t.deadline.Some? && t.deadline.value < now &&
    (t.lastRemindedAt.None? || t.lastRemindedAt.value < now - MillisPerDay)
  }

  function TasksNeedingReminder(ts: seq<Task>, now: Time): (r: seq<Task>)
    ensures forall t :: t in r <==> t in ts && NeedsReminder(t, now)
  {
    if ts == [] then []
    else (if NeedsReminder(ts[0], now) then [ts[0]] else []) + TasksNeedingReminder(ts[1..], now)
  }

  predicate IsUrgent(p: Priority) { p == Urgent }
  predicate IsHigh(p: Priority) { p == High }
  predicate IsOther(p: Priority) { p != Urgent && p != High }

  /** `filter` on priority, keeping order. */
  function WithPriority(ts: seq<Task>, keep: Priority -> bool): (r: seq<Task>)
    ensures |r| <= |ts|
    ensures forall t :: t in r <==> t in ts && keep(t.priority)
  {
    if ts == [] then []
    else (if keep(ts[0].priority) then [ts[0]] else []) + WithPriority(ts[1..], keep)
  }

  /** The three groups split the tasks: each task is in exactly one of them. */
  lemma {:induction false} GroupsPartition(ts: seq<Task>)
    ensures |Urgents(ts)| + |Highs(ts)| + |Others(ts)| == |ts|
  {
    if ts != [] {
      GroupsPartition(ts[1..]);
    }
  }

  /** One prompt line: a group label and the task's reminder text. */
  function Line(prefix: string, t: Task, now: Time): string
  {
    prefix + FormatTaskForReminder(t, now)
  }

  function Labelled(prefix: string, ts: seq<Task>, now: Time): (r: seq<string>)
    ensures |r| == |ts| && forall k :: 0 <= k < |ts| ==> r[k] == Line(prefix, ts[k], now)
  {
    seq(|ts|, k requires 0 <= k < |ts| => Line(prefix, ts[k], now))
  }

  /** The urgent tasks, in order. */
  function Urgents(ts: seq<Task>): (r: seq<Task>)
    ensures |r| <= |ts| && forall t :: t in r <==> t in ts && t.priority == Urgent
  {
    WithPriority(ts, IsUrgent)
  }

  /** The high-priority tasks, in order. */
  function Highs(ts: seq<Task>): (r: seq<Task>)
    ensures |r| <= |ts| && forall t :: t in r <==> t in ts && t.priority == High
  {
    WithPriority(ts, IsHigh)
  }

  /** Every other task, in order. */
  function Others(ts: seq<Task>): (r: seq<Task>)
    ensures |r| <= |ts| && forall t :: t in r <==> t in ts && t.priority != Urgent && t.priority != High
  {
    WithPriority(ts, IsOther)
  }

  /** How many of the "other" tasks are listed: at most five. */
  function OthersShown(ts: seq<Task>): (n: nat)
    ensures n <= |Others(ts)| && n <= OtherShown
    ensures n == OtherShown || n == |Others(ts)|
  {
    if |Others(ts)| < OtherShown then |Others(ts)| else OtherShown
  }

  /** The task list in the writer's prompt: every urgent task, then every high-priority
      task, then at most five of the others, each group in fetch order. */
  function ReminderLines(ts: seq<Task>, now: Time): (r: seq<string>)
    ensures |r| == |Urgents(ts)| + |Highs(ts)| + OthersShown(ts)
    ensures r[..|Urgents(ts)|] == Labelled("URGENT: ", Urgents(ts), now)
    ensures r[|Urgents(ts)|..|Urgents(ts)| + |Highs(ts)|] == Labelled("HIGH: ", Highs(ts), now)
    ensures r[|Urgents(ts)| + |Highs(ts)|..] == Labelled("", Others(ts)[..OthersShown(ts)], now)
  {
    var a := Labelled("URGENT: ", Urgents(ts), now);
    var b := Labelled("HIGH: ", Highs(ts), now);
    var c := Labelled("", Others(ts)[..OthersShown(ts)], now);
    assert (a + b + c)[..|a|] == a;
    assert (a + b + c)[|a|..|a| + |b|] == b;
    assert (a + b + c)[|a| + |b|..] == c;
    a + b + c
  }

  /** Only the "other" group is cut: with at most five of them every task is listed. */
  lemma FewOthersAllListed(ts: seq<Task>, now: Time)
    requires |Others(ts)| <= OtherShown
    ensures |ReminderLines(ts, now)| == |ts|
  {
    GroupsPartition(ts);
  }

  /** The ids of a list of tasks, in order (also the ids a daily brief reports). */
  function Ids(ts: seq<Task>): (r: seq<Id>)
    ensures |r| == |ts| && forall k :: 0 <= k < |ts| ==> r[k] == ts[k].id
  {
    seq(|ts|, k requires 0 <= k < |ts| => ts[k].id)
  }

  datatype Reminders = Reminders(reminders: seq<string>, taskIds: seq<Id>)

  /** `updateTaskReminder` for every id: each row with one of the ids gets the new stamp. */
  method StampReminded(ts: seq<Task>, ids: seq<Id>, now: Time) returns (r: seq<Task>)
    ensures |r| == |ts|
    ensures forall k :: 0 <= k < |ts| ==>
              r[k] == if ts[k].id in ids then ts[k].(lastRemindedAt := Some(now)) else ts[k]
  {
    r := ts;
    for i := 0 to |ids|
      invariant |r| == |ts|
      invariant forall k :: 0 <= k < |ts| ==>
                  r[k] == if ts[k].id in ids[..i] then ts[k].(lastRemindedAt := Some(now)) else ts[k]
    {
      assert ids[..i + 1] == ids[..i] + [ids[i]];
      r := seq(|r|, k requires 0 <= k < |r| =>
                 if r[k].id == ids[i] then r[k].(lastRemindedAt := Some(now)) else r[k]);
    }
    assert ids[..|ids|] == ids;
  }

  /** `generateReminders`. `reply` is the writer model's answer to the prompt built
      from `ReminderLines` (None when the call throws). Stamps are written only after
      a reply, and then for every fetched task, listed or not. */
  method GenerateReminders(db: Db, now: Time, reply: Option<string>) returns (out: Reminders, db': Db)
    ensures var due := TasksNeedingReminder(db.tasks, now);
            (due == [] || reply.None?) ==> out == Reminders([], []) && db' == db
    ensures var due := TasksNeedingReminder(db.tasks, now);
            due != [] && reply.Some? ==>
              out == Reminders([Trim(reply.value)], Ids(due)) &&
              db'.projects == db.projects && db'.knowledge == db.knowledge && |db'.tasks| == |db.tasks| &&
              forall k :: 0 <= k < |db.tasks| ==>
                db'.tasks[k] == if db.tasks[k].id in out.taskIds
                                then db.tasks[k].(lastRemindedAt := Some(now)) else db.tasks[k]
    ensures forall k :: 0 <= k < |db.tasks| && NeedsReminder(db.tasks[k], now) && reply.Some? ==>
              db'.tasks[k].lastRemindedAt == Some(now)
  {
    var due := TasksNeedingReminder(db.tasks, now);
    if |due| == 0 {
      return Reminders([], []), db;
    }
    if reply.None? {
      return Reminders([], []), db;
    }
    var taskIds := Ids(due);
    var tasks := StampReminded(db.tasks, taskIds, now);
    forall k | 0 <= k < |db.tasks| && NeedsReminder(db.tasks[k], now)
      ensures db.tasks[k].id in taskIds
    {
      var j :| 0 <= j < |due| && due[j] == db.tasks[k];
      assert taskIds[j] == db.tasks[k].id;
    }
    return Reminders([Trim(reply.value)], taskIds), db.(tasks := tasks);
  }
}
