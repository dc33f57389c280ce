/** The morning brief and the quick status line (lib/agents/briefing.ts): the task
    formatters, the placeholder lines for empty lists, the ids the brief mentions,
    and the counts of the status line. The writer model's text is an input (None
    when the call throws). */
module Briefing {
  import opened Types
  import opened Strings
  import opened Store
  import Calendar
  import Reminder
  import opened TaskAgent

  const NoTasksToday: string := "No tasks due today."
  const NoOverdue: string := "No overdue tasks."

  /** `formatTaskForBrief`: the description, followed by "(<priority> priority)" for
      high and urgent tasks only. */
  function FormatTaskForBrief(t: Task): (r: string)
    ensures StartsWith(r, t.description)
    ensures t.priority != High && t.priority != Urgent ==> r == t.description
    ensures t.priority == High || t.priority == Urgent ==>
              EndsWith(r, " (" + PriorityName(t.priority) + " priority)") &&
              |r| == |t.description| + |" (" + PriorityName(t.priority) + " priority)"|
  {
    if t.priority == High || t.priority == Urgent then
      var tag := " (" + PriorityName(t.priority) + " priority)";
      EndsWithAppend(t.description, tag);
      assert (t.description + tag)[..|t.description|] == t.description;
      t.description + tag
    else t.description
  }

  /** The day-count clause of an overdue task; "day" for exactly one. */
  function DaysClause(days: int): (r: string)
    ensures days == 1 ==> r == " (1 day overdue)"
    ensures days != 1 ==> EndsWith(r, " days overdue)")
    ensures r == " (" + IntToString(days) + " day" + (if days == 1 then "" else "s") + " overdue)"
  {
    var number := " (" + IntToString(days);
    var r := number + " day" + (if days == 1 then "" else "s") + " overdue)";
    if days == 1 then
      assert number == " (1" by {
        assert NatToString(1) == "1";
      }
      r
    else
      assert r == number + " days overdue)";
      EndsWithAppend(number, " days overdue)");
      r
  }

  /** `formatOverdueTask`: a task without a deadline shows only its description;
      otherwise the whole days since the deadline follow it. */
  function FormatOverdueTask(t: Task, now: Time): (r: string)
    ensures t.deadline.None? ==> r == t.description
    ensures t.deadline.Some? ==> r == t.description + DaysClause(Reminder.DaysOverdue(now, t.deadline.value))
    ensures StartsWith(r, t.description)
  {
    if t.deadline.None? then t.description
    else
      var r := t.description + DaysClause(Reminder.DaysOverdue(now, t.deadline.value));
      assert r[..|t.description|] == t.description;
      r
  }

  /** One "- " line per task due today, in order. */
  function TodayBullets(ts: seq<Task>): (r: seq<string>)
    ensures |r| == |ts|
    ensures forall k :: 0 <= k < |ts| ==> r[k] == "- " + FormatTaskForBrief(ts[k])
  {
    seq(|ts|, k requires 0 <= k < |ts| => "- " + FormatTaskForBrief(ts[k]))
  }

  /** One "- " line per overdue task, in order. */
  function OverdueBullets(ts: seq<Task>, now: Time): (r: seq<string>)
    ensures |r| == |ts|
    ensures forall k :: 0 <= k < |ts| ==> r[k] == "- " + FormatOverdueTask(ts[k], now)
  {
    seq(|ts|, k requires 0 <= k < |ts| => "- " + FormatOverdueTask(ts[k], now))
  }

  /** The brief's list of today's tasks, or a placeholder when there are none. */
  function TodaysTasksList(ts: seq<Task>): (r: string)
    ensures ts == [] ==> r == NoTasksToday
    ensures ts != [] ==> r == Join(TodayBullets(ts), "\n")
    ensures ts != [] ==> StartsWith(r, "- " + FormatTaskForBrief(ts[0]))
  {
    if ts == [] then NoTasksToday
    else
      JoinStartsWithFirst(TodayBullets(ts), "\n");
      Join(TodayBullets(ts), "\n")
  }

  /** The brief's list of overdue tasks, or a placeholder when there are none. */
  function OverdueList(ts: seq<Task>, now: Time): (r: string)
    ensures ts == [] ==> r == NoOverdue
    ensures ts != [] ==> r == Join(OverdueBullets(ts, now), "\n")
    ensures ts != [] ==> StartsWith(r, "- " + FormatOverdueTask(ts[0], now))
  {
    if ts == [] then NoOverdue
    else
      JoinStartsWithFirst(OverdueBullets(ts, now), "\n");
      Join(OverdueBullets(ts, now), "\n")
  }

  /** When no description contains a line break, today's list splits back into
      exactly one bullet per task, in order. */
  lemma TodaysTasksReadBack(ts: seq<Task>)
    requires ts != []
    requires forall k :: 0 <= k < |ts| ==> '\n' !in ts[k].description
    ensures Split(TodaysTasksList(ts), '\n') == TodayBullets(ts)
  {
    var lines := TodayBullets(ts);
    forall k | 0 <= k < |lines| ensures '\n' !in lines[k] {
      BulletAvoidsBreak(ts[k]);
    }
    SplitJoin(lines, '\n');
  }

  /** A task's bullet has no line break when its description has none. */
  lemma BulletAvoidsBreak(t: Task)
    requires '\n' !in t.description
    ensures '\n' !in "- " + FormatTaskForBrief(t)
  {
    if t.priority == High || t.priority == Urgent {
      var tag := " (" + PriorityName(t.priority) + " priority)";
      assert '\n' !in tag;
      NotInAppend(t.description, tag, '\n');
    }
    NotInAppend("- ", FormatTaskForBrief(t), '\n');
  }

  /** The same for the overdue list. */
  lemma OverdueReadBack(ts: seq<Task>, now: Time)
    requires ts != []
    requires forall k :: 0 <= k < |ts| ==> '\n' !in ts[k].description
    ensures Split(OverdueList(ts, now), '\n') == OverdueBullets(ts, now)
  {
    var lines := OverdueBullets(ts, now);
    forall k | 0 <= k < |lines| ensures '\n' !in lines[k] {
      var t := ts[k];
      if t.deadline.Some? {
        DaysClauseNoBreak(Reminder.DaysOverdue(now, t.deadline.value));
        NotInAppend(t.description, DaysClause(Reminder.DaysOverdue(now, t.deadline.value)), '\n');
      }
      NotInAppend("- ", FormatOverdueTask(t, now), '\n');
    }
    SplitJoin(lines, '\n');
  }

  lemma DaysClauseNoBreak(days: int)
    ensures '\n' !in DaysClause(days)
  {
    var n := IntToString(days);
    assert '\n' !in n by {
      var d := NatToString(if days < 0 then -days else days);
      forall i | 0 <= i < |d| ensures d[i] != '\n' {
        assert IsDigit(d[i]);
      }
      if days < 0 {
        NotInAppend("-", d, '\n');
      }
    }
    NotInAppend(" (", n, '\n');
    NotInAppend(" (" + n, " day" + (if days == 1 then "" else "s") + " overdue)", '\n');
    assert DaysClause(days) == " (" + n + (" day" + (if days == 1 then "" else "s") + " overdue)");
  }

  /** The brief's calendar part: the placeholder when there are no events. */
  function CalendarList(events: seq<CalendarEvent>, timeOf: string -> Option<Calendar.LocalTime>): (r: string)
    ensures events == [] ==> r == Calendar.NoEvents
  {
    if |events| > 0 then Calendar.FormatEventsForMessage(events, timeOf) else "No calendar events today."
  }

  /** The guard around the calendar formatter is redundant: it has the same
      placeholder for an empty day. */
  lemma CalendarGuardRedundant(events: seq<CalendarEvent>, timeOf: string -> Option<Calendar.LocalTime>)
    ensures CalendarList(events, timeOf) == Calendar.FormatEventsForMessage(events, timeOf)
  {
  }

  datatype Brief = Brief(content: string, taskIds: seq<Id>)

  /** `generateDailyBrief`, after the data is gathered: `content` is the writer
      model's text. The ids are today's tasks followed by the overdue ones. */
  function DailyBrief(db: Db, clock: Clock, content: Option<string>): (r: Brief)
    ensures content.None? ==> r == Brief(Apology, [])
    ensures content.Some? ==> r.content == Trim(content.value)
    ensures content.Some? ==>
              var today := TodaysTasks(db.tasks, clock.dayStart, clock.dayEnd);
              var overdue := OverdueTasks(db.tasks, clock.now);
              |r.taskIds| == |today| + |overdue| &&
              r.taskIds[..|today|] == Reminder.Ids(today) && r.taskIds[|today|..] == Reminder.Ids(overdue)
  {
    if content.None? then Brief(Apology, [])
    else
      var today := TodaysTasks(db.tasks, clock.dayStart, clock.dayEnd);
      var overdue := OverdueTasks(db.tasks, clock.now);
      assert (Reminder.Ids(today) + Reminder.Ids(overdue))[..|today|] == Reminder.Ids(today);
      assert (Reminder.Ids(today) + Reminder.Ids(overdue))[|today|..] == Reminder.Ids(overdue);
      Brief(Trim(content.value), Reminder.Ids(today) + Reminder.Ids(overdue))
  }

  /** Ids are not de-duplicated: a task due earlier today is both due today and
      overdue, and is listed twice. */
  lemma DueEarlierTodayListedTwice(t: Task, clock: Clock, content: string)
    requires t.status == Pending && t.deadline.Some?
    requires clock.dayStart <= t.deadline.value < clock.now && t.deadline.value <= clock.dayEnd
    ensures DailyBrief(Db([], [t], [], 0), clock, Some(content)).taskIds == [t.id, t.id]
  {
    assert TodaysTasks([t], clock.dayStart, clock.dayEnd) == [t];
    assert OverdueTasks([t], clock.now) == [t];
  }

  /** The counts in the quick status line. */
  datatype StatusCounts = StatusCounts(dueToday: nat, overdue: nat, open: nat, urgent: nat, high: nat)

  function QuickStatusCounts(db: Db, clock: Clock): (c: StatusCounts)
    ensures c.dueToday == |TodaysTasks(db.tasks, clock.dayStart, clock.dayEnd)|
    ensures c.overdue == |OverdueTasks(db.tasks, clock.now)|
    ensures c.open == |PendingTasks(db.tasks)|
    ensures c.urgent == |Reminder.Urgents(PendingTasks(db.tasks))|
    ensures c.high == |Reminder.Highs(PendingTasks(db.tasks))|
    ensures c.urgent + c.high <= c.open
  {
    var pending := PendingTasks(db.tasks);
    Reminder.GroupsPartition(pending);
    StatusCounts(|TodaysTasks(db.tasks, clock.dayStart, clock.dayEnd)|, |OverdueTasks(db.tasks, clock.now)|,
                 |pending|, |Reminder.Urgents(pending)|, |Reminder.Highs(pending)|)
  }

  /** `generateQuickStatus`. */
  function QuickStatus(db: Db, clock: Clock): (r: string)
    ensures var c := QuickStatusCounts(db, clock);
            StartsWith(r, NatToString(c.dueToday) + " due today, " + NatToString(c.overdue) + " overdue, ")
    ensures var c := QuickStatusCounts(db, clock);
            r == NatToString(c.dueToday) + " due today, " + NatToString(c.overdue) + " overdue, " +
                 NatToString(c.open) + " total open. " + NatToString(c.urgent) + " urgent, " +
                 NatToString(c.high) + " high priority."
    ensures EndsWith(r, " high priority.")
  {
    var c := QuickStatusCounts(db, clock);
    var head := NatToString(c.dueToday) + " due today, " + NatToString(c.overdue) + " overdue, ";
    var body := NatToString(c.open) + " total open. " + NatToString(c.urgent) + " urgent, " + NatToString(c.high);
    var tail := " high priority.";
    assert (head + body + tail)[..|head|] == head;
    EndsWithAppend(head + body, tail);
    head + body + tail
  }
}
