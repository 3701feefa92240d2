/** Local reminders (NotificationService.swift). The system's pending-request registry is
    a map from identifier to request in which adding under an existing identifier
    replaces that request. Each scheduling call is specified by the sequence of
    additions it makes, applied in order to the registry. */
module Notifications {
  import opened Wrappers
  import opened Text
  import opened Models
  import Lists

  /** A pending notification: its title, its body and the instant it fires at. */
  datatype Request = Request(title: string, body: string, fireAt: Timestamp)

  /** One `add` call: an identifier and the request filed under it. */
  datatype Addition = Addition(id: string, request: Request)

  const EventLeadMinutes: int := 15
  const CheckInDelayMinutes: int := 5
  const CanvasLeadHours: seq<int> := [24, 2]
  const MaxRemindedBlocks: nat := 50

  class NotificationCenter {
    var pending: map<string, Request>

    constructor()
      ensures pending == map[]
    {
      pending := map[];
    }

    /** `add`: files the request under its identifier, replacing any request there. */
    method Add(a: Addition)
      modifies this
      ensures pending == old(pending)[a.id := a.request]
    {
      pending := pending[a.id := a.request];
    }

    /** `removeAllPendingNotificationRequests`, whoever filed them. */
    method RemoveAllPending()
      modifies this
      ensures pending == map[]
    {
      pending := map[];
    }
  }

  // ---- The registry after a sequence of additions ----

  function IdsOf(adds: seq<Addition>): set<string> {
    set i | 0 <= i < |adds| :: adds[i].id
  }

  /** The registry `m` after the additions, in order. */
  function Apply(m: map<string, Request>, adds: seq<Addition>): map<string, Request>
  {
    if adds == [] then m
    else Apply(m, adds[..|adds| - 1])[adds[|adds| - 1].id := adds[|adds| - 1].request]
  }

  /** The identifiers pending afterwards are those pending before and those added. */
  lemma {:induction false} ApplyKeys(m: map<string, Request>, adds: seq<Addition>)
    ensures Apply(m, adds).Keys == m.Keys + IdsOf(adds)
  {
    if adds != [] {
      var init, last := adds[..|adds| - 1], adds[|adds| - 1];
      assert IdsOf(adds) == IdsOf(init) + {last.id} by {
        assert forall i :: 0 <= i < |init| ==> init[i] == adds[i];
      }
      ApplyKeys(m, init);
    }
  }

  /** The request of the last addition filed under `id`. */
  function LastRequest(adds: seq<Addition>, id: string): Request
    requires id in IdsOf(adds)
  {
    var last := adds[|adds| - 1];
    if last.id == id then last.request
    else
      var init := adds[..|adds| - 1];
      assert id in IdsOf(init) by {
        var i :| 0 <= i < |adds| && adds[i].id == id;
        assert init[i] == adds[i];
      }
      LastRequest(init, id)
  }

  /** Each identifier holds its last added request, and untouched identifiers keep theirs. */
  lemma {:induction false} ApplyLookup(m: map<string, Request>, adds: seq<Addition>, id: string)
    requires id in Apply(m, adds)
    ensures id in IdsOf(adds) ==> Apply(m, adds)[id] == LastRequest(adds, id)
    ensures id !in IdsOf(adds) ==> id in m && Apply(m, adds)[id] == m[id]
  {
    ApplyKeys(m, adds);
    if adds != [] {
      var init, last := adds[..|adds| - 1], adds[|adds| - 1];
      if last.id != id {
        assert id in IdsOf(adds) <==> id in IdsOf(init) by {
          assert forall i :: 0 <= i < |init| ==> init[i] == adds[i];
        }
        ApplyLookup(m, init, id);
      }
    }
  }

  /** Doing the same additions again leaves the registry as it was after the first time:
      identifiers are deterministic, so repeats replace rather than double. */
  lemma ApplyIdempotent(m: map<string, Request>, adds: seq<Addition>)
    ensures Apply(Apply(m, adds), adds) == Apply(m, adds)
  {
    var once := Apply(m, adds);
    var twice := Apply(once, adds);
    ApplyKeys(m, adds);
    ApplyKeys(once, adds);
    forall id | id in twice
      ensures twice[id] == once[id]
    {
      ApplyLookup(once, adds, id);
      if id in IdsOf(adds) {
        ApplyLookup(m, adds, id);
      }
    }
  }

  lemma {:induction false} ApplyConcat(m: map<string, Request>, x: seq<Addition>, y: seq<Addition>)
    ensures Apply(m, x + y) == Apply(Apply(m, x), y)
    decreases |y|
  {
    if y != [] {
      var y0 := y[..|y| - 1];
      assert (x + y)[..|x + y| - 1] == x + y0;
      ApplyConcat(m, x, y0);
    } else {
      assert x + y == x;
    }
  }

  lemma {:induction false} IdsOfSize(adds: seq<Addition>)
    ensures |IdsOf(adds)| <= |adds|
  {
    if adds != [] {
      var init := adds[..|adds| - 1];
      assert IdsOf(adds) == IdsOf(init) + {adds[|adds| - 1].id} by {
        assert forall i :: 0 <= i < |init| ==> init[i] == adds[i];
      }
      IdsOfSize(init);
    }
  }

  // ---- One reminder of each kind ----

  /** `scheduleEventReminder`: "event-<title>-<start seconds>", `minutesBefore` minutes
      before the start, whether or not that instant has passed. */
  function EventReminder(title: string, start: Timestamp, minutesBefore: int): (a: Addition)
    ensures StartsWith(a.id, "event-")
    ensures a.request.fireAt + minutesBefore * MsPerMinute == start
  {
    Addition(
      "event-" + title + "-" + SecondsText(start),
      Request("Starting Soon", title + " begins in " + IntText(minutesBefore) + " minutes. Get moving.",
              start - minutesBefore * MsPerMinute))
  }

  function CheckInReminder(b: PlannedBlock, minutesAfterEnd: int): (a: Addition)
    ensures StartsWith(a.id, "checkin-")
    ensures a.request.fireAt == b.end + minutesAfterEnd * MsPerMinute
  {
    Addition(
      "checkin-" + b.goalId + "-" + SecondsText(b.start),
      Request("Check-in", "What did you do for " + b.goalName + "? Log it and stay honest.",
              b.end + minutesAfterEnd * MsPerMinute))
  }

  /** `scheduleCheckInReminder` adds its reminder only when it would fire after now. */
  function CheckInAdditions(b: PlannedBlock, minutesAfterEnd: int, now: Timestamp): (r: seq<Addition>)
    ensures |r| <= 1
    ensures r != [] <==> b.end + minutesAfterEnd * MsPerMinute > now
    ensures r != [] ==> r == [CheckInReminder(b, minutesAfterEnd)] && r[0].request.fireAt > now
  {
    if b.end + minutesAfterEnd * MsPerMinute > now then [CheckInReminder(b, minutesAfterEnd)] else []
  }

  function CanvasReminder(assignment: string, course: string, due: Timestamp, hours: int): (a: Addition)
    ensures StartsWith(a.id, "canvas-")
    ensures a.request.fireAt + hours * MsPerHour == due
  {
    Addition(
      "canvas-" + assignment + "-" + IntText(hours) + "h",
      Request("\U{1F4DA} " + course, assignment + " due in " + IntText(hours) + " hours. No excuses.",
              due - hours * MsPerHour))
  }

  predicate CanvasDue(due: Timestamp, hours: int, now: Timestamp) {
    due - hours * MsPerHour > now
  }

  /** The additions `scheduleCanvasDeadline` makes for the lead times in `leads`, in order,
      skipping those whose reminder would not fire after now. */
  function CanvasAdditions(assignment: string, course: string, due: Timestamp, leads: seq<int>, now: Timestamp)
    : (r: seq<Addition>)
    ensures |r| <= |leads|
    decreases |leads|
  {
    if leads == [] then []
    else
      var h := leads[|leads| - 1];
      CanvasAdditions(assignment, course, due, leads[..|leads| - 1], now)
        + (if CanvasDue(due, h, now) then [CanvasReminder(assignment, course, due, h)] else [])
  }

  /** A deadline reminder is made exactly for each lead time whose firing instant is still ahead. */
  lemma {:induction false} CanvasAdditionsMembers(assignment: string, course: string, due: Timestamp, leads: seq<int>,
                                                  now: Timestamp, a: Addition)
    ensures a in CanvasAdditions(assignment, course, due, leads, now) <==>
      exists h :: h in leads && CanvasDue(due, h, now) && a == CanvasReminder(assignment, course, due, h)
    decreases |leads|
  {
    if leads != [] {
      var init := leads[..|leads| - 1];
      assert leads == init + [leads[|leads| - 1]];
      CanvasAdditionsMembers(assignment, course, due, init, now, a);
    }
  }

  // ---- The two batch operations ----

  predicate Upcoming(b: PlannedBlock, now: Timestamp) {
    b.start > now && !b.isFixed
  }

  /** The blocks that start after now and are not fixed, in input order. */
  function UpcomingBlocks(blocks: seq<PlannedBlock>, now: Timestamp): seq<PlannedBlock>
    decreases |blocks|
  {
    if blocks == [] then []
    else if Upcoming(blocks[0], now) then [blocks[0]] + UpcomingBlocks(blocks[1..], now)
    else UpcomingBlocks(blocks[1..], now)
  }

  /** Exactly the upcoming blocks are kept, and no more of them than the input holds. */
  lemma {:induction false} UpcomingBlocksKeepsUpcoming(blocks: seq<PlannedBlock>, now: Timestamp)
    ensures var r := UpcomingBlocks(blocks, now);
      && |r| <= |blocks|
      && (forall i :: 0 <= i < |r| ==> Upcoming(r[i], now) && r[i] in blocks)
      && (forall i :: 0 <= i < |blocks| && Upcoming(blocks[i], now) ==> blocks[i] in r)
    decreases |blocks|
  {
    if blocks != [] {
      UpcomingBlocksKeepsUpcoming(blocks[1..], now);
      assert blocks == [blocks[0]] + blocks[1..];
      var r := UpcomingBlocks(blocks, now);
      forall i | 0 <= i < |blocks| && Upcoming(blocks[i], now) ensures blocks[i] in r {
        if i > 0 { assert blocks[i] == blocks[1..][i - 1]; }
      }
    }
  }

  /** The blocks `scheduleBlockReminders` reminds about: the first fifty upcoming,
      non-fixed blocks in input order. */
  function ConsideredBlocks(blocks: seq<PlannedBlock>, now: Timestamp): (r: seq<PlannedBlock>)
    ensures |r| <= MaxRemindedBlocks
  {
    Lists.Take(UpcomingBlocks(blocks, now), MaxRemindedBlocks)
  }

  /** The considered blocks are a prefix of the upcoming ones, and all of them when there
      are at most fifty. */
  lemma ConsideredBlocksArePrefix(blocks: seq<PlannedBlock>, now: Timestamp)
    ensures var r := ConsideredBlocks(blocks, now);
      && |r| <= |UpcomingBlocks(blocks, now)| && r == UpcomingBlocks(blocks, now)[..|r|]
      && (forall i :: 0 <= i < |r| ==> Upcoming(r[i], now) && r[i] in blocks)
      && (|UpcomingBlocks(blocks, now)| <= MaxRemindedBlocks ==>
            forall i :: 0 <= i < |blocks| && Upcoming(blocks[i], now) ==> blocks[i] in r)
  {
    UpcomingBlocksKeepsUpcoming(blocks, now);
    var u := UpcomingBlocks(blocks, now);
    var r := ConsideredBlocks(blocks, now);
    forall i | 0 <= i < |r| ensures Upcoming(r[i], now) && r[i] in blocks {
      assert r[i] == u[i];
    }
  }

  /** The additions made for the considered blocks: an event reminder for each, followed
      by its check-in reminder when that is still ahead. */
  function BlockAdditions(bs: seq<PlannedBlock>, now: Timestamp): (r: seq<Addition>)
    ensures |r| <= 2 * |bs|
    decreases |bs|
  {
    if bs == [] then []
    else
      var b := bs[|bs| - 1];
      BlockAdditions(bs[..|bs| - 1], now)
        + [EventReminder(b.goalName, b.start, EventLeadMinutes)]
        + CheckInAdditions(b, CheckInDelayMinutes, now)
  }

  lemma {:induction false} BlockAdditionsMembers(bs: seq<PlannedBlock>, now: Timestamp, a: Addition)
    ensures a in BlockAdditions(bs, now) <==>
      exists b :: b in bs &&
        (a == EventReminder(b.goalName, b.start, EventLeadMinutes) ||
         (a == CheckInReminder(b, CheckInDelayMinutes) && b.end + CheckInDelayMinutes * MsPerMinute > now))
    decreases |bs|
  {
    if bs != [] {
      var init := bs[..|bs| - 1];
      assert bs == init + [bs[|bs| - 1]];
      BlockAdditionsMembers(init, now, a);
    }
  }

  /** The deadline reminders of one task: none without a due date. */
  function TaskAdditions(t: CanvasTask, now: Timestamp): (r: seq<Addition>)
    ensures |r| <= 2
    ensures t.dueAt.None? ==> r == []
  {
    match t.dueAt
    case None => []
    case Some(due) => CanvasAdditions(t.assignmentName, t.courseName, due, CanvasLeadHours, now)
  }

  /** The additions `scheduleDueDateReminders` makes: the deadline reminders of every task
      that has a due date, in task order. */
  function DueDateAdditions(tasks: seq<CanvasTask>, now: Timestamp): (r: seq<Addition>)
    ensures |r| <= 2 * |tasks|
    decreases |tasks|
  {
    if tasks == [] then []
    else DueDateAdditions(tasks[..|tasks| - 1], now) + TaskAdditions(tasks[|tasks| - 1], now)
  }

  /** Only dated tasks get reminders, each at 24 h or 2 h before the due instant. */
  lemma {:induction false} DueDateAdditionsFromDatedTasks(tasks: seq<CanvasTask>, now: Timestamp, a: Addition)
    requires a in DueDateAdditions(tasks, now)
    ensures exists t :: (t in tasks && t.dueAt.Some? &&
      (a == CanvasReminder(t.assignmentName, t.courseName, t.dueAt.value, 24) ||
       a == CanvasReminder(t.assignmentName, t.courseName, t.dueAt.value, 2)))
    decreases |tasks|
  {
    var init, t := tasks[..|tasks| - 1], tasks[|tasks| - 1];
    if a in DueDateAdditions(init, now) {
      DueDateAdditionsFromDatedTasks(init, now, a);
      var u :| u in init && u.dueAt.Some? &&
        (a == CanvasReminder(u.assignmentName, u.courseName, u.dueAt.value, 24) ||
         a == CanvasReminder(u.assignmentName, u.courseName, u.dueAt.value, 2));
      assert u in tasks;
    } else {
      CanvasAdditionsMembers(t.assignmentName, t.courseName, t.dueAt.value, CanvasLeadHours, now, a);
    }
  }

  // ---- One loop step of each batch operation ----

  lemma CanvasStep(m: map<string, Request>, assignment: string, course: string, due: Timestamp, leads: seq<int>,
                   i: nat, now: Timestamp)
    requires i < |leads|
    ensures var before := Apply(m, CanvasAdditions(assignment, course, due, leads[..i], now));
      var a := CanvasReminder(assignment, course, due, leads[i]);
      Apply(m, CanvasAdditions(assignment, course, due, leads[..i + 1], now))
        == if CanvasDue(due, leads[i], now) then before[a.id := a.request] else before
  {
    assert leads[..i + 1][..i] == leads[..i];
    var prior := CanvasAdditions(assignment, course, due, leads[..i], now);
    if CanvasDue(due, leads[i], now) {
      assert (prior + [CanvasReminder(assignment, course, due, leads[i])])[..|prior|] == prior;
    } else {
      assert prior + [] == prior;
    }
  }

  lemma BlockStep(bs: seq<PlannedBlock>, i: nat, now: Timestamp)
    requires i < |bs|
    ensures Apply(map[], BlockAdditions(bs[..i + 1], now))
      == Apply(Apply(Apply(map[], BlockAdditions(bs[..i], now)), [EventReminder(bs[i].goalName, bs[i].start, EventLeadMinutes)]),
               CheckInAdditions(bs[i], CheckInDelayMinutes, now))
  {
    assert bs[..i + 1][..i] == bs[..i];
    var before, ev := BlockAdditions(bs[..i], now), EventReminder(bs[i].goalName, bs[i].start, EventLeadMinutes);
    ApplyConcat(map[], before, [ev]);
    ApplyConcat(map[], before + [ev], CheckInAdditions(bs[i], CheckInDelayMinutes, now));
  }

  lemma DueDateStep(m: map<string, Request>, tasks: seq<CanvasTask>, i: nat, now: Timestamp)
    requires i < |tasks|
    ensures Apply(m, DueDateAdditions(tasks[..i + 1], now))
      == Apply(Apply(m, DueDateAdditions(tasks[..i], now)), TaskAdditions(tasks[i], now))
  {
    assert tasks[..i + 1][..i] == tasks[..i];
    ApplyConcat(m, DueDateAdditions(tasks[..i], now), TaskAdditions(tasks[i], now));
  }

  /** `scheduleEventReminder`. */
  method ScheduleEventReminder(center: NotificationCenter, title: string, start: Timestamp, minutesBefore: int)
    modifies center
    ensures center.pending == Apply(old(center.pending), [EventReminder(title, start, minutesBefore)])
  {
    center.Add(EventReminder(title, start, minutesBefore));
  }

  /** `scheduleCheckInReminder`. */
  method ScheduleCheckInReminder(center: NotificationCenter, b: PlannedBlock, minutesAfterEnd: int, now: Timestamp)
    modifies center
    ensures center.pending == Apply(old(center.pending), CheckInAdditions(b, minutesAfterEnd, now))
  {
    var fireAt := b.end + minutesAfterEnd * MsPerMinute;
    if !(fireAt > now) {
      return;
    }
    center.Add(CheckInReminder(b, minutesAfterEnd));
  }

  /** `scheduleCanvasDeadline`: one reminder per lead time, 24 h then 2 h, each only if ahead. */
  method ScheduleCanvasDeadline(center: NotificationCenter, assignment: string, course: string, due: Timestamp,
                                now: Timestamp)
    modifies center
    ensures center.pending == Apply(old(center.pending), CanvasAdditions(assignment, course, due, CanvasLeadHours, now))
  {
    var hoursBefore := CanvasLeadHours;
    for i := 0 to |hoursBefore|
      invariant center.pending == Apply(old(center.pending), CanvasAdditions(assignment, course, due, hoursBefore[..i], now))
    {
      var hours := hoursBefore[i];
      CanvasStep(old(center.pending), assignment, course, due, hoursBefore, i, now);
      var triggerDate := due - hours * MsPerHour;
      if !(triggerDate > now) {
        continue;
      }
      center.Add(CanvasReminder(assignment, course, due, hours));
    }
    assert hoursBefore[..|hoursBefore|] == hoursBefore;
  }

  /** `scheduleBlockReminders`: clears the registry, then reminds about the considered blocks. */
  method ScheduleBlockReminders(center: NotificationCenter, blocks: seq<PlannedBlock>, now: Timestamp)
    modifies center
    ensures center.pending == Apply(map[], BlockAdditions(ConsideredBlocks(blocks, now), now))
  {
    center.RemoveAllPending();
    var upcoming := ConsideredBlocks(blocks, now);
    for i := 0 to |upcoming|
      invariant center.pending == Apply(map[], BlockAdditions(upcoming[..i], now))
    {
      var b := upcoming[i];
      BlockStep(upcoming, i, now);
      ScheduleEventReminder(center, b.goalName, b.start, EventLeadMinutes);
      ScheduleCheckInReminder(center, b, CheckInDelayMinutes, now);
    }
    assert upcoming[..|upcoming|] == upcoming;
  }

  /** `scheduleDueDateReminders`: adds deadline reminders without cancelling anything. */
  method ScheduleDueDateReminders(center: NotificationCenter, tasks: seq<CanvasTask>, now: Timestamp)
    modifies center
    ensures center.pending == Apply(old(center.pending), DueDateAdditions(tasks, now))
  {
    for i := 0 to |tasks|
      invariant center.pending == Apply(old(center.pending), DueDateAdditions(tasks[..i], now))
    {
      var task := tasks[i];
      DueDateStep(old(center.pending), tasks, i, now);
      if task.dueAt.Some? {
        ScheduleCanvasDeadline(center, task.assignmentName, task.courseName, task.dueAt.value, now);
      }
    }
    assert tasks[..|tasks|] == tasks;
  }

  // ---- Properties of a refresh ----

  /** One `scheduleBlockReminders` leaves at most 100 pending requests. */
  lemma BlockRemindersBound(blocks: seq<PlannedBlock>, now: Timestamp)
    ensures |Apply(map[], BlockAdditions(ConsideredBlocks(blocks, now), now))| <= 2 * MaxRemindedBlocks
  {
    var adds := BlockAdditions(ConsideredBlocks(blocks, now), now);
    IdsOfSize(adds);
    ApplyKeys(map[], adds);
  }

  /** After `scheduleBlockReminders`, a request is pending only when it is the event
      reminder of a considered block, or the check-in reminder of one that is still ahead.
      `BlockRemindersCover` gives the converse for identifiers. */
  lemma BlockRemindersPending(blocks: seq<PlannedBlock>, now: Timestamp, id: string, req: Request)
    ensures (id in Apply(map[], BlockAdditions(ConsideredBlocks(blocks, now), now)) &&
             Apply(map[], BlockAdditions(ConsideredBlocks(blocks, now), now))[id] == req)
      ==> exists b :: (b in ConsideredBlocks(blocks, now) &&
        (Addition(id, req) == EventReminder(b.goalName, b.start, EventLeadMinutes) ||
         (Addition(id, req) == CheckInReminder(b, CheckInDelayMinutes) && b.end + CheckInDelayMinutes * MsPerMinute > now)))
  {
    var bs := ConsideredBlocks(blocks, now);
    var adds := BlockAdditions(bs, now);
    if id in Apply(map[], adds) && Apply(map[], adds)[id] == req {
      ApplyLookup(map[], adds, id);
      LastRequestIsAdded(adds, id);
      BlockAdditionsMembers(bs, now, Addition(id, req));
    }
  }

  /** After `scheduleBlockReminders`, every considered block has its event reminder's
      identifier pending, and its check-in reminder's too when that fires after now. The
      request under an identifier is the last one added under it (`ApplyLookup`), so of two
      blocks with the same identifier only the later one's request remains. */
  lemma BlockRemindersCover(blocks: seq<PlannedBlock>, now: Timestamp, b: PlannedBlock)
    requires b in ConsideredBlocks(blocks, now)
    ensures EventReminder(b.goalName, b.start, EventLeadMinutes).id in
      Apply(map[], BlockAdditions(ConsideredBlocks(blocks, now), now))
    ensures b.end + CheckInDelayMinutes * MsPerMinute > now ==>
      CheckInReminder(b, CheckInDelayMinutes).id in Apply(map[], BlockAdditions(ConsideredBlocks(blocks, now), now))
  {
    var bs := ConsideredBlocks(blocks, now);
    var adds := BlockAdditions(bs, now);
    ApplyKeys(map[], adds);
    var ev := EventReminder(b.goalName, b.start, EventLeadMinutes);
    BlockAdditionsMembers(bs, now, ev);
    var i :| 0 <= i < |adds| && adds[i] == ev;
    assert ev.id in IdsOf(adds);
    if b.end + CheckInDelayMinutes * MsPerMinute > now {
      var ci := CheckInReminder(b, CheckInDelayMinutes);
      BlockAdditionsMembers(bs, now, ci);
      var j :| 0 <= j < |adds| && adds[j] == ci;
      assert ci.id in IdsOf(adds);
    }
  }

  lemma {:induction false} LastRequestIsAdded(adds: seq<Addition>, id: string)
    requires id in IdsOf(adds)
    ensures Addition(id, LastRequest(adds, id)) in adds
  {
    var last := adds[|adds| - 1];
    if last.id != id {
      var init := adds[..|adds| - 1];
      assert id in IdsOf(init) by {
        var i :| 0 <= i < |adds| && adds[i].id == id;
        assert init[i] == adds[i];
      }
      LastRequestIsAdded(init, id);
    }
  }

  /** The registry after a refresh: emptied, then the reminders for the considered blocks,
      then the due-date reminders of the Canvas tasks. */
  function Refreshed(blocks: seq<PlannedBlock>, tasks: seq<CanvasTask>, now: Timestamp): map<string, Request> {
    Apply(Apply(map[], BlockAdditions(ConsideredBlocks(blocks, now), now)), DueDateAdditions(tasks, now))
  }

  /** A refresh (block reminders, then due-date reminders) repeated with the same inputs
      and clock leaves the registry one refresh leaves: nothing is doubled. */
  method RefreshTwice(center: NotificationCenter, blocks: seq<PlannedBlock>, tasks: seq<CanvasTask>, now: Timestamp)
    returns (afterOnce: map<string, Request>)
    modifies center
    ensures afterOnce == Refreshed(blocks, tasks, now)
    ensures center.pending == afterOnce
  {
    ScheduleBlockReminders(center, blocks, now);
    ScheduleDueDateReminders(center, tasks, now);
    afterOnce := center.pending;
    ScheduleBlockReminders(center, blocks, now);
    ScheduleDueDateReminders(center, tasks, now);
  }

  /** Scheduling the due-date reminders twice is the same as once. */
  lemma DueDateRemindersIdempotent(m: map<string, Request>, tasks: seq<CanvasTask>, now: Timestamp)
    ensures Apply(Apply(m, DueDateAdditions(tasks, now)), DueDateAdditions(tasks, now)) == Apply(m, DueDateAdditions(tasks, now))
  {
    ApplyIdempotent(m, DueDateAdditions(tasks, now));
  }

  /** A lone upcoming block whose check-in is still ahead gets exactly its event reminder
      and then its check-in reminder. */
  lemma SingleBlockAdditions(b: PlannedBlock, now: Timestamp)
    requires Upcoming(b, now) && b.end + CheckInDelayMinutes * MsPerMinute > now
    ensures BlockAdditions(ConsideredBlocks([b], now), now)
      == [EventReminder(b.goalName, b.start, EventLeadMinutes), CheckInReminder(b, CheckInDelayMinutes)]
  {
    assert UpcomingBlocks([b], now) == [b] by {
      assert [b][1..] == [];
    }
    assert [b][..0] == [];
  }

  lemma ApplyPair(m: map<string, Request>, a: Addition, c: Addition)
    ensures Apply(m, [a, c]) == m[a.id := a.request][c.id := c.request]
  {
    assert [a][..0] == [];
    assert Apply(m, [a]) == m[a.id := a.request];
    assert [a, c][..1] == [a];
  }

  /** A block starting ten minutes from now still gets its event reminder, which fires
      five minutes in the past. */
  method PastEventReminderKept(now: Timestamp) returns (pending: map<string, Request>, id: string)
    ensures id in pending && pending[id].fireAt == now - 5 * MsPerMinute
  {
    var b := PlannedBlock("g1", "Study", Study, now + 10 * MsPerMinute, now + 70 * MsPerMinute, false);
    var center := new NotificationCenter();
    ScheduleBlockReminders(center, [b], now);
    var ev, ck := EventReminder(b.goalName, b.start, EventLeadMinutes), CheckInReminder(b, CheckInDelayMinutes);
    SingleBlockAdditions(b, now);
    ApplyPair(map[], ev, ck);
    assert ev.id[0] != ck.id[0];
    id, pending := ev.id, center.pending;
  }
}
