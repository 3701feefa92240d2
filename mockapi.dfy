/** The offline API client (MockAPIClient.swift): canned responses chosen by substring
    tests on the request path, and the fixture plan built around the start of today.
    JSON encoding and decoding of the canned values, the artificial delay and the device's
    date formatter are left to parameters or out. */
module MockApi {
  import opened Wrappers
  import opened Text
  import opened Models
  import Lists
  import Cache
  import Notifications
  import Dashboard

  /** What `mockData` encodes for a request. */
  datatype Payload =
    | StatusPayload(status: IntegrationStatus)
    | EventsPayload(events: seq<CalendarEvent>)
    | SignalsPayload(signals: seq<GmailSignal>)
    | TasksPayload(tasks: seq<CanvasTask>)
    | GoalsPayload(goals: seq<Goal>)
    | InsightsPayload(insights: PlanInsightsResponse)
    | PlanPayload(plan: PlanResponse)
    | SubmittedPayload(response: CheckInResponse)
    | CheckInsPayload(checkIns: seq<CheckIn>)
    | EmptyObject

  // ---- Fixtures, all relative to the start of today ----

  function At(today: Timestamp, hours: int, minutes: int): Timestamp {
    today + hours * MsPerHour + minutes * MsPerMinute
  }

  function MockEvents(today: Timestamp): seq<CalendarEvent> {
    [ NewCalendarEvent("ev1", "Team Standup", At(today, 9, 0), At(today, 9, 30)),
      NewCalendarEvent("ev2", "CS 301 Lecture", At(today, 11, 0), At(today, 12, 30)),
      NewCalendarEvent("ev3", "Gym", At(today, 17, 0), At(today, 18, 0)),
      NewCalendarEvent("ev4", "Project Meeting", At(today, 14, 0), At(today, 15, 0)) ]
  }

  function MockSignals(today: Timestamp): seq<GmailSignal> {
    [ GmailSignal("sig1", "Software Engineering Internship Application",
                  "Thank you for applying to our internship program...", "careers@techcorp.com",
                  today - MsPerDay, [Internship, Application]),
      GmailSignal("sig2", "Hackathon Registration Confirmation", "You're registered for HackMIT 2026...",
                  "team@hackmit.org", today - MsPerHour, [Hackathon, Rsvp]),
      GmailSignal("sig3", "Interview Scheduled - Google", "Your technical interview is scheduled for...",
                  "recruit@google.com", today, [Interview, Invite]) ]
  }

  function MockTasks(today: Timestamp): seq<CanvasTask> {
    [ CanvasTask("t1", "CS 301 - Algorithms", "Problem Set 5: Dynamic Programming", Some(today + 2 * MsPerDay),
                 Some(100.0), None),
      CanvasTask("t2", "MATH 240 - Linear Algebra", "Homework 7: Eigenvalues", Some(today + 4 * MsPerDay),
                 Some(50.0), None),
      CanvasTask("t3", "CS 301 - Algorithms", "Midterm Exam", Some(today + 7 * MsPerDay), Some(200.0), None) ]
  }

  function MockGoals(today: Timestamp): seq<Goal> {
    [ Goal("g1", "Study / Homework", Study, 7, 10.0, [Morning, Afternoon], None, today - 7 * MsPerDay),
      Goal("g2", "Interview Prep", Career, 9, 8.0, [Morning], Some(today + 14 * MsPerDay), today - 3 * MsPerDay),
      Goal("g3", "Fitness", Fitness, 5, 4.0, [Evening], None, today - 14 * MsPerDay) ]
  }

  const MockInsights: PlanInsightsResponse := PlanInsightsResponse(
    "Your time is split across Study, Interview Prep, and Fitness. You're slightly behind on Interview Prep but have spare capacity in the afternoons.",
    "• Fixed: Team Standup, lectures, meetings (~2h/day)\n• Study/Homework: ~2h/day\n• Interview Prep: ~1.5h/day\n• Fitness: ~1h/day",
    "Use the 11.5h spare per day in afternoon slots for Interview Prep to close the 2h deficit. Evening slots are also underused.",
    true)

  const MockSubmitted: CheckInResponse := CheckInResponse(
    "That lines up with your plan. You stayed on goal.",
    "If you keep this up, you'll be interview-ready in 2 weeks.",
    "mock-checkin-1")

  /** `mockCheckIns`. */
  const MockCheckIns: seq<CheckIn> := []

  /** How many days the fixture plan covers, and how many blocks each day holds. */
  const MockDays: nat := 14
  const BlocksPerDay: nat := 5

  /** One day of the fixture: the fixed stand-up first, then four goal blocks. */
  function DayBlocks(dayBase: Timestamp): (bs: seq<PlannedBlock>)
    ensures |bs| == BlocksPerDay
  {
    [ PlannedBlock("ev_standup", "Team Standup", Personal, At(dayBase, 9, 0), At(dayBase, 9, 30), true),
      PlannedBlock("g2", "Interview Prep", Career, At(dayBase, 7, 30), At(dayBase, 9, 0), false),
      PlannedBlock("g1", "Study / Homework", Study, At(dayBase, 10, 0), At(dayBase, 11, 0), false),
      PlannedBlock("g1", "Study / Homework", Study, At(dayBase, 13, 0), At(dayBase, 14, 0), false),
      PlannedBlock("g3", "Fitness", Fitness, At(dayBase, 17, 0), At(dayBase, 18, 0), false) ]
  }

  /** The fixture's blocks: block `i` is block `i % 5` of day `i / 5`, days 86400 s apart. */
  function MockBlocks(today: Timestamp): (bs: seq<PlannedBlock>)
    ensures |bs| == BlocksPerDay * MockDays
  {
    seq(BlocksPerDay * MockDays, i requires 0 <= i < BlocksPerDay * MockDays =>
      DayBlocks(today + (i / BlocksPerDay) * MsPerDay)[i % BlocksPerDay])
  }

  /** The capacity entries: one per day, under the formatter's key for that day. */
  function MockCapacity(today: Timestamp, dateKey: Timestamp -> string): (cs: seq<DayCapacity>)
    ensures |cs| == MockDays
  {
    seq(MockDays, d requires 0 <= d < MockDays => DayCapacity(dateKey(today + d * MsPerDay), 17.0, 5.5, 11.5))
  }

  /** `mockPlan`. */
  function MockPlan(today: Timestamp, dateKey: Timestamp -> string): PlanResponse {
    PlanResponse(
      MockBlocks(today),
      [UnmetGoal("g2", "Interview Prep", 16.0, 14.0, 2.0)],
      MockCapacity(today, dateKey),
      [ "You're behind on 'Interview Prep' by 2.0 hours. Fix it today.",
        "All other goals on track. Don't get comfortable — maintain the pace." ])
  }

  /** The closure that builds `mockPlan`: a loop over the fourteen days appending five
      blocks each, then the capacity entries and the messages. */
  method BuildMockPlan(today: Timestamp, dateKey: Timestamp -> string) returns (plan: PlanResponse)
    ensures plan == MockPlan(today, dateKey)
  {
    var blocks: seq<PlannedBlock> := [];
    var base := today;
    for day := 0 to MockDays
      invariant |blocks| == BlocksPerDay * day
      invariant forall i :: 0 <= i < |blocks| ==>
        blocks[i] == DayBlocks(today + (i / BlocksPerDay) * MsPerDay)[i % BlocksPerDay]
    {
      var dayBase := base + day * MsPerDay;
      ghost var before := blocks;
      blocks := blocks + [PlannedBlock("ev_standup", "Team Standup", Personal, At(dayBase, 9, 0), At(dayBase, 9, 30), true)];
      blocks := blocks + [PlannedBlock("g2", "Interview Prep", Career, At(dayBase, 7, 30), At(dayBase, 9, 0), false)];
      blocks := blocks + [PlannedBlock("g1", "Study / Homework", Study, At(dayBase, 10, 0), At(dayBase, 11, 0), false)];
      blocks := blocks + [PlannedBlock("g1", "Study / Homework", Study, At(dayBase, 13, 0), At(dayBase, 14, 0), false)];
      blocks := blocks + [PlannedBlock("g3", "Fitness", Fitness, At(dayBase, 17, 0), At(dayBase, 18, 0), false)];
      assert blocks == before + DayBlocks(dayBase);
      forall i | |before| <= i < |blocks|
        ensures blocks[i] == DayBlocks(today + (i / BlocksPerDay) * MsPerDay)[i % BlocksPerDay]
      {
        DayOfIndex(i, day);
      }
    }
    assert blocks == MockBlocks(today);
    plan := PlanResponse(
      blocks,
      [UnmetGoal("g2", "Interview Prep", 16.0, 14.0, 2.0)],
      MockCapacity(today, dateKey),
      [ "You're behind on 'Interview Prep' by 2.0 hours. Fix it today.",
        "All other goals on track. Don't get comfortable — maintain the pace." ]);
  }

  /** The indices of day `day` are `5 * day` up to `5 * day + 4`. */
  lemma DayOfIndex(i: int, day: int)
    requires BlocksPerDay * day <= i < BlocksPerDay * day + BlocksPerDay
    ensures i / BlocksPerDay == day && i % BlocksPerDay == i - BlocksPerDay * day
  {
  }

  /** Within a day only the stand-up is fixed, and every block starts inside the day. */
  lemma DayBlocksShape(dayBase: Timestamp)
    ensures forall k :: 0 <= k < BlocksPerDay ==>
      && (DayBlocks(dayBase)[k].isFixed <==> k == 0)
      && dayBase <= DayBlocks(dayBase)[k].start < dayBase + MsPerDay
  {
  }

  /** Five blocks a day, the fixed ones exactly the first of each day, and block `i`
      starting inside day `i / 5`. */
  lemma MockBlocksShape(today: Timestamp)
    ensures var bs := MockBlocks(today);
      && (forall i :: 0 <= i < |bs| ==> (bs[i].isFixed <==> i % BlocksPerDay == 0))
      && (forall i :: 0 <= i < |bs| ==>
            today + (i / BlocksPerDay) * MsPerDay <= bs[i].start < today + (i / BlocksPerDay) * MsPerDay + MsPerDay)
  {
    var bs := MockBlocks(today);
    forall i | 0 <= i < |bs|
      ensures (bs[i].isFixed <==> i % BlocksPerDay == 0)
      ensures today + (i / BlocksPerDay) * MsPerDay <= bs[i].start < today + (i / BlocksPerDay) * MsPerDay + MsPerDay
    {
      DayBlocksShape(today + (i / BlocksPerDay) * MsPerDay);
    }
  }

  /** Every capacity entry reports 17 hours in all, 5.5 allocated and 11.5 spare. */
  lemma MockCapacityShape(today: Timestamp, dateKey: Timestamp -> string)
    ensures forall i :: 0 <= i < |MockCapacity(today, dateKey)| ==>
      var c := MockCapacity(today, dateKey)[i];
      c.totalHours == 17.0 && c.allocatedHours == 5.5 && c.spareHours == 11.5
  {
  }

  /** The fixture plan has seventy blocks, one fixed block per day, and fourteen capacity
      entries. */
  lemma MockPlanShape(today: Timestamp, dateKey: Timestamp -> string)
    ensures |MockPlan(today, dateKey).blocks| == 70
    ensures |MockPlan(today, dateKey).capacityByDay| == 14
  {
  }

  // ---- Path dispatch ----

  /** `mockData(for:method:)`: the first test that the path passes decides. */
  function MockData(path: string, httpMethod: string, today: Timestamp, dateKey: Timestamp -> string): Payload {
    if Contains(path, "/integrations/status") then StatusPayload(IntegrationStatus(true, true))
    else if Contains(path, "/calendar/events") then EventsPayload(MockEvents(today))
    else if Contains(path, "/gmail/signals") then SignalsPayload(MockSignals(today))
    else if Contains(path, "/canvas/tasks") then TasksPayload(MockTasks(today))
    else if Contains(path, "/goals") then GoalsPayload(MockGoals(today))
    else if Contains(path, "/plan/insights") then InsightsPayload(MockInsights)
    else if Contains(path, "/plan") then PlanPayload(MockPlan(today, dateKey))
    else if Contains(path, "/checkins") then
      if httpMethod == "POST" then SubmittedPayload(MockSubmitted) else CheckInsPayload(MockCheckIns)
    else EmptyObject
  }

  /** Whether a path passes one of the five tests made before the plan tests. */
  predicate EarlierRoute(path: string) {
    || Contains(path, "/integrations/status") || Contains(path, "/calendar/events")
    || Contains(path, "/gmail/signals") || Contains(path, "/canvas/tasks") || Contains(path, "/goals")
  }

  /** Every path holding "/plan/insights" also holds "/plan", so the insights test has to come
      first; past the earlier tests, such a path gets the insights and every other "/plan"
      path gets the plan; "/checkins" splits on the method; anything else gets "{}". */
  lemma DispatchOrder(path: string, httpMethod: string, today: Timestamp, dateKey: Timestamp -> string)
    ensures Contains(path, "/plan/insights") ==> Contains(path, "/plan")
    ensures !EarlierRoute(path) && Contains(path, "/plan/insights") ==>
      MockData(path, httpMethod, today, dateKey) == InsightsPayload(MockInsights)
    ensures !EarlierRoute(path) && !Contains(path, "/plan/insights") && Contains(path, "/plan") ==>
      MockData(path, httpMethod, today, dateKey) == PlanPayload(MockPlan(today, dateKey))
    ensures !EarlierRoute(path) && !Contains(path, "/plan") && Contains(path, "/checkins") ==>
      MockData(path, httpMethod, today, dateKey) ==
        (if httpMethod == "POST" then SubmittedPayload(MockSubmitted) else CheckInsPayload(MockCheckIns))
    ensures !EarlierRoute(path) && !Contains(path, "/plan") && !Contains(path, "/checkins") ==>
      MockData(path, httpMethod, today, dateKey) == EmptyObject
  {
    if Contains(path, "/plan/insights") {
      assert "/plan" + "/insights" == "/plan/insights";
      ContainsPrefix(path, "/plan", "/insights");
    }
  }

  // ---- The fixture through the dashboard ----

  /** The fixture's first five blocks are today's. */
  lemma FirstFive(today: Timestamp)
    ensures MockBlocks(today)[..BlocksPerDay] == DayBlocks(today)
  {
    var first := MockBlocks(today)[..BlocksPerDay];
    forall i | 0 <= i < BlocksPerDay ensures first[i] == DayBlocks(today)[i] {
      DayOfIndex(i, 0);
    }
  }

  /** Every block after the first five starts on a later day. */
  lemma LaterDays(today: Timestamp)
    ensures forall b :: b in MockBlocks(today)[BlocksPerDay..] ==> b.start >= today + MsPerDay
  {
    var bs := MockBlocks(today);
    LaterIndices(today);
    forall b | b in bs[BlocksPerDay..] ensures b.start >= today + MsPerDay {
      var j :| 0 <= j < |bs[BlocksPerDay..]| && bs[BlocksPerDay..][j] == b;
      assert bs[BlocksPerDay + j] == b;
    }
  }

  /** Every block after the first five starts on a later day. */
  lemma LaterIndices(today: Timestamp)
    ensures forall i :: BlocksPerDay <= i < |MockBlocks(today)| ==> MockBlocks(today)[i].start >= today + MsPerDay
  {
    var bs := MockBlocks(today);
    MockBlocksShape(today);
    forall i | BlocksPerDay <= i < |bs| ensures bs[i].start >= today + MsPerDay {
      var q := i / BlocksPerDay;
      assert q >= 1;
      assert q * MsPerDay >= MsPerDay;
    }
  }

  /** Of the fixture's blocks, those of the first day are exactly that day's five. */
  lemma FirstDayBlocks(today: Timestamp)
    ensures Dashboard.BlocksOn(MockBlocks(today), DayRange(today, today + MsPerDay)) == DayBlocks(today)
  {
    var bs, day := MockBlocks(today), DayRange(today, today + MsPerDay);
    var first, rest := bs[..BlocksPerDay], bs[BlocksPerDay..];
    assert bs == first + rest;
    FirstFive(today);
    DayBlocksShape(today);
    Lists.FilterAll(first, Dashboard.StartsOn(day));
    LaterDays(today);
    Lists.FilterNone(rest, Dashboard.StartsOn(day));
    Lists.FilterAppend(first, rest, Dashboard.StartsOn(day));
  }

  /** The dashboard refreshed against the fixture on its first day shows five blocks and
      some coaching messages, whatever the other four feeds answered. */
  method DashboardShowsFixture(today: Timestamp, dateKey: Timestamp -> string, now: Timestamp, feeds: Dashboard.Feeds)
    returns (shown: nat, messages: seq<string>)
    requires feeds.plan == Success(MockPlan(today, dateKey))
    ensures shown == 5 && messages != []
  {
    var cache := new Cache.PlanCache(None);
    var center := new Notifications.NotificationCenter();
    var vm := new Dashboard.DashboardViewModel(cache, center);
    var day := DayRange(today, today + MsPerDay);
    vm.LoadData(feeds, now, day, dateKey(today), Cache.Written);
    FixtureToday(today, dateKey);
    shown, messages := |vm.todayBlocks|, vm.coachingMessages;
  }

  /** Sorted for display, the fixture's first day still has its five blocks, and the plan
      carries coaching messages. */
  lemma FixtureToday(today: Timestamp, dateKey: Timestamp -> string)
    ensures |Dashboard.SortedByStart(Dashboard.BlocksOn(MockPlan(today, dateKey).blocks, DayRange(today, today + MsPerDay)))| == BlocksPerDay
    ensures MockPlan(today, dateKey).coachingMessages != []
  {
    var d := Dashboard.BlocksOn(MockBlocks(today), DayRange(today, today + MsPerDay));
    FirstDayBlocks(today);
    Dashboard.SortedByStartSorts(d);
    assert |Dashboard.SortedByStart(d)| == |multiset(Dashboard.SortedByStart(d))|;
  }
}
