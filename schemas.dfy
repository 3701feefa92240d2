/** The server's shared JSON models (app/models/schemas.py): the records the routers and
    services pass around, their field constraints and their defaults. Instants are whole
    seconds since the Unix epoch in UTC; float fields are `real`. */
module Schemas {
  import opened Wrappers

  /** A UTC instant in seconds. */
  type Instant = int

  const SecondsPerMinute: int := 60
  const SecondsPerHour: int := 3600
  const SecondsPerDay: int := 86400

  /** FastAPI's `HTTPException`, raised by a route: the status code and the detail text. */
  datatype HttpException = HttpException(statusCode: int, detail: string)

  /** A reply of a remote HTTP API as the integration services read it: the status code
      and the decoded JSON body. */
  datatype Reply<T> = Reply(status: int, body: T)

  // ---- Auth and integrations ----

  datatype IntegrationStatus = IntegrationStatus(google: bool, canvas: bool)

  /** `IntegrationStatus()`: both flags default to off. */
  const NoIntegrations: IntegrationStatus := IntegrationStatus(false, false)

  // ---- Calendar ----

  datatype CalendarEvent = CalendarEvent(
    id: string, title: string, start: Instant, end: Instant, isAllDay: bool, source: string)

  /** `CalendarEvent(id=…, title=…, start=…, end=…)` with the defaulted fields left out. */
  function NewCalendarEvent(id: string, title: string, start: Instant, end: Instant): (e: CalendarEvent)
    ensures !e.isAllDay && e.source == "google_calendar"
    ensures e.id == id && e.title == title && e.start == start && e.end == end
  {
    CalendarEvent(id, title, start, end, false, "google_calendar")
  }

  // ---- Gmail ----

  datatype SignalType = Interview | Deadline | Application | Offer | Rsvp | Invite | Internship | Hackathon | Submission

  datatype GmailSignal = GmailSignal(
    id: string, subject: string, snippet: string, sender: string, date: Instant, signalTypes: seq<SignalType>)

  // ---- Canvas ----

  datatype CanvasTask = CanvasTask(
    id: string, courseName: string, assignmentName: string, dueAt: Option<Instant>,
    pointsPossible: Option<real>, htmlUrl: Option<string>)

  // ---- Goals ----

  datatype TimeWindow = Morning | Afternoon | Evening

  datatype GoalCategory = Study | Fitness | Career | Personal | Project | Social

  datatype GoalCreate = GoalCreate(
    name: string, category: GoalCategory, priorityWeight: int, weeklyTargetHours: real,
    preferredTimeWindows: seq<TimeWindow>, hardDeadline: Option<Instant>)

  /** The field constraints pydantic enforces when a `GoalCreate` (or a `Goal`) is built:
      a priority from 1 to 10 and a positive weekly target. */
  predicate ValidGoalFields(priorityWeight: int, weeklyTargetHours: real) {
    1 <= priorityWeight <= 10 && weeklyTargetHours > 0.0
  }

  /** Building a `GoalCreate`: the record, or the validation error pydantic raises. */
  function MakeGoalCreate(name: string, category: GoalCategory, priorityWeight: int, weeklyTargetHours: real,
                          windows: seq<TimeWindow>, hardDeadline: Option<Instant>): (r: Result<GoalCreate, string>)
    ensures r.Success? <==> ValidGoalFields(priorityWeight, weeklyTargetHours)
    ensures r.Success? ==> r.value == GoalCreate(name, category, priorityWeight, weeklyTargetHours, windows, hardDeadline)
  {
    if ValidGoalFields(priorityWeight, weeklyTargetHours)
    then Success(GoalCreate(name, category, priorityWeight, weeklyTargetHours, windows, hardDeadline))
    else Failure("validation error")
  }

  /** `GoalCreate(name=…)` with every default: study, priority 5, 5.0 hours a week, no
      preferred windows, no deadline. */
  function DefaultGoalCreate(name: string): (r: Result<GoalCreate, string>) {
    MakeGoalCreate(name, Study, 5, 5.0, [], None)
  }

  /** The defaults pass the field constraints. */
  lemma DefaultsValid(name: string)
    ensures DefaultGoalCreate(name) == Success(GoalCreate(name, Study, 5, 5.0, [], None))
  {
  }

  datatype Goal = Goal(
    id: string, name: string, category: GoalCategory, priorityWeight: int, weeklyTargetHours: real,
    preferredTimeWindows: seq<TimeWindow>, hardDeadline: Option<Instant>, createdAt: Instant)

  /** A `Goal` carries every field of the request it was made from. */
  function GoalFrom(request: GoalCreate, id: string, createdAt: Instant): (g: Goal) {
    Goal(id, request.name, request.category, request.priorityWeight, request.weeklyTargetHours,
         request.preferredTimeWindows, request.hardDeadline, createdAt)
  }

  /** The request a goal was made from can be read back from it. */
  function RequestOf(g: Goal): (r: GoalCreate) {
    GoalCreate(g.name, g.category, g.priorityWeight, g.weeklyTargetHours, g.preferredTimeWindows, g.hardDeadline)
  }

  lemma GoalFromKeepsRequest(request: GoalCreate, id: string, createdAt: Instant)
    ensures RequestOf(GoalFrom(request, id, createdAt)) == request
    ensures GoalFrom(request, id, createdAt).id == id && GoalFrom(request, id, createdAt).createdAt == createdAt
  {
  }

  // ---- Capacity constraints ----

  datatype CapacityConstraints = CapacityConstraints(
    dailyMaxDeepWorkHours: real, dailyMaxTotalScheduledHours: real, sleepStartHour: int, sleepEndHour: int)

  /** `CapacityConstraints()`: 4 deep-work hours, 12 scheduled hours, sleep from midnight to 7. */
  const DefaultConstraints: CapacityConstraints := CapacityConstraints(4.0, 12.0, 0, 7)

  // ---- Plans ----

  datatype PlannedBlock = PlannedBlock(
    goalId: string, goalName: string, category: GoalCategory, start: Instant, end: Instant, isFixed: bool)

  /** `PlannedBlock(...)` without `is_fixed`: a goal block, not a calendar event. */
  function GoalBlock(goalId: string, goalName: string, category: GoalCategory, start: Instant, end: Instant): (b: PlannedBlock)
    ensures !b.isFixed
    ensures b.goalId == goalId && b.goalName == goalName && b.category == category && b.start == start && b.end == end
  {
    PlannedBlock(goalId, goalName, category, start, end, false)
  }

  datatype UnmetGoal = UnmetGoal(
    goalId: string, goalName: string, targetHours: real, allocatedHours: real, deficitHours: real)

  datatype DayCapacity = DayCapacity(date: string, totalHours: real, allocatedHours: real, spareHours: real)

  datatype TradeoffEntry = TradeoffEntry(goalName: string, hoursLost: real)

  datatype TradeoffReport = TradeoffReport(
    newGoalName: string, newGoalHours: real, affected: seq<TradeoffEntry>, feasible: bool)

  datatype PlanResponse = PlanResponse(
    blocks: seq<PlannedBlock>, unmet: seq<UnmetGoal>, capacityByDay: seq<DayCapacity>, coachingMessages: seq<string>)

  datatype PlanGenerateRequest = PlanGenerateRequest(simulateGoal: Option<GoalCreate>)

  // ---- Insights ----

  datatype PlanInsightsResponse = PlanInsightsResponse(
    summary: string, timeBreakdown: string, whereToAddMore: string, available: bool)

  /** `PlanInsightsResponse(summary=…, time_breakdown=…, where_to_add_more=…)`: available by default. */
  function NewInsights(summary: string, timeBreakdown: string, whereToAddMore: string): (r: PlanInsightsResponse)
    ensures r.available
    ensures r.summary == summary && r.timeBreakdown == timeBreakdown && r.whereToAddMore == whereToAddMore
  {
    PlanInsightsResponse(summary, timeBreakdown, whereToAddMore, true)
  }

  // ---- Check-ins ----

  datatype CheckInCreate = CheckInCreate(
    blockId: string, plannedGoalId: string, plannedGoalName: string, start: Instant, end: Instant, whatIDid: string)

  datatype CheckIn = CheckIn(
    blockId: string, plannedGoalId: string, plannedGoalName: string, start: Instant, end: Instant, whatIDid: string,
    id: string, assessment: string, motivationalMessage: string, createdAt: Instant)

  /** The request part of a stored check-in. */
  function CreateOf(c: CheckIn): (r: CheckInCreate) {
    CheckInCreate(c.blockId, c.plannedGoalId, c.plannedGoalName, c.start, c.end, c.whatIDid)
  }

  datatype CheckInResponse = CheckInResponse(assessment: string, motivationalMessage: string, checkInId: string)
}
