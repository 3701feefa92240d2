/** The client's data model (Models.swift): immutable values decoded from the server.
    Instants are milliseconds since 1970-01-01T00:00:00Z; hour figures, which the
    client holds as `Double`, are exact reals here. */
module Models {
  import opened Wrappers
  import opened Text

  /** A Swift `Date`, in milliseconds since the epoch. */
  type Timestamp = int

  const MsPerSecond: int := 1000
  const MsPerMinute: int := 60 * MsPerSecond
  const MsPerHour: int := 60 * MsPerMinute
  const MsPerDay: int := 24 * MsPerHour

  /** One calendar day in the device's time zone, as the half-open range of instants
      `Calendar.isDate(_:inSameDayAs:)` and `isDateInToday` accept. */
  datatype DayRange = DayRange(start: Timestamp, end: Timestamp) {
    predicate Contains(t: Timestamp) {
      start <= t < end
    }
  }

  // ---- Calendar ----

  datatype CalendarEvent = CalendarEvent(
    id: string, title: string, start: Timestamp, end: Timestamp, isAllDay: bool, source: string)

  /** The memberwise initialiser with its two defaulted arguments left out. */
  function NewCalendarEvent(id: string, title: string, start: Timestamp, end: Timestamp): (e: CalendarEvent)
    ensures !e.isAllDay && e.source == "google_calendar"
    ensures e.id == id && e.title == title && e.start == start && e.end == end
  {
    CalendarEvent(id, title, start, end, false, "google_calendar")
  }

  // ---- Gmail and Canvas ----

  datatype SignalType = Interview | Deadline | Application | Offer | Rsvp | Invite | Internship | Hackathon | Submission

  datatype GmailSignal = GmailSignal(
    id: string, subject: string, snippet: string, sender: string, date: Timestamp, signalTypes: seq<SignalType>)

  datatype CanvasTask = CanvasTask(
    id: string, courseName: string, assignmentName: string, dueAt: Option<Timestamp>,
    pointsPossible: Option<real>, htmlUrl: Option<string>)

  datatype IntegrationStatus = IntegrationStatus(google: bool, canvas: bool)

  // ---- Goals ----

  datatype TimeWindow = Morning | Afternoon | Evening {
    function DisplayName(): string {
      match this
      case Morning => "Morning (7-12)"
      case Afternoon => "Afternoon (12-17)"
      case Evening => "Evening (17-22)"
    }
  }

  const AllTimeWindows: seq<TimeWindow> := [Morning, Afternoon, Evening]

  lemma TimeWindowCases(w: TimeWindow)
    ensures w in AllTimeWindows
    ensures |AllTimeWindows| == 3
    ensures w.DisplayName() in ["Morning (7-12)", "Afternoon (12-17)", "Evening (17-22)"]
  {
  }

  datatype GoalCategory = Study | Fitness | Career | Personal | Project | Social {
    /** The raw value carried in JSON. */
    function RawValue(): string {
      match this
      case Study => "study"
      case Fitness => "fitness"
      case Career => "career"
      case Personal => "personal"
      case Project => "project"
      case Social => "social"
    }

    /** `rawValue.capitalized`. */
    function DisplayName(): string {
      match this
      case Study => "Study"
      case Fitness => "Fitness"
      case Career => "Career"
      case Personal => "Personal"
      case Project => "Project"
      case Social => "Social"
    }

    /** The SF Symbol shown for the category; the switch covers every case. */
    function IconName(): string {
      match this
      case Study => "book.fill"
      case Fitness => "figure.run"
      case Career => "briefcase.fill"
      case Personal => "person.fill"
      case Project => "hammer.fill"
      case Social => "person.3.fill"
    }
  }

  const AllCategories: seq<GoalCategory> := [Study, Fitness, Career, Personal, Project, Social]

  /** `GoalCategory(rawValue:)`, used when decoding. */
  function CategoryFromRaw(raw: string): (c: Option<GoalCategory>)
    ensures c.Some? ==> c.value.RawValue() == raw
  {
    if raw == "study" then Some(Study)
    else if raw == "fitness" then Some(Fitness)
    else if raw == "career" then Some(Career)
    else if raw == "personal" then Some(Personal)
    else if raw == "project" then Some(Project)
    else if raw == "social" then Some(Social)
    else None
  }

  /** Exactly six categories; raw values decode back to their case, and distinct
      cases have distinct raw values and icons. */
  lemma CategoryCases(c: GoalCategory, d: GoalCategory)
    ensures c in AllCategories && |AllCategories| == 6
    ensures forall i, j :: 0 <= i < j < |AllCategories| ==> AllCategories[i] != AllCategories[j]
    ensures CategoryFromRaw(c.RawValue()) == Some(c)
    ensures c != d ==> c.RawValue() != d.RawValue() && c.IconName() != d.IconName()
  {
  }

  datatype GoalCreate = GoalCreate(
    name: string, category: GoalCategory, priorityWeight: int, weeklyTargetHours: real,
    preferredTimeWindows: seq<TimeWindow>, hardDeadline: Option<Timestamp>)

  /** `GoalCreate(name:)` with every defaulted argument left out. */
  function NewGoalCreate(name: string): (g: GoalCreate)
    ensures g.name == name && g.category == Study && g.priorityWeight == 5
    ensures g.weeklyTargetHours == 5.0 && g.preferredTimeWindows == [] && g.hardDeadline.None?
  {
    GoalCreate(name, Study, 5, 5.0, [], None)
  }

  datatype Goal = Goal(
    id: string, name: string, category: GoalCategory, priorityWeight: int, weeklyTargetHours: real,
    preferredTimeWindows: seq<TimeWindow>, hardDeadline: Option<Timestamp>, createdAt: Timestamp)

  // ---- Plan ----

  datatype PlannedBlock = PlannedBlock(
    goalId: string, goalName: string, category: GoalCategory, start: Timestamp, end: Timestamp, isFixed: bool)
  {
    /** `Identifiable.id`: the goal id, a dash and the start as seconds since the epoch. */
    function Id(): string {
      goalId + "-" + SecondsText(start)
    }
  }

  datatype UnmetGoal = UnmetGoal(
    goalId: string, goalName: string, targetHours: real, allocatedHours: real, deficitHours: real)
  {
    function Id(): string { goalId }
  }

  datatype DayCapacity = DayCapacity(date: string, totalHours: real, allocatedHours: real, spareHours: real) {
    function Id(): string { date }
  }

  datatype PlanResponse = PlanResponse(
    blocks: seq<PlannedBlock>, unmet: seq<UnmetGoal>, capacityByDay: seq<DayCapacity>, coachingMessages: seq<string>)

  datatype PlanInsightsResponse = PlanInsightsResponse(
    summary: string, timeBreakdown: string, whereToAddMore: string, available: bool)

  // ---- Check-ins ----

  datatype CheckInCreate = CheckInCreate(
    blockId: string, plannedGoalId: string, plannedGoalName: string, start: Timestamp, end: Timestamp, whatIDid: string)

  datatype CheckIn = CheckIn(
    id: string, blockId: string, plannedGoalId: string, plannedGoalName: string, start: Timestamp, end: Timestamp,
    whatIDid: string, assessment: string, motivationalMessage: string, createdAt: Timestamp)

  datatype CheckInResponse = CheckInResponse(assessment: string, motivationalMessage: string, checkInId: string)

  /** Where two "prefix-dash-suffix" splits of one text disagree on the suffix length,
      the longer suffix holds the other split's dash. */
  lemma {:induction false} DashInLongerSuffix(p: string, x: string, q: string, y: string)
    requires p + "-" + x == q + "-" + y
    requires |x| < |y|
    ensures y[|y| - |x| - 1] == '-'
  {
    var id := p + "-" + x;
    assert id[|p|] == '-';
    assert id[|q| + 1 + (|y| - |x| - 1)] == y[|y| - |x| - 1];
  }

  /** Identities are unambiguous for instants from 1970 on: equal ids mean equal goal ids
      and equal second texts, because the second text holds no dash. */
  lemma {:induction false} BlockIdSplits(a: PlannedBlock, b: PlannedBlock)
    requires a.start >= 0 && b.start >= 0
    requires a.Id() == b.Id()
    ensures a.goalId == b.goalId && SecondsText(a.start) == SecondsText(b.start)
  {
    var x, y := SecondsText(a.start), SecondsText(b.start);
    var id := a.Id();
    if |x| < |y| {
      DashInLongerSuffix(a.goalId, x, b.goalId, y);
      assert false;
    } else if |y| < |x| {
      DashInLongerSuffix(b.goalId, y, a.goalId, x);
      assert false;
    } else {
      assert a.goalId == id[..|id| - |x| - 1] == b.goalId;
      assert x == id[|id| - |x|..] == y;
    }
  }
}
