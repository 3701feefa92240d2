/** The Canvas task list of the integration (`fetch_tasks` in
    app/services/canvas_service.py): the course listing and each course's assignment
    listing are HTTP replies passed in, the ISO-8601 parser and the clock are parameters.
    Assignments already due are dropped, and the rest are sorted by due date with the
    undated ones last. */
module Canvas {
  import opened Wrappers
  import opened Schemas
  import Lists

  /** One assignment of a course listing; a missing key is None. */
  datatype Assignment = Assignment(
    id: Option<string>, name: Option<string>, dueAt: Option<string>, pointsPossible: Option<real>, htmlUrl: Option<string>)

  /** One course of the listing, with the reply to its assignments request. */
  datatype Course = Course(name: Option<string>, assignments: Reply<seq<Assignment>>)

  const UnknownCourse: string := "Unknown Course"

  /** 9999-12-31T23:59:59Z, the last whole second Python's `datetime` can hold. */
  const LatestInstant: int := 253402300799

  /** The sort key of `fetch_tasks`: the due date, or `datetime.max` for an undated task,
      which lies after every whole second. */
  function DueKey(t: CanvasTask): int {
    if t.dueAt.Some? then t.dueAt.value else LatestInstant + 1
  }

  /** An empty due string counts as no due date. */
  predicate HasDueText(a: Assignment) {
    a.dueAt.Some? && a.dueAt.value != ""
  }

  /** The Canvas task an assignment becomes, or None when it is dropped: its due string does
      not parse, or it was due before now. An assignment without a due date is kept. */
  function TaskOf(a: Assignment, courseName: string, parse: string -> Option<Instant>, now: Instant): (r: Option<CanvasTask>)
    ensures r.None? <==> HasDueText(a) && (parse(a.dueAt.value).None? || parse(a.dueAt.value).value < now)
    ensures r.Some? ==> (r.value.dueAt.None? <==> !HasDueText(a))
    ensures r.Some? && r.value.dueAt.Some? ==> r.value.dueAt == parse(a.dueAt.value) && r.value.dueAt.value >= now
    ensures r.Some? ==>
      r.value.courseName == courseName && r.value.assignmentName == a.name.GetOr("") && r.value.id == a.id.GetOr("")
  {
    var task := CanvasTask(a.id.GetOr(""), courseName, a.name.GetOr(""), None, a.pointsPossible, a.htmlUrl);
    if !HasDueText(a) then Some(task)
    else match parse(a.dueAt.value)
      case None => None
      case Some(due) => if due < now then None else Some(task.(dueAt := Some(due)))
  }

  /** The Canvas tasks one course contributes, in listing order. */
  function AssignmentTasks(assignments: seq<Assignment>, courseName: string, parse: string -> Option<Instant>, now: Instant): seq<CanvasTask>
    decreases |assignments|
  {
    if assignments == [] then []
    else
      var last := assignments[|assignments| - 1];
      var earlier := AssignmentTasks(assignments[..|assignments| - 1], courseName, parse, now);
      match TaskOf(last, courseName, parse, now)
      case Some(t) => earlier + [t]
      case None => earlier
  }

  /** A course whose assignments request failed contributes nothing. */
  function CourseTasks(c: Course, parse: string -> Option<Instant>, now: Instant): seq<CanvasTask> {
    if c.assignments.status != 200 then []
    else AssignmentTasks(c.assignments.body, c.name.GetOr(UnknownCourse), parse, now)
  }

  function CourseTasksOf(parse: string -> Option<Instant>, now: Instant): Course -> seq<CanvasTask> {
    (c: Course) => CourseTasks(c, parse, now)
  }

  /** The Canvas tasks gathered over the courses, before the sort. */
  function Collected(courses: seq<Course>, parse: string -> Option<Instant>, now: Instant): seq<CanvasTask> {
    Lists.Gather(courses, CourseTasksOf(parse, now))
  }

  /** What `fetch_tasks` returns: nothing when the course listing failed, otherwise the
      gathered tasks sorted by due date. */
  function FetchedTasks(listing: Reply<seq<Course>>, parse: string -> Option<Instant>, now: Instant): seq<CanvasTask> {
    if listing.status != 200 then [] else Lists.SortBy(Collected(listing.body, parse, now), DueKey)
  }

  /** Every gathered task is current: undated, or due now or later. */
  lemma {:induction false} AssignmentTasksCurrent(assignments: seq<Assignment>, courseName: string, parse: string -> Option<Instant>, now: Instant)
    ensures forall t :: t in AssignmentTasks(assignments, courseName, parse, now) ==> t.dueAt.None? || t.dueAt.value >= now
    decreases |assignments|
  {
    if assignments != [] {
      AssignmentTasksCurrent(assignments[..|assignments| - 1], courseName, parse, now);
    }
  }

  lemma {:induction false} CollectedCurrent(courses: seq<Course>, parse: string -> Option<Instant>, now: Instant)
    ensures forall t :: t in Collected(courses, parse, now) ==> t.dueAt.None? || t.dueAt.value >= now
    decreases |courses|
  {
    if courses != [] {
      var c := courses[|courses| - 1];
      CollectedCurrent(courses[..|courses| - 1], parse, now);
      if c.assignments.status == 200 {
        AssignmentTasksCurrent(c.assignments.body, c.name.GetOr(UnknownCourse), parse, now);
      }
    }
  }

  /** Gathering over two runs of courses is gathering over each in turn. */
  lemma CollectedAppend(a: seq<Course>, b: seq<Course>, parse: string -> Option<Instant>, now: Instant)
    ensures Collected(a + b, parse, now) == Collected(a, parse, now) + Collected(b, parse, now)
  {
    Lists.GatherAppend(a, b, CourseTasksOf(parse, now));
  }

  /** A course whose assignments request failed is skipped, and only that course. */
  lemma FailedCourseSkipped(before: seq<Course>, c: Course, after: seq<Course>, parse: string -> Option<Instant>, now: Instant)
    requires c.assignments.status != 200
    ensures Collected(before + [c] + after, parse, now) == Collected(before, parse, now) + Collected(after, parse, now)
  {
    CollectedAppend(before + [c], after, parse, now);
    CollectedAppend(before, [c], parse, now);
    assert [c][..0] == [];
    assert Collected([c], parse, now) == [];
  }

  /** `fetch_tasks`' result: empty when the course listing failed; otherwise a
      permutation of the gathered tasks, ordered by due date, every task current, and
      the undated tasks after every dated one (for due dates Python can represent). */
  lemma FetchedTasksOrdered(listing: Reply<seq<Course>>, parse: string -> Option<Instant>, now: Instant)
    ensures listing.status != 200 ==> FetchedTasks(listing, parse, now) == []
    ensures listing.status == 200 ==>
      multiset(FetchedTasks(listing, parse, now)) == multiset(Collected(listing.body, parse, now))
    ensures Lists.SortedBy(FetchedTasks(listing, parse, now), DueKey)
    ensures forall t :: t in FetchedTasks(listing, parse, now) ==> t.dueAt.None? || t.dueAt.value >= now
    ensures var r := FetchedTasks(listing, parse, now);
      forall i, j :: 0 <= i < j < |r| && r[i].dueAt.None? && r[j].dueAt.Some? ==> r[j].dueAt.value > LatestInstant
  {
    if listing.status == 200 {
      var gathered := Collected(listing.body, parse, now);
      Lists.SortBySorts(gathered, DueKey);
      CollectedCurrent(listing.body, parse, now);
      forall t | t in FetchedTasks(listing, parse, now) ensures t.dueAt.None? || t.dueAt.value >= now {
        assert t in multiset(gathered);
      }
    }
  }

  /** `fetch_tasks`: the nested loops over courses and assignments, then the sort. */
  method FetchTasks(listing: Reply<seq<Course>>, parse: string -> Option<Instant>, now: Instant) returns (tasks: seq<CanvasTask>)
    ensures tasks == FetchedTasks(listing, parse, now)
  {
    if listing.status != 200 {
      return [];
    }
    var courses := listing.body;
    tasks := [];
    var i := 0;
    while i < |courses|
      invariant 0 <= i <= |courses|
      invariant tasks == Collected(courses[..i], parse, now)
    {
      var course := courses[i];
      var cname := course.name.GetOr(UnknownCourse);
      assert courses[..i + 1][..i] == courses[..i];
      if course.assignments.status == 200 {
        var assignments := course.assignments.body;
        var j := 0;
        while j < |assignments|
          invariant 0 <= j <= |assignments|
          invariant tasks == Collected(courses[..i], parse, now) + AssignmentTasks(assignments[..j], cname, parse, now)
        {
          assert assignments[..j + 1][..j] == assignments[..j];
          var t := TaskOf(assignments[j], cname, parse, now);
          if t.Some? {
            tasks := tasks + [t.value];
          }
          j := j + 1;
        }
        assert assignments[..j] == assignments;
      }
      i := i + 1;
    }
    assert courses[..i] == courses;
    tasks := Lists.SortBy(tasks, DueKey);
  }
}
