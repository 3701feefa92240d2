/** The check-in routes (app/routers/checkins.py): submission asks the assessment
    service about the block first and stores a record only when it answered; listing
    reads the newest records. The assessment service, the uuid and the clock are passed in. */
module CheckinsRouter {
  import opened Wrappers
  import opened Schemas
  import opened CheckinStore

  /** `list_checkins`'s default limit. */
  const ListLimit: int := 50

  const AssessmentUnavailable: string :=
    "Gemini is not configured. Set GEMINI_API_KEY to enable check-in insights."

  /** `process_checkin`, passed in: the assessment and the motivational message for the
      planned goal, the block's times, what the user did and their recent summaries, or
      None when the service is not available. */
  type Assess = (string, Instant, Instant, string, seq<string>) -> Option<(string, string)>

  /** The assessment service's answer for a submission, given the user's records so far. */
  function AnswerFor(assess: Assess, body: CheckInCreate, records: seq<CheckIn>): Option<(string, string)> {
    assess(body.plannedGoalName, body.start, body.end, body.whatIDid, Summaries(Recent(records, SummaryLimit)))
  }

  class CheckinRoutes {
    const store: CheckInStore

    constructor(store: CheckInStore)
      ensures this.store == store
    {
      this.store := store;
    }

    /** `submit_checkin`: a 503 and no record when the assessment service does not
        answer; otherwise exactly one record appended, carrying the service's assessment
        and message, which the response echoes with the record's id. No earlier record
        of the same block is looked for. */
    method SubmitCheckin(user: string, body: CheckInCreate, assess: Assess, id: string, now: Instant)
      returns (r: Result<CheckInResponse, HttpException>)
      modifies store
      ensures var answer := AnswerFor(assess, body, old(store.Records(user)));
        && (answer.None? ==>
              && r == Failure(HttpException(503, AssessmentUnavailable))
              && store.byUser == old(store.byUser)[user := old(store.Records(user))])
        && (answer.Some? ==>
              && r == Success(CheckInResponse(answer.value.0, answer.value.1, id))
              && store.byUser == old(store.byUser)[user := old(store.Records(user)) +
                                                   [Record(body, id, answer.value.0, answer.value.1, now)]])
    {
      var recent := store.RecentSummaries(user, SummaryLimit);
      var answer := assess(body.plannedGoalName, body.start, body.end, body.whatIDid, recent);
      if answer.None? {
        return Failure(HttpException(503, AssessmentUnavailable));
      }
      var (assessment, message) := answer.value;
      var checkIn := store.Add(user, body, assessment, message, id, now);
      r := Success(CheckInResponse(checkIn.assessment, checkIn.motivationalMessage, checkIn.id));
    }

    /** `list_checkins`: `list_recent` with the given limit (50 when none is given). */
    method ListCheckins(user: string, limit: int) returns (r: seq<CheckIn>)
      modifies store
      ensures r == Recent(old(store.Records(user)), limit)
      ensures store.byUser == old(store.byUser)[user := old(store.Records(user))]
    {
      r := store.ListRecent(user, limit);
    }
  }

  /** A submission the service answers is then listed first when it is the user's
      latest record by time. */
  method SubmittedThenListed(routes: CheckinRoutes, user: string, body: CheckInCreate, assess: Assess,
                             id: string, now: Instant)
    returns (submitted: Result<CheckInResponse, HttpException>, listed: seq<CheckIn>)
    requires AnswerFor(assess, body, routes.store.Records(user)).Some?
    requires forall c :: c in routes.store.Records(user) ==> c.createdAt < now
    modifies routes.store
    ensures submitted.Success? && listed != []
    ensures listed[0].id == submitted.value.checkInId && CreateOf(listed[0]) == body
  {
    ghost var before := routes.store.Records(user);
    submitted := routes.SubmitCheckin(user, body, assess, id, now);
    var answer := AnswerFor(assess, body, before);
    LatestListedFirst(before, Record(body, id, answer.value.0, answer.value.1, now), ListLimit);
    listed := routes.ListCheckins(user, ListLimit);
  }
}
